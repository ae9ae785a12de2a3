/** The read loop (src/client/read_loop.rs) and the dispatcher's loop
    (src/client/dispatcher.rs) as the methods they are. Every statement that another
    future could observe is one step of the pipeline, recorded as it is taken. */
module DispatchLoops {
  import opened Protocol
  import opened Dispatch
  import opened DispatchTheorems

  /** The login that completes in state s, if one can. */
  function LoginIn(s: Pipe, meanwhile: Option<int>): seq<Label> {
    if meanwhile.Some? && LoginMayStore(s) then [LoginStores(meanwhile.value)] else []
  }

  function AfterLogin(s: Pipe, meanwhile: Option<int>): Pipe {
    if meanwhile.Some? && LoginMayStore(s) then s.(ownUserId := meanwhile) else s
  }

  predicate HasMessage(frame: WsFrame) {
    !StopsReading(frame) && MessageOf(frame).Some?
  }

  /** What follows the reading of a frame, in state s: for a message, whose ack is under
      way, a login may complete, and only then the ack returns and the filter is asked. */
  function Aftermath(s: Pipe, frame: WsFrame, meanwhile: Option<int>): seq<Label> {
    if HasMessage(frame) then LoginIn(s, meanwhile) + [AckReturns] else []
  }

  function Handled(s: Pipe, frame: WsFrame, meanwhile: Option<int>): Pipe {
    var s1 := OnFrame(s, frame);
    if HasMessage(frame) then OnAck(AfterLogin(s1, meanwhile)) else s1
  }

  lemma ReadShape(s: Pipe, frame: WsFrame)
    ensures OnFrame(s, frame).frames == s.frames + [frame]
    ensures EndsStream(frame) ==> OnFrame(s, frame).reader.ReaderGone?
    ensures HasMessage(frame) <==> MessageIn(frame) != []
    ensures HasMessage(frame) ==> OnFrame(s, frame).reader.Acking?
    ensures !EndsStream(frame) && MessageIn(frame) == [] ==> OnFrame(s, frame).reader == s.reader
  {
  }

  lemma HandledShape(s: Pipe, frame: WsFrame, meanwhile: Option<int>)
    requires s.reader.Reading?
    ensures var s' := Handled(s, frame, meanwhile);
      && s'.frames == s.frames + [frame] && s'.acks == s.acks + MessageIn(frame)
      && Responses(s'.frames) == Responses(s.frames) + ResponseIn(frame)
      && Completions(s'.frames) == Completions(s.frames) + CompletionIn(frame)
      && if EndsStream(frame) then s'.reader.ReaderGone? && s'.cancelled else s'.reader.Reading?
  {
    ReadShape(s, frame);
    Received(s, frame);
    AckShape(AfterLogin(OnFrame(s, frame), meanwhile));
  }

  lemma AckShape(s: Pipe)
    ensures s.reader.Acking? ==> 
              var s' := OnAck(s); s'.reader.Reading? && s'.frames == s.frames && s'.acks == s.acks
  {
  }

  /** The connection, the queue and the dispatcher. The transport is told through `acks`
      and `responses`, the attachment registry through `completions`; `spawned` are the
      handlers started. */
  class Pipeline {
    var ownUserId: Option<int>
    var cancelled: bool
    var reading: bool                 // the read loop still owns its end of the queue
    var queue: seq<Incoming>
    var receiving: bool               // the dispatcher still owns the other end
    var dispatching: bool
    var shutdown: bool
    var acks: seq<Incoming>
    var responses: seq<Packet>
    var completions: seq<int>
    var spawned: seq<Incoming>
    ghost var states: seq<Pipe>
    ghost var labels: seq<Label>
    ghost var now: Pipe               // the last of these states

    ghost predicate Recorded()
      reads this
    {
      IsRun(states, labels) && states[|labels|] == now
    }

    /** The fields are those of the run's last state. */
    ghost predicate Valid()
      reads this
    {
      && Recorded()
      && now.ownUserId == ownUserId && now.cancelled == cancelled && now.shutdown == shutdown
      && (reading <==> !now.reader.ReaderGone?) && (receiving <==> !now.dispatcher.DispatcherGone?)
      && (dispatching <==> now.dispatcher.Running?)
      && now.queue == queue && now.acks == acks && now.admitted == spawned
      && responses == Responses(now.frames) && completions == Completions(now.frames)
    }

    constructor ()
      ensures Valid() && now == INIT && labels == []
    {
      ownUserId, cancelled, reading, queue := None, false, true, [];
      receiving, dispatching, shutdown := true, false, false;
      acks, responses, completions, spawned := [], [], [], [];
      states, labels, now := [INIT], [], INIT;
    }

    ghost method Record(l: Label)
      requires Recorded() && Enabled(now, l)
      modifies this`states, this`labels, this`now
      ensures Recorded() && labels == old(labels) + [l] && now == Apply(old(now), l)
    {
      RunGrows(states, labels, l);
      states, labels, now := states + [Apply(now, l)], labels + [l], Apply(now, l);
    }

    /** The stream is over for the reader, and the connection with it. */
    method Stop(frame: WsFrame)
      requires Valid() && now.reader.Reading? && EndsStream(frame)
      modifies this
      ensures Valid() && labels == old(labels) + [Arrive(frame)] && now == OnFrame(old(now), frame)
    {
      Received(now, frame);
      Record(Arrive(frame));
      reading, cancelled := false, true;
    }

    method PassResponse(packet: Packet, ghost frame: WsFrame)
      requires Valid() && now.reader.Reading? && Content(frame) == Some(Response(packet))
      modifies this
      ensures Valid() && labels == old(labels) + [Arrive(frame)] && now == OnFrame(old(now), frame)
    {
      Received(now, frame);
      Record(Arrive(frame));
      responses := responses + [packet];
    }

    method CompleteAttachment(fileId: int, ghost frame: WsFrame)
      requires Valid() && now.reader.Reading? && Content(frame) == Some(AttachNotice(Some(fileId)))
      modifies this
      ensures Valid() && labels == old(labels) + [Arrive(frame)] && now == OnFrame(old(now), frame)
    {
      Received(now, frame);
      Record(Arrive(frame));
      completions := completions + [fileId];
    }

    method CancelConnection(ghost frame: WsFrame)
      requires Valid() && now.reader.Reading? && Content(frame) == Some(ReconnectRequest)
      modifies this
      ensures Valid() && labels == old(labels) + [Arrive(frame)] && now == OnFrame(old(now), frame)
    {
      Received(now, frame);
      Record(Arrive(frame));
      cancelled := true;
    }

    /** Nothing to be done with this frame. */
    predicate Idle(frame: WsFrame) {
      !EndsStream(frame) && MessageIn(frame) == [] && ResponseIn(frame) == [] && CompletionIn(frame) == [] &&
      !AsksReconnect(frame)
    }

    method Ignore(ghost frame: WsFrame)
      requires Valid() && now.reader.Reading? && Idle(frame)
      modifies this
      ensures Valid() && labels == old(labels) + [Arrive(frame)] && now == OnFrame(old(now), frame)
    {
      Received(now, frame);
      Record(Arrive(frame));
    }

    /** The ack of a message is handed to the transport. */
    method SendAck(message: Incoming, ghost frame: WsFrame)
      requires Valid() && now.reader.Reading? && MessageOf(frame) == Some(message) && !StopsReading(frame)
      modifies this
      ensures Valid() && labels == old(labels) + [Arrive(frame)] && now == OnFrame(old(now), frame)
    {
      Received(now, frame);
      Record(Arrive(frame));
      acks := acks + [message];
    }

    /** A login completes, if one can. */
    method CompleteLogin(meanwhile: Option<int>)
      requires Valid()
      modifies this
      ensures Valid() && labels == old(labels) + LoginIn(old(now), meanwhile) && now == AfterLogin(old(now), meanwhile)
    {
      if meanwhile.Some? && ownUserId.None? && receiving && !dispatching && Answers(responses) >= 2 {
        ownUserId := meanwhile;
        Record(LoginStores(meanwhile.value));
      }
    }

    /** The ack has returned: the filter, and then the queue. */
    method FilterAndQueue(message: Incoming)
      requires Valid() && now.reader.Acking? && now.reader.message == message
      modifies this
      ensures Valid() && labels == old(labels) + [AckReturns] && now == OnAck(old(now))
    {
      if !Filtered(message, ownUserId) && receiving {
        queue := queue + [message];
      }
      Record(AckReturns);
    }

    /** `meanwhile` is the user id of a login that completes while the ack is being sent,
        if one can. */
    method HandleServerRequest(request: Inbound, ghost frame: WsFrame, meanwhile: Option<int>)
      requires Valid() && now.reader.Reading? && Content(frame) == Some(request) && !request.Response?
      modifies this
      ensures Valid() && now == Handled(old(now), frame, meanwhile)
      ensures labels == old(labels) + [Arrive(frame)] + Aftermath(OnFrame(old(now), frame), frame, meanwhile)
    {
      match request
      case ReconnectRequest =>
        CancelConnection(frame);
      case Notification(notice) =>
        var message := ParseIncoming(notice);
        if message.Some? {
          HandleMessage(message.value, frame, meanwhile);
        } else {
          Ignore(frame);
        }
      case AttachNotice(fileId) =>
        if fileId.Some? {
          CompleteAttachment(fileId.value, frame);
        } else {
          Ignore(frame);
        }
      case OtherRequest =>
        Ignore(frame);
    }

    method HandleMessage(message: Incoming, ghost frame: WsFrame, meanwhile: Option<int>)
      requires Valid() && now.reader.Reading? && MessageOf(frame) == Some(message) && !StopsReading(frame)
      modifies this
      ensures Valid() && now == Handled(old(now), frame, meanwhile)
      ensures labels == old(labels) + [Arrive(frame)] + Aftermath(OnFrame(old(now), frame), frame, meanwhile)
    {
      ReadShape(now, frame);
      SendAck(message, frame);
      label Sent:
      CompleteLogin(meanwhile);
      FilterAndQueue(message);
      assert labels == old@Sent(labels) + (LoginIn(old@Sent(now), meanwhile) + [AckReturns]);
    }

    /** One turn of the loop. */
    method HandleFrame(frame: WsFrame, meanwhile: Option<int>) returns (stop: bool)
      requires Valid() && now.reader.Reading?
      modifies this
      ensures Valid() && now == Handled(old(now), frame, meanwhile) && stop == EndsStream(frame)
      ensures labels == old(labels) + [Arrive(frame)] + Aftermath(OnFrame(old(now), frame), frame, meanwhile)
    {
      stop := StopsReading(frame);
      var content := Content(frame);
      if stop {
        Stop(frame);
      } else if content.None? {
        Ignore(frame);
      } else if content.value.Response? {
        PassResponse(content.value.packet, frame);
      } else {
        HandleServerRequest(content.value, frame, meanwhile);
      }
    }

    /** The turn as the loop sees it. */
    method Turn(frame: WsFrame, meanwhile: Option<int>) returns (stop: bool)
      requires Valid() && now.reader.Reading?
      modifies this
      ensures Valid() && stop == EndsStream(frame) && now.frames == old(now.frames) + [frame]
      ensures acks == old(acks) + MessageIn(frame)
      ensures responses == old(responses) + ResponseIn(frame) && completions == old(completions) + CompletionIn(frame)
      ensures if stop then now.reader.ReaderGone? && cancelled else now.reader.Reading?
    {
      HandledShape(now, frame, meanwhile);
      stop := HandleFrame(frame, meanwhile);
    }

    /** `frames` is what the socket yields before it ends; `meanwhile[i]` is the login that
        completes while frame i is handled, if one can. */
    method ReadLoop(frames: seq<WsFrame>, meanwhile: seq<Option<int>>) returns (n: nat)
      requires Valid() && now.reader.Reading? && |meanwhile| == |frames|
      modifies this
      ensures Valid() && !reading && cancelled && n <= |frames|
      ensures forall i | 0 <= i < n - 1 :: frames[i].Text? || frames[i].Binary? || frames[i].PingPong?
      ensures n < |frames| ==> n > 0 && (frames[n - 1].CloseFrame? || frames[n - 1].ReadError?)
      ensures acks == old(acks) + Messages(frames[..n])
      ensures responses == old(responses) + Responses(frames[..n])
      ensures completions == old(completions) + Completions(frames[..n])
    {
      hide Messages, Responses, Completions, MessageIn, ResponseIn, CompletionIn, IsRun;
      NoFrames();
      n := 0;
      var stop := false;
      while n < |frames| && !stop
        invariant n <= |frames| && forall i | 0 <= i < n - 1 :: !EndsStream(frames[i])
        invariant stop <==> n > 0 && EndsStream(frames[n - 1])
        invariant Valid() && if stop then now.reader.ReaderGone? && cancelled else now.reader.Reading?
        invariant acks == old(acks) + Messages(frames[..n]) && responses == old(responses) + Responses(frames[..n])
        invariant completions == old(completions) + Completions(frames[..n])
      {
        stop := Turn(frames[n], meanwhile[n]);
        FramesGrow(frames[..n], frames[n]);
        assert frames[..n + 1] == frames[..n] + [frames[n]];
        n := n + 1;
      }
      if !stop {
        EndStream();
      }
    }

    /** The stream ended without a close frame. */
    method EndStream()
      requires Valid() && now.reader.Reading?
      modifies this
      ensures Valid() && !reading && cancelled
      ensures acks == old(acks) && responses == old(responses) && completions == old(completions)
    {
      Record(EndOfStream);
      reading, cancelled := false, true;
    }

    method StartDispatching()
      requires Valid() && Enabled(now, StartDispatcher)
      modifies this
      ensures Valid() && labels == old(labels) + [StartDispatcher] && now == Apply(old(now), StartDispatcher)
    {
      dispatching := true;
      Record(StartDispatcher);
    }

    /** `handler_shutdown` is cancelled by somebody else. */
    method ShutDown()
      requires Valid()
      modifies this
      ensures Valid() && labels == old(labels) + [Shutdown] && now == Apply(old(now), Shutdown)
    {
      shutdown := true;
      Record(Shutdown);
    }

    method SpawnHandler()
      requires Valid() && Enabled(now, Admit)
      modifies this
      ensures Valid() && labels == old(labels) + [Admit] && now == Apply(old(now), Admit)
    {
      spawned, queue := spawned + [queue[0]], queue[1..];
      Record(Admit);
    }

    /** The loop is left, and the receiver dropped. */
    method StopDispatching()
      requires Valid() && Enabled(now, DispatcherStops)
      modifies this
      ensures Valid() && labels == old(labels) + [DispatcherStops] && now == Apply(old(now), DispatcherStops)
    {
      dispatching, receiving, queue := false, false, [];
      Record(DispatcherStops);
    }

    /** How many of this many messages are admitted. */
    static function Admitted(shutdown: bool, shutdownAt: Option<nat>, queued: nat): nat {
      if shutdown then 0 else if shutdownAt.Some? && shutdownAt.value < queued then shutdownAt.value else queued
    }

    /** The dispatcher on the queue as it is, while the read loop is not polled: shutdown is
        set before poll `shutdownAt`, if ever. It admits n messages, and then waits for more
        or is over. */
    method RunDispatcher(shutdownAt: Option<nat>) returns (n: nat, waits: bool)
      requires Valid() && Enabled(now, StartDispatcher)
      modifies this
      ensures Valid() && now.log == old(now.log) && queue == []
      ensures n <= |old(queue)| && spawned == old(spawned) + old(queue)[..n]
      ensures n == Admitted(old(shutdown), shutdownAt, |old(queue)|)
      ensures if waits then receiving && reading && !shutdown else !receiving && (shutdown || !reading)
    {
      StartDispatching();
      n, waits := DrainQueue(shutdownAt);
    }

    method DrainQueue(shutdownAt: Option<nat>) returns (n: nat, waits: bool)
      requires Valid() && now.dispatcher.Running?
      modifies this
      ensures Valid() && now.log == old(now.log) && queue == []
      ensures n <= |old(queue)| && spawned == old(spawned) + old(queue)[..n]
      ensures n == Admitted(old(shutdown), shutdownAt, |old(queue)|)
      ensures if waits then receiving && old(reading) && !shutdown else !receiving && (shutdown || !old(reading))
      ensures reading == old(reading)
    {
      n := 0;
      ghost var all := queue;
      while true
        invariant Valid() && now.dispatcher.Running? && now.log == old(now.log) && now.reader == old(now.reader)
        invariant n <= |all| && queue == all[n..] && spawned == old(spawned) + all[..n]
        invariant if old(shutdown) then shutdown && n == 0
                  else !shutdown && (shutdownAt.Some? ==> n <= shutdownAt.value)
        decreases |all| - n
      {
        if shutdownAt == Some(n) {
          ShutDown();
        }
        if shutdown {
          StopDispatching();
          return n, false;
        }
        if queue == [] {
          if reading {
            return n, true;
          }
          StopDispatching();
          return n, false;
        }
        SpawnHandler();
        assert all[..n + 1] == all[..n] + [all[n]];
        n := n + 1;
      }
    }
  }

  /** So what is proved of every run holds of the loops: the handlers spawned are, in order
      and each once, the first of the messages let through, and every message was acked. */
  lemma LoopsAreFifo(p: Pipeline)
    requires p.Valid()
    ensures p.spawned <= Accepted(p.now.log) && p.acks == Messages(p.now.frames) && Arrived(p.now.log) <= p.acks
    ensures p.receiving ==> p.spawned + p.queue == Accepted(p.now.log)
  {
    AdmissionIsFifo(p.states, p.labels, |p.labels|);
  }

  lemma NoFrames()
    ensures Messages([]) == [] && Responses([]) == [] && Completions([]) == []
  {
  }

  /** What reading a frame changes. */
  lemma Received(s: Pipe, frame: WsFrame)
    ensures var s' := OnFrame(s, frame);
      && s'.acks == s.acks + MessageIn(frame)
      && Responses(s'.frames) == Responses(s.frames) + ResponseIn(frame)
      && Completions(s'.frames) == Completions(s.frames) + CompletionIn(frame)
      && s' == s.(reader := s'.reader, cancelled := s'.cancelled, frames := s'.frames, acks := s'.acks)
      && s'.cancelled == (s.cancelled || EndsStream(frame) || AsksReconnect(frame))
  {
    hide Messages, Responses, Completions, MessageIn, ResponseIn, CompletionIn, StopsReading, EndsStream;
    hide Content, AsksReconnect, MessageOf;
    FrameReads(frame);
    FramesGrow(s.frames, frame);
  }
}
