/** What the pipeline from the socket to the handlers guarantees in every run. */
module DispatchTheorems {
  import opened Protocol
  import opened Dispatch

  // ---- Invariants ----

  /** Every parseable message was acked, in order of arrival, and all but the one whose
      ack is under way (or was cut short) have met the filter. */
  ghost predicate ReadInv(s: Pipe) {
    && s.acks == Messages(s.frames)
    && Arrived(s.log) <= s.acks
    && (s.reader.Reading? ==> Arrived(s.log) == s.acks)
    && (s.reader.Acking? ==> s.acks == Arrived(s.log) + [s.reader.message])
  }

  ghost predicate QueueInv(s: Pipe) {
    && Accepted(s.log) == s.admitted + s.queue + s.discarded
    && (!s.dispatcher.DispatcherGone? ==> s.discarded == [])
    && (s.dispatcher.DispatcherGone? ==> s.queue == [])
    && forall i | i in s.begun :: i < |s.admitted|
  }

  predicate EntryOk(e: Entry, own: Option<int>) {
    (e.atArrival.Some? ==> e.atFilter == e.atArrival) && (e.atFilter.Some? ==> e.atFilter == own)
  }

  /** The user id is stored once. */
  ghost predicate IdInv(s: Pipe) {
    && (forall i | 0 <= i < |s.log| :: EntryOk(s.log[i], s.ownUserId))
    && (s.reader.Acking? && s.reader.atArrival.Some? ==> s.reader.atArrival == s.ownUserId)
  }

  /** Who can be gone, and who can run. */
  predicate AliveInv(s: Pipe) {
    && (s.reader.ReaderGone? ==> s.cancelled)
    && (s.dispatcher.DispatcherGone? ==> s.cancelled || s.shutdown)
    && (s.dispatcher.Running? || s.admitted != [] ==> s.ownUserId.Some?)
  }

  lemma StepKeepsAliveInv(s: Pipe, l: Label)
    requires AliveInv(s) && Enabled(s, l)
    ensures AliveInv(Apply(s, l))
  {
    hide Messages, MessageOf, Filtered, Content, StopsReading, Answers, Responses;
  }

  lemma ArriveKeepsReadInv(s: Pipe, frame: WsFrame)
    requires ReadInv(s) && s.reader.Reading?
    ensures ReadInv(OnFrame(s, frame))
  {
    hide Messages;
    FramesGrow(s.frames, frame);
  }

  lemma AckKeepsReadInv(s: Pipe)
    requires ReadInv(s) && s.reader.Acking?
    ensures ReadInv(OnAck(s))
  {
    LogGrows(s.log, Entry(s.reader.message, s.reader.atArrival, s.ownUserId));
  }

  lemma StepKeepsReadInv(s: Pipe, l: Label)
    requires ReadInv(s) && Enabled(s, l)
    ensures ReadInv(Apply(s, l))
  {
    match l
    case Arrive(frame) => ArriveKeepsReadInv(s, frame);
    case AckReturns => AckKeepsReadInv(s);
    case _ =>
  }

  /** A message that passes the filter is queued, or discarded if the receiver is gone. */
  lemma AckQueues(s: Pipe, more: seq<Incoming>)
    requires QueueInv(s) && s.reader.Acking? &&
             more == if Filtered(s.reader.message, s.ownUserId) then [] else [s.reader.message]
    ensures var s' := OnAck(s);
      s'.admitted + s'.queue + s'.discarded == s.admitted + s.queue + s.discarded + more
  {
    hide Filtered, Accepted, Arrived, PassedAtArrival, Messages;
  }

  lemma AckKeepsQueueInv(s: Pipe)
    requires QueueInv(s) && s.reader.Acking?
    ensures QueueInv(OnAck(s))
  {
    hide Kept, Filtered, Accepted, Arrived, PassedAtArrival;
    var e := Entry(s.reader.message, s.reader.atArrival, s.ownUserId);
    LogGrows(s.log, e);
    FilterKeeps(e, e.atFilter);
    AckQueues(s, Kept(e, e.atFilter));
  }

  lemma AdmitKeepsQueueInv(s: Pipe)
    requires QueueInv(s) && Enabled(s, Admit)
    ensures QueueInv(Apply(s, Admit))
  {
    var s' := Apply(s, Admit);
    assert s.queue == [s.queue[0]] + s.queue[1..];
    assert s'.admitted + s'.queue == s.admitted + s.queue;
  }

  lemma DropKeepsQueueInv(s: Pipe)
    requires QueueInv(s)
    ensures QueueInv(DropReceiver(s))
  {
    assert s.admitted + [] + (s.discarded + s.queue) == s.admitted + s.queue + s.discarded;
  }

  lemma StepKeepsQueueInv(s: Pipe, l: Label)
    requires QueueInv(s) && Enabled(s, l)
    ensures QueueInv(Apply(s, l))
  {
    match l
    case AckReturns => AckKeepsQueueInv(s);
    case Admit => AdmitKeepsQueueInv(s);
    case DispatcherStops => DropKeepsQueueInv(s);
    case AttemptDropped => DropKeepsQueueInv(s);
    case _ =>
  }

  lemma StepKeepsIdInv(s: Pipe, l: Label)
    requires IdInv(s) && Enabled(s, l)
    ensures IdInv(Apply(s, l))
  {
  }

  lemma {:induction false} RunKeepsInv(states: seq<Pipe>, labels: seq<Label>, n: nat)
    requires IsRun(states, labels) && n <= |labels|
    ensures ReadInv(states[n]) && QueueInv(states[n]) && IdInv(states[n]) && AliveInv(states[n])
  {
    if n > 0 {
      RunKeepsInv(states, labels, n - 1);
      assert IsStep(states, labels, n - 1);
      StepKeepsReadInv(states[n - 1], labels[n - 1]);
      StepKeepsQueueInv(states[n - 1], labels[n - 1]);
      StepKeepsIdInv(states[n - 1], labels[n - 1]);
      StepKeepsAliveInv(states[n - 1], labels[n - 1]);
    }
  }

  // ---- Theorems ----

  /** The admitted messages are, in order and each once, a prefix of those the filter
      let through, which are in order of arrival; until the receiver is dropped nothing
      is lost in between. Every parseable message was acked first, filtered or not. */
  lemma AdmissionIsFifo(states: seq<Pipe>, labels: seq<Label>, n: nat)
    requires IsRun(states, labels) && n <= |labels|
    ensures var s := states[n];
      && s.admitted <= Accepted(s.log)
      && (!s.dispatcher.DispatcherGone? ==> s.admitted + s.queue == Accepted(s.log))
      && s.acks == Messages(s.frames)
      && Arrived(s.log) <= s.acks
  {
    RunKeepsInv(states, labels, n);
    var s := states[n];
    assert s.admitted + s.queue + s.discarded == s.admitted + (s.queue + s.discarded);
    assert !s.dispatcher.DispatcherGone? ==> s.admitted + s.queue + s.discarded == s.admitted + s.queue;
  }

  /** Until the connection is cancelled or the client shuts down, nothing that was let
      through is lost; and nothing is admitted before a login has stored its user. */
  lemma NothingIsLostWhileAlive(states: seq<Pipe>, labels: seq<Label>, n: nat)
    requires IsRun(states, labels) && n <= |labels|
    ensures var s := states[n];
      && (!s.cancelled && !s.shutdown ==> s.admitted + s.queue == Accepted(s.log) && !s.reader.ReaderGone?)
      && (s.admitted != [] ==> s.ownUserId.Some?)
  {
    RunKeepsInv(states, labels, n);
    AdmissionIsFifo(states, labels, n);
  }

  predicate Cancels(l: Label) {
    match l
    case Cancel | EndOfStream => true
    case Arrive(frame) => EndsStream(frame) || AsksReconnect(frame)
    case _ => false
  }

  /** Which steps cancel the connection, and which step takes the receiver away from a
      dispatcher that still has work. */
  lemma WhatCancels(states: seq<Pipe>, labels: seq<Label>, i: nat)
    requires IsRun(states, labels) && i < |labels|
    ensures states[i + 1].cancelled == (states[i].cancelled || Cancels(labels[i]))
    ensures states[i + 1].dispatcher.DispatcherGone? ==
            (states[i].dispatcher.DispatcherGone? || labels[i].AttemptDropped? || labels[i].DispatcherStops?)
    ensures states[i + 1].queue == [] || !states[i + 1].dispatcher.DispatcherGone?
  {
    hide Content, MessageIn, AsksReconnect, EndsStream, StopsReading, MessageOf, Messages, Answers, Responses;
    assert IsStep(states, labels, i);
    RunKeepsInv(states, labels, i + 1);
    if labels[i].Arrive? { FrameReads(labels[i].frame); }
  }

  /** What a frame does to the reader and to the connection, case by case: a close frame or
      an error ends both; after any other frame the reader lives, acking the message if the
      frame carries one, and only a reconnect request cancels the connection. */
  lemma FrameDecides(states: seq<Pipe>, labels: seq<Label>, i: nat)
    requires IsRun(states, labels) && i < |labels| && labels[i].Arrive?
    ensures states[i].reader.Reading?
    ensures var (s, s') := (states[i], states[i + 1]);
      match labels[i].frame
      case CloseFrame | ReadError => s'.reader.ReaderGone? && s'.cancelled
      case PingPong => s'.reader.Reading? && s'.cancelled == s.cancelled
      case Text(_) | Binary(_, _) =>
        && s'.cancelled == (s.cancelled || AsksReconnect(labels[i].frame))
        && s'.acks == s.acks + MessageIn(labels[i].frame)
        && (MessageIn(labels[i].frame) == [] ==> s'.reader.Reading?)
        && (MessageIn(labels[i].frame) != [] ==> s'.reader == Acking(MessageIn(labels[i].frame)[0], s.ownUserId))
  {
    hide MessageIn, AsksReconnect, Messages;
    assert IsStep(states, labels, i);
    FrameReads(labels[i].frame);
  }

  /** The run goes on by these steps. */
  ghost predicate Continues(states: seq<Pipe>, labels: seq<Label>, states': seq<Pipe>, labels': seq<Label>) {
    IsRun(states', labels') && labels <= labels' && states <= states'
  }

  /** While the dispatcher runs and shutdown has not begun, nothing that was let through is
      stuck: one step for each message in the queue admits them all, in order. */
  lemma {:induction false} QueueCanDrain(states: seq<Pipe>, labels: seq<Label>)
      returns (states': seq<Pipe>, labels': seq<Label>)
    requires IsRun(states, labels) && states[|labels|].dispatcher.Running? && !states[|labels|].shutdown
    ensures Continues(states, labels, states', labels') && |labels'| == |labels| + |states[|labels|].queue|
    ensures var (s, s') := (states[|labels|], states'[|labels'|]);
      s' == s.(queue := [], admitted := s.admitted + s.queue)
    decreases |states[|labels|].queue|
  {
    var s := states[|labels|];
    if s.queue == [] {
      states', labels' := states, labels;
      assert s.admitted + s.queue == s.admitted;
    } else {
      RunGrows(states, labels, Admit);
      var next := Apply(s, Admit);
      states', labels' := QueueCanDrain(states + [next], labels + [Admit]);
      assert next.admitted + next.queue == s.admitted + s.queue;
    }
  }

  /** The handlers of the first n admitted messages have begun. */
  predicate BegunUpTo(s: Pipe, n: nat) {
    forall i | 0 <= i < n :: i in s.begun
  }

  /** And as long as shutdown has not begun, each admitted message can still begin its
      handler, whatever has become of the connection. */
  lemma {:induction false} HandlersCanBegin(states: seq<Pipe>, labels: seq<Label>, n: nat)
      returns (states': seq<Pipe>, labels': seq<Label>)
    requires IsRun(states, labels) && !states[|labels|].shutdown && n <= |states[|labels|].admitted|
    ensures Continues(states, labels, states', labels') && |labels'| <= |labels| + n
    ensures var (s, s') := (states[|labels|], states'[|labels'|]);
      s' == s.(begun := s'.begun) && BegunUpTo(s', n)
  {
    if n == 0 {
      states', labels' := states, labels;
    } else {
      states', labels' := HandlersCanBegin(states, labels, n - 1);
      var s := states'[|labels'|];
      if n - 1 !in s.begun {
        RunGrows(states', labels', BeginHandler(n - 1));
        states', labels' := states' + [Apply(s, BeginHandler(n - 1))], labels' + [BeginHandler(n - 1)];
      }
    }
  }

  /** The filter read a user id that was unknown when the message arrived, and dropped the
      message for it. */
  predicate CaughtByLogin(e: Entry) {
    Filtered(e.message, e.atFilter) && !Filtered(e.message, e.atArrival)
  }

  lemma {:induction false} LateVerdicts(log: seq<Entry>, own: Option<int>)
    requires forall i | 0 <= i < |log| :: EntryOk(log[i], own)
    ensures |Accepted(log)| <= |PassedAtArrival(log)|
    ensures |Accepted(log)| == |PassedAtArrival(log)| <==> forall i | 0 <= i < |log| :: !CaughtByLogin(log[i])
    ensures (forall i | 0 <= i < |log| :: !CaughtByLogin(log[i])) ==> Accepted(log) == PassedAtArrival(log)
  {
    if log != [] {
      var n := |log| - 1;
      LateVerdicts(log[..n], own);
      assert EntryOk(log[n], own);
      assert forall i | 0 <= i < n :: log[..n][i] == log[i];
    }
  }

  /** Step i stores the user id of the sender whose message is being acked at that moment,
      and by state n that ack has returned. */
  ghost predicate StoresDuringAck(states: seq<Pipe>, labels: seq<Label>, i: nat, n: nat)
    requires i < |labels| < |states| && n < |states|
  {
    && labels[i].LoginStores? && labels[i].id != SECURITY_SERVICE_USER_ID
    && states[i].reader.Acking? && states[i].reader.message.sender == labels[i].id
    && |states[i].log| < |states[n].log|
  }

  /** Where the entry of a message is whose ack was under way in s with k entries before it. */
  ghost predicate Overtaken(s: Pipe, m: Incoming, k: nat, id: int) {
    && s.ownUserId == Some(id) && k <= |s.log|
    && if |s.log| > k then s.log[k] == Entry(m, None, Some(id)) else s.reader == Acking(m, None) || s.reader.ReaderGone?
  }

  /** From the step that stores the id on, the message is met by a filter that knows it. */
  lemma {:induction false} StoredIsOvertaken(states: seq<Pipe>, labels: seq<Label>, i: nat, n: nat)
    requires IsRun(states, labels) && i < n <= |labels| && labels[i].LoginStores? && states[i].reader.Acking?
    ensures Overtaken(states[n], states[i].reader.message, |states[i].log|, labels[i].id)
  {
    assert IsStep(states, labels, n - 1);
    if i == n - 1 {
      RunKeepsInv(states, labels, i);
    } else {
      StoredIsOvertaken(states, labels, i, n - 1);
    }
  }

  /** An id that became known during an ack was stored during it. */
  lemma {:induction false} KnownWasStored(states: seq<Pipe>, labels: seq<Label>, j: nat) returns (i: nat)
    requires IsRun(states, labels) && j <= |labels|
    requires states[j].reader.Acking? && states[j].reader.atArrival.None? && states[j].ownUserId.Some?
    ensures i < j && labels[i] == LoginStores(states[j].ownUserId.value)
    ensures states[i].reader == states[j].reader && |states[i].log| == |states[j].log|
  {
    assert j > 0;
    assert IsStep(states, labels, j - 1);
    if labels[j - 1].LoginStores? {
      i := j - 1;
    } else {
      i := KnownWasStored(states, labels, j - 1);
    }
  }

  /** Only the return of an ack adds to the log, and it adds one entry. */
  lemma LogStep(s: Pipe, l: Label)
    requires Enabled(s, l)
    ensures l.AckReturns? ==> Apply(s, l).log == s.log + [Entry(s.reader.message, s.reader.atArrival, s.ownUserId)]
    ensures !l.AckReturns? ==> Apply(s, l).log == s.log
  {
  }

  /** Entry k was caught, so the id was stored during its ack. */
  lemma {:induction false} CaughtWasStored(states: seq<Pipe>, labels: seq<Label>, n: nat, k: nat) returns (i: nat)
    requires IsRun(states, labels) && n <= |labels| && k < |states[n].log| && CaughtByLogin(states[n].log[k])
    ensures i < n && StoresDuringAck(states, labels, i, n)
  {
    assert n > 0;
    var before, l := states[n - 1], labels[n - 1];
    assert IsStep(states, labels, n - 1);
    LogStep(before, l);
    RunKeepsInv(states, labels, n - 1);
    if k < |states[n - 1].log| {
      i := CaughtWasStored(states, labels, n - 1, k);
    } else {
      i := KnownWasStored(states, labels, n - 1);
    }
  }

  /** The filter runs after the ack. Its verdicts are those of arrival exactly when the
      login has not stored the user id during the ack of one of that user's own messages;
      and then the admitted messages are a prefix of those that passed on arrival. */
  lemma FilterAtArrivalExactly(states: seq<Pipe>, labels: seq<Label>, n: nat)
    requires IsRun(states, labels) && n <= |labels|
    ensures Accepted(states[n].log) == PassedAtArrival(states[n].log) <==>
            !exists i: nat :: i < n && StoresDuringAck(states, labels, i, n)
    ensures (!exists i: nat :: i < n && StoresDuringAck(states, labels, i, n)) ==>
              states[n].admitted <= PassedAtArrival(states[n].log)
  {
    var log := states[n].log;
    RunKeepsInv(states, labels, n);
    AdmissionIsFifo(states, labels, n);
    LateVerdicts(log, states[n].ownUserId);
    if k: nat :| k < |log| && CaughtByLogin(log[k]) {
      var i := CaughtWasStored(states, labels, n, k);
    }
    forall i: nat | i < n && StoresDuringAck(states, labels, i, n) ensures CaughtByLogin(log[|states[i].log|]) {
      StoredIsOvertaken(states, labels, i, n);
    }
  }

  function AnswerFrame(seqNo: SeqNo, opcode: int): WsFrame {
    Text(Some(Response(Packet(CMD_RESPONSE, seqNo, opcode, Other))))
  }

  function FrameOf(m: Incoming): WsFrame {
    Text(Some(Notification(Notice(Some(m.chatId), Some(m.messageId), Some(m.sender), Some(m.text), Some(m.time)))))
  }

  lemma AnswerCounts(frames: seq<WsFrame>, seqNo: SeqNo, opcode: int)
    ensures Answers(Responses(frames + [AnswerFrame(seqNo, opcode)])) == Answers(Responses(frames)) + 1
  {
    var p := Packet(CMD_RESPONSE, seqNo, opcode, Other);
    FramesGrow(frames, AnswerFrame(seqNo, opcode));
    assert (Responses(frames) + [p])[..|Responses(frames)|] == Responses(frames);
  }

  lemma ReadAnswer(states: seq<Pipe>, labels: seq<Label>, seqNo: SeqNo, opcode: int)
    requires IsRun(states, labels) && states[|labels|].reader.Reading?
    ensures var s := states[|labels|];
      IsRun(states + [s.(frames := s.frames + [AnswerFrame(seqNo, opcode)])],
            labels + [Arrive(AnswerFrame(seqNo, opcode))])
  {
    RunGrows(states, labels, Arrive(AnswerFrame(seqNo, opcode)));
  }

  lemma AnswersAreNoMessages(seqNo: SeqNo, opcode: int)
    ensures MessageIn(AnswerFrame(seqNo, opcode)) == []
  {
  }

  /** The run up to the race: the two answers have been read. */
  lemma BothAnswersRead() returns (states: seq<Pipe>, labels: seq<Label>)
    ensures IsRun(states, labels) && labels == [Arrive(AnswerFrame(1, SESSION_INIT)), Arrive(AnswerFrame(2, LOGIN))]
    ensures states[2] == INIT.(frames := states[2].frames) && Messages(states[2].frames) == []
    ensures Answers(Responses(states[2].frames)) == 2 && |states| == 3
  {
    hide AnswerFrame, MessageIn, ResponseIn, CompletionIn, Apply, Enabled;
    var a, b := AnswerFrame(1, SESSION_INIT), AnswerFrame(2, LOGIN);
    AnswersAreNoMessages(1, SESSION_INIT);
    AnswersAreNoMessages(2, LOGIN);
    states, labels := [INIT], [];
    ReadAnswer(states, labels, 1, SESSION_INIT);
    AnswerCounts([], 1, SESSION_INIT);
    FramesGrow([], a);
    states, labels := states + [INIT.(frames := [] + [a])], labels + [Arrive(a)];
    ReadAnswer(states, labels, 2, LOGIN);
    AnswerCounts([] + [a], 2, LOGIN);
    FramesGrow([] + [a], b);
    states, labels := states + [INIT.(frames := [] + [a] + [b])], labels + [Arrive(b)];
  }

  lemma Caught(m: Incoming)
    requires m.sender != SECURITY_SERVICE_USER_ID
    ensures var e := Entry(m, None, Some(m.sender)); PassedAtArrival([e]) == [m] && Accepted([e]) == []
  {
    var e := Entry(m, None, Some(m.sender));
    LogGrows([], e);
    assert [] + [e] == [e];
  }

  /** The message arrives before the login is polled, and the id is stored during the ack. */
  lemma Race(states: seq<Pipe>, labels: seq<Label>, m: Incoming) returns (states': seq<Pipe>, labels': seq<Label>)
    requires IsRun(states, labels) && states[|labels|] == INIT.(frames := states[|labels|].frames)
    requires Answers(Responses(states[|labels|].frames)) >= 2
    ensures IsRun(states', labels') && labels' == labels + [Arrive(FrameOf(m))] + [LoginStores(m.sender)] + [AckReturns]
    ensures states'[|labels'|] == OnAck(OnFrame(states[|labels|], FrameOf(m)).(ownUserId := Some(m.sender)))
  {
    var s := states[|labels|];
    var s1 := OnFrame(s, FrameOf(m));
    assert MessageOf(FrameOf(m)) == Some(m);
    FramesGrow(s.frames, FrameOf(m));
    assert Responses(s1.frames) == Responses(s.frames);
    RunGrows(states, labels, Arrive(FrameOf(m)));
    states', labels' := states + [s1], labels + [Arrive(FrameOf(m))];
    var s2 := s1.(ownUserId := Some(m.sender));
    RunGrows(states', labels', LoginStores(m.sender));
    states', labels' := states' + [s2], labels' + [LoginStores(m.sender)];
    RunGrows(states', labels', AckReturns);
    states', labels' := states' + [OnAck(s2)], labels' + [AckReturns];
  }

  lemma RaceEnds(s: Pipe, m: Incoming)
    requires s == INIT.(frames := s.frames) && m.sender != SECURITY_SERVICE_USER_ID
    ensures OnFrame(s, FrameOf(m)).reader.Acking?
    ensures var e := OnAck(OnFrame(s, FrameOf(m)).(ownUserId := Some(m.sender)));
      && e.admitted == [] && e.queue == [] && e.discarded == [] && e.reader.Reading?
      && e.log == [Entry(m, None, Some(m.sender))]
  {
    assert MessageOf(FrameOf(m)) == Some(m);
    assert [] + [Entry(m, None, Some(m.sender))] == [Entry(m, None, Some(m.sender))];
  }

  /** Any message that is not the security service's passes a filter on arrival and is
      dropped all the same, if its sender is the user whose login completes meanwhile:
      both answers of the attempt have been read, the message arrives before the login is
      polled, and the id is stored during the ack. */
  lemma OwnMessageCaughtByLogin(m: Incoming) returns (states: seq<Pipe>, labels: seq<Label>)
    requires m.sender != SECURITY_SERVICE_USER_ID
    ensures IsRun(states, labels) && |labels| == 5
    ensures labels[..2] == [Arrive(AnswerFrame(1, SESSION_INIT)), Arrive(AnswerFrame(2, LOGIN))]
    ensures labels[2..] == [Arrive(FrameOf(m)), LoginStores(m.sender), AckReturns]
    ensures var s := states[|labels|];
      s.admitted == [] && s.queue == [] && s.discarded == [] && s.reader.Reading? && PassedAtArrival(s.log) == [m]
  {
    hide IsRun, OnFrame, OnAck, FrameOf, Answers, Responses, Messages, PassedAtArrival, Accepted;
    var states0, labels0 := BothAnswersRead();
    RaceEnds(states0[2], m);
    states, labels := Race(states0, labels0, m);
    Caught(m);
    assert labels[..2] == labels0;
  }

  /** After shutdown no message is admitted and no handler begins. */
  lemma {:induction false} ShutdownEndsAdmission(states: seq<Pipe>, labels: seq<Label>, m: nat, n: nat)
    requires IsRun(states, labels) && m <= n <= |labels| && states[m].shutdown
    ensures states[n].shutdown && states[n].admitted == states[m].admitted && states[n].begun == states[m].begun
  {
    if m < n {
      ShutdownEndsAdmission(states, labels, m, n - 1);
      assert IsStep(states, labels, n - 1);
    }
  }

  /** Once the receiver is gone nothing more is admitted on this connection, while
      handlers already admitted may still begin. */
  lemma {:induction false} DroppedReceiverAdmitsNothing(states: seq<Pipe>, labels: seq<Label>, m: nat, n: nat)
    requires IsRun(states, labels) && m <= n <= |labels| && states[m].dispatcher.DispatcherGone?
    ensures states[n].dispatcher.DispatcherGone? && states[n].admitted == states[m].admitted
    ensures states[m].begun <= states[n].begun
  {
    if m < n {
      DroppedReceiverAdmitsNothing(states, labels, m, n - 1);
      assert IsStep(states, labels, n - 1);
    }
  }
}
