/** From the socket to the message handlers (src/client/read_loop.rs,
    src/client/dispatcher.rs): what the two loops owe the frames, and the pipeline they
    form with the login and the supervisor as a small-step machine. */
module Dispatch {
  import opened Protocol

  const SECURITY_SERVICE_USER_ID := 543835

  datatype Incoming = Incoming(chatId: int, messageId: int, sender: int, text: string, time: int)

  /** The JSON fields `parse_incoming` reads; None is a missing field or one of another type. */
  datatype Notice = Notice(
    chatId: Option<int>, id: Option<int>, sender: Option<int>, text: Option<string>, time: Option<int>)

  datatype Inbound =
    | Notification(notice: Notice)
    | AttachNotice(fileId: Option<int>)
    | ReconnectRequest
    | OtherRequest
    | Response(packet: Packet)

  /** A WebSocket frame; `content` is None when its text is not a packet. */
  datatype WsFrame =
    | Text(content: Option<Inbound>)
    | Binary(utf8: bool, content: Option<Inbound>)
    | PingPong
    | CloseFrame
    | ReadError

  predicate StopsReading(frame: WsFrame) {
    frame.CloseFrame? || frame.ReadError?
  }

  /** `frame_text` and the parsing of the text. */
  function Content(frame: WsFrame): Option<Inbound> {
    match frame
    case Text(content) => content
    case Binary(utf8, content) => if utf8 then content else None
    case _ => None
  }

  function ValueOr<T>(o: Option<T>, fallback: T): T {
    if o.Some? then o.value else fallback
  }

  function ParseIncoming(n: Notice): Option<Incoming> {
    if n.chatId.None? then None
    else Some(Incoming(n.chatId.value, ValueOr(n.id, 0), ValueOr(n.sender, 0), ValueOr(n.text, ""), ValueOr(n.time, 0)))
  }

  /** The message of a parseable NOTIF_MESSAGE request. */
  function MessageOf(frame: WsFrame): Option<Incoming> {
    var content := Content(frame);
    if content.Some? && content.value.Notification? then ParseIncoming(content.value.notice) else None
  }

  predicate Filtered(m: Incoming, ownUserId: Option<int>) {
    ownUserId == Some(m.sender) || m.sender == SECURITY_SERVICE_USER_ID
  }

  // ---- What the loops owe the frames they read, case by case ----

  /** The read loop is over with this frame. */
  predicate EndsStream(frame: WsFrame) {
    match frame
    case CloseFrame | ReadError => true
    case Text(_) | Binary(_, _) | PingPong => false
  }

  /** The server asks for a reconnect. */
  predicate AsksReconnect(frame: WsFrame) {
    match frame
    case Text(Some(ReconnectRequest)) => true
    case Binary(true, Some(ReconnectRequest)) => true
    case _ => false
  }

  /** The message of this frame, if it has one: a notification with a chat id is enough. */
  function MessageIn(frame: WsFrame): seq<Incoming> {
    match frame
    case Text(Some(Notification(Notice(Some(chatId), id, sender, text, time)))) =>
      [Incoming(chatId, OrZero(id), OrZero(sender), OrEmpty(text), OrZero(time))]
    case Binary(true, Some(Notification(Notice(Some(chatId), id, sender, text, time)))) =>
      [Incoming(chatId, OrZero(id), OrZero(sender), OrEmpty(text), OrZero(time))]
    case _ => []
  }

  function OrZero(field: Option<int>): int {
    match field
    case Some(n) => n
    case None => 0
  }

  function OrEmpty(field: Option<string>): string {
    match field
    case Some(text) => text
    case None => ""
  }

  function ResponseIn(frame: WsFrame): seq<Packet> {
    match frame
    case Text(Some(Response(packet))) => [packet]
    case Binary(true, Some(Response(packet))) => [packet]
    case _ => []
  }

  function CompletionIn(frame: WsFrame): seq<int> {
    match frame
    case Text(Some(AttachNotice(Some(fileId)))) => [fileId]
    case Binary(true, Some(AttachNotice(Some(fileId)))) => [fileId]
    case _ => []
  }

  /** What the code makes of a frame is what the cases say. */
  lemma FrameReads(frame: WsFrame)
    ensures StopsReading(frame) <==> EndsStream(frame)
    ensures Content(frame) == Some(ReconnectRequest) <==> AsksReconnect(frame)
    ensures MessageOf(frame) == if MessageIn(frame) == [] then None else Some(MessageIn(frame)[0])
    ensures |MessageIn(frame)| <= 1
    ensures ResponseIn(frame) == match Content(frame) case Some(Response(packet)) => [packet] case _ => []
    ensures CompletionIn(frame) == match Content(frame) case Some(AttachNotice(Some(fileId))) => [fileId] case _ => []
    ensures EndsStream(frame) || AsksReconnect(frame) ==> MessageIn(frame) == []
  {
  }

  /** The messages of these frames, in order. */
  function Messages(frames: seq<WsFrame>): seq<Incoming> {
    if frames == [] then [] else Messages(frames[..|frames| - 1]) + MessageIn(frames[|frames| - 1])
  }

  /** The responses among these frames, for the transport. */
  function Responses(frames: seq<WsFrame>): seq<Packet> {
    if frames == [] then [] else Responses(frames[..|frames| - 1]) + ResponseIn(frames[|frames| - 1])
  }

  /** The file ids of the attachment notices among them, for the registry. */
  function Completions(frames: seq<WsFrame>): seq<int> {
    if frames == [] then [] else Completions(frames[..|frames| - 1]) + CompletionIn(frames[|frames| - 1])
  }

  /** How many of these responses are not errors. */
  function Answers(responses: seq<Packet>): nat {
    if responses == [] then 0
    else Answers(responses[..|responses| - 1]) + (if responses[|responses| - 1].cmd == CMD_ERROR then 0 else 1)
  }

  /** A message whose ack has returned, with the user id known when it arrived and
      the one the filter read. */
  datatype Entry = Entry(message: Incoming, atArrival: Option<int>, atFilter: Option<int>)

  /** The code's filter keeps what the cases keep. */
  lemma FilterKeeps(e: Entry, ownUserId: Option<int>)
    ensures Kept(e, ownUserId) == if Filtered(e.message, ownUserId) then [] else [e.message]
  {
  }

  function Arrived(log: seq<Entry>): seq<Incoming> {
    seq(|log|, i requires 0 <= i < |log| => log[i].message)
  }

  /** The user's own messages and those of the security service are not for the handlers. */
  function Kept(e: Entry, ownUserId: Option<int>): seq<Incoming> {
    var sender := e.message.sender;
    match ownUserId
    case Some(own) => if sender != own && sender != SECURITY_SERVICE_USER_ID then [e.message] else []
    case None => if sender != SECURITY_SERVICE_USER_ID then [e.message] else []
  }

  /** What the filter let through. */
  function Accepted(log: seq<Entry>): seq<Incoming> {
    if log == [] then []
    else
      var e := log[|log| - 1];
      Accepted(log[..|log| - 1]) + Kept(e, e.atFilter)
  }

  /** What a filter applied on arrival would have let through. */
  function PassedAtArrival(log: seq<Entry>): seq<Incoming> {
    if log == [] then []
    else
      var e := log[|log| - 1];
      PassedAtArrival(log[..|log| - 1]) + Kept(e, e.atArrival)
  }

  lemma LogGrows(log: seq<Entry>, e: Entry)
    ensures Arrived(log + [e]) == Arrived(log) + [e.message]
    ensures Accepted(log + [e]) == Accepted(log) + Kept(e, e.atFilter)
    ensures PassedAtArrival(log + [e]) == PassedAtArrival(log) + Kept(e, e.atArrival)
  {
    assert (log + [e])[..|log|] == log;
  }

  lemma FramesGrow(frames: seq<WsFrame>, frame: WsFrame)
    ensures Messages(frames + [frame]) == Messages(frames) + MessageIn(frame)
    ensures Responses(frames + [frame]) == Responses(frames) + ResponseIn(frame)
    ensures Completions(frames + [frame]) == Completions(frames) + CompletionIn(frame)
  {
    assert (frames + [frame])[..|frames|] == frames;
  }

  // ---- The pipeline under every schedule ----

  datatype Reader = Reading | Acking(message: Incoming, atArrival: Option<int>) | ReaderGone
  datatype Dispatcher = NotStarted | Running | DispatcherGone

  datatype Pipe = Pipe(
    reader: Reader,
    dispatcher: Dispatcher,
    ownUserId: Option<int>,
    cancelled: bool,               // the connection's token
    shutdown: bool,                // `handler_shutdown`
    queue: seq<Incoming>,
    begun: set<nat>,               // spawned handlers that have called `on_message`
    // history
    frames: seq<WsFrame>,
    acks: seq<Incoming>,
    log: seq<Entry>,
    admitted: seq<Incoming>,       // handlers spawned, in order
    discarded: seq<Incoming>)      // let through, but the receiver was gone

  datatype Label =
    | Arrive(frame: WsFrame)
    | AckReturns
    | EndOfStream                  // or the reader is aborted
    | LoginStores(id: int)
    | StartDispatcher
    | Admit
    | DispatcherStops
    | AttemptDropped
    | Cancel                       // a keepalive, a failed call or the shutdown token cancels the connection
    | BeginHandler(i: nat)
    | Shutdown

  const INIT := Pipe(Reading, NotStarted, None, false, false, [], {}, [], [], [], [], [])

  predicate Enabled(s: Pipe, l: Label) {
    match l
    case Arrive(_) => s.reader.Reading?
    case AckReturns => s.reader.Acking?
    case EndOfStream => !s.reader.ReaderGone?
    case LoginStores(_) => LoginMayStore(s)
    case StartDispatcher => s.dispatcher.NotStarted? && s.ownUserId.Some?
    case Admit => s.dispatcher.Running? && !s.shutdown && s.queue != []
    case DispatcherStops => s.dispatcher.Running? && (s.shutdown || (s.queue == [] && s.reader.ReaderGone?))
    case AttemptDropped => s.cancelled && !s.dispatcher.DispatcherGone?
    case BeginHandler(i) => i < |s.admitted| && i !in s.begun && !s.shutdown
    case Cancel => true
    case Shutdown => true
  }

  /** The id is stored in the poll that returns the answer to LOGIN, which like the answer
      to SESSION_INIT before it has come through the read loop; then the login is over. */
  predicate LoginMayStore(s: Pipe) {
    s.ownUserId.None? && s.dispatcher.NotStarted? && Answers(Responses(s.frames)) >= 2
  }

  function OnFrame(s: Pipe, frame: WsFrame): Pipe {
    var s1 := s.(frames := s.frames + [frame]);
    if StopsReading(frame) then s1.(reader := ReaderGone, cancelled := true)
    else
      var m := MessageOf(frame);
      if m.Some? then s1.(reader := Acking(m.value, s.ownUserId), acks := s.acks + [m.value])
      else if Content(frame) == Some(ReconnectRequest) then s1.(cancelled := true)
      else s1
  }

  function OnAck(s: Pipe): Pipe
    requires s.reader.Acking?
  {
    var m := s.reader.message;
    var s1 := s.(reader := Reading, log := s.log + [Entry(m, s.reader.atArrival, s.ownUserId)]);
    if Filtered(m, s.ownUserId) then s1
    else if s.dispatcher.DispatcherGone? then s1.(discarded := s.discarded + [m])
    else s1.(queue := s.queue + [m])
  }

  /** The receiver goes, and the messages in it with it. */
  function DropReceiver(s: Pipe): Pipe {
    s.(dispatcher := DispatcherGone, queue := [], discarded := s.discarded + s.queue)
  }

  function Apply(s: Pipe, l: Label): Pipe
    requires Enabled(s, l)
  {
    match l
    case Arrive(frame) => OnFrame(s, frame)
    case AckReturns => OnAck(s)
    case EndOfStream => s.(reader := ReaderGone, cancelled := true)
    case LoginStores(id) => s.(ownUserId := Some(id))
    case StartDispatcher => s.(dispatcher := Running)
    case Admit => s.(queue := s.queue[1..], admitted := s.admitted + [s.queue[0]])
    case DispatcherStops => DropReceiver(s)
    case AttemptDropped => DropReceiver(s)
    case Cancel => s.(cancelled := true)
    case BeginHandler(i) => s.(begun := s.begun + {i})
    case Shutdown => s.(shutdown := true)
  }

  ghost predicate IsRun(states: seq<Pipe>, labels: seq<Label>) {
    |states| == |labels| + 1 && states[0] == INIT &&
    forall i | 0 <= i < |labels| :: IsStep(states, labels, i)
  }

  ghost predicate IsStep(states: seq<Pipe>, labels: seq<Label>, i: nat)
    requires i < |labels| < |states|
  {
    Enabled(states[i], labels[i]) && states[i + 1] == Apply(states[i], labels[i])
  }

  /** A run can go on with any enabled step. */
  lemma RunGrows(states: seq<Pipe>, labels: seq<Label>, l: Label)
    requires IsRun(states, labels) && Enabled(states[|labels|], l)
    ensures IsRun(states + [Apply(states[|labels|], l)], labels + [l])
  {
    var states', labels' := states + [Apply(states[|labels|], l)], labels + [l];
    forall i | 0 <= i < |labels'| ensures IsStep(states', labels', i) {
      assert i < |labels| ==> IsStep(states, labels, i);
    }
  }
}
