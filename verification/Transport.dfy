/** The request/response multiplexer (src/client/transport.rs) as a small-step
    machine: every acquisition of a lock, every lock-protected section, every
    outcome of a write, timeout or one-shot receive, and the drop of any future
    is one step; the scheduler, the clock and the server choose among them. */
module Transport {
  import opened Protocol

  /** One future running inside the transport. */
  type TaskId = nat

  datatype Kind =
    | Invoke(opcode: int, payload: Payload, origin: Option<nat>) // origin: the send call it serves, if any
    | Ack(packet: Packet)      // `send` called directly by the read loop
    | Respond(packet: Packet)  // `receive_response`
    | Close
    | Connect

  datatype Section =
    | Order | Alloc | Register | Undo(error: Error) | Cleanup(error: Error)
    | Feed | Deliver | Clear | Take | Install

  datatype Outcome = Returned | Replied(packet: Packet) | Failed(error: Error)

  /** `Want(s)` waits for the lock of section s, `In(s)` holds it; `Flushing` still
      holds the sink after handing it the frame; `Awaiting` waits on the one-shot. */
  datatype Phase =
    | Want(section: Section)
    | In(section: Section)
    | Flushing
    | Awaiting
    | Finished(outcome: Outcome)
    | Cancelled

  /** `ticket` numbers allocations from 0 without wrapping; it is a history variable. */
  datatype Task = Task(kind: Kind, phase: Phase, seqNo: SeqNo, ticket: Option<nat>)

  datatype Frame = Frame(from: TaskId, packet: Packet)

  /** Who dropped the sender half of a one-shot before it carried a response. */
  datatype Cause = ByClose(task: TaskId) | ByPrune(task: TaskId) | ByRemoval(task: TaskId) | Undelivered(task: TaskId)

  datatype Mux = Mux(
    nextSeq: SeqNo,
    pending: map<SeqNo, TaskId>,       // each sender half, named by the invoke that holds the receiver
    sinkOpen: bool,
    locks: map<Lock, TaskId>,        // the three mutexes that are held, and by whom
    tasks: map<TaskId, Task>,
    mailbox: map<TaskId, TaskId>,    // one-shots that hold a response: invoke -> Respond task
    // history
    dropped: map<TaskId, Cause>,     // one-shots whose sender is gone
    abandoned: set<TaskId>,          // invokes cancelled since the last registration
    allocations: nat,
    wire: seq<Frame>)                // frames handed to the sink, in order

  datatype Label =
    | Spawn(t: TaskId, kind: Kind)
    | Acquire(t: TaskId)
    | Run(t: TaskId)
    | SendFails(t: TaskId, error: Error)
    | Flushed(t: TaskId)
    | TakeReply(t: TaskId)
    | SeeSenderGone(t: TaskId)
    | TimeOut(t: TaskId)
    | Cancel(t: TaskId)

  const INIT := Mux(1, map[], false, map[], map[], map[], map[], {}, 0, [])

  // ---- Locks ----

  datatype Lock = SendOrder | StateLock | SinkLock

  function LockOf(section: Section): Lock {
    match section
    case Order => SendOrder
    case Feed | Take | Install => SinkLock
    case _ => StateLock
  }

  /** The lock order: `send_order` first, then one of the two inner locks. */
  function Rank(lock: Lock): nat {
    if lock == SendOrder then 0 else 1
  }

  // ---- The one-shot channel of an invoke ----

  predicate Unfinished(task: Task) {
    !task.phase.Finished? && !task.phase.Cancelled?
  }

  /** Where an invoke stands, in the order of `invoke`, `register_and_send` and
      `await_response`; UNDOING is the clean-up of the second, CLEANING of the third. */
  const NUMBERING := 0
  const REGISTERING := 1
  const SENDING := 2
  const FLUSHING := 3
  const UNDOING := 4
  const LISTENING := 5
  const CLEANING := 6
  const OVER := 7
  const NOT_AN_INVOKE := -1

  function SectionStage(section: Section): int {
    match section
    case Order | Alloc => NUMBERING
    case Register => REGISTERING
    case Feed => SENDING
    case Undo(_) => UNDOING
    case Cleanup(_) => CLEANING
    case _ => NOT_AN_INVOKE
  }

  function Stage(task: Task): int {
    if !task.kind.Invoke? then NOT_AN_INVOKE
    else match task.phase
      case Want(x) => SectionStage(x)
      case In(x) => SectionStage(x)
      case Flushing => FLUSHING
      case Awaiting => LISTENING
      case _ => OVER
  }

  /** Its sender has been put in `pending`, and the call has not returned yet. */
  predicate Registered(task: Task) {
    SENDING <= Stage(task) <= CLEANING
  }

  /** The receiver half still exists: `is_closed()` on the sender is false. It is
      dropped as soon as `timeout(..).await` completes, before the clean-up. */
  predicate ReceiverAlive(task: Task) {
    SENDING <= Stage(task) <= LISTENING
  }

  /** The locks a future holds, read off its program point. */
  predicate Holds(task: Task, lock: Lock) {
    match lock
    case SendOrder => NUMBERING <= Stage(task) <= UNDOING && task.phase != Want(Order)
    case _ => (task.phase.In? && LockOf(task.phase.section) == lock) || (task.phase.Flushing? && lock == SinkLock)
  }

  function OpenWaiters(s: Mux): set<TaskId> {
    set t | t in s.tasks && ReceiverAlive(s.tasks[t])
  }

  // ---- Operations on the waiter table, shared with the class `TransportState` ----

  /** `pending.retain(|_, waiter| !waiter.is_closed())` */
  function Retained(pending: map<SeqNo, TaskId>, open: set<TaskId>): map<SeqNo, TaskId> {
    map q | q in pending && pending[q] in open :: pending[q]
  }

  function Removed(pending: map<SeqNo, TaskId>, seqNo: SeqNo): map<SeqNo, TaskId> {
    pending - {seqNo}
  }

  function NextSeq(seqNo: SeqNo): SeqNo {
    (seqNo + 1) % SEQ_MODULUS
  }

  // ---- Steps ----

  function At(s: Mux, t: TaskId, phase: Phase): Mux
    requires t in s.tasks
  {
    s.(tasks := s.tasks[t := s.tasks[t].(phase := phase)])
  }

  function StartOf(kind: Kind): Section {
    match kind
    case Invoke(_, _, _) => Order
    case Ack(_) => Feed
    case Respond(_) => Deliver
    case Close => Clear
    case Connect => Install
  }

  function LocksOf(s: Mux, t: TaskId): set<Lock> {
    set lock | lock in s.locks && s.locks[lock] == t
  }

  /** A write failed or was refused; an invoke goes on to remove its waiter. */
  function AfterSendFailure(s: Mux, t: TaskId, error: Error): Mux
    requires t in s.tasks
  {
    At(s, t, if s.tasks[t].kind.Invoke? then Want(Undo(error)) else Finished(Failed(error))).(
      locks := s.locks - {SinkLock})
  }

  function Allocate(s: Mux, t: TaskId): Mux
    requires t in s.tasks
  {
    var task := s.tasks[t].(seqNo := s.nextSeq, ticket := Some(s.allocations), phase := Want(Register));
    s.(tasks := s.tasks[t := task], nextSeq := NextSeq(s.nextSeq), allocations := s.allocations + 1,
      locks := s.locks - {StateLock})
  }

  function RegisterWaiter(s: Mux, t: TaskId): Mux
    requires t in s.tasks
  {
    var seqNo := s.tasks[t].seqNo;
    var kept := Retained(s.pending, OpenWaiters(s));
    var pruned := map u | u in s.pending.Values && u !in kept.Values :: ByPrune(t);
    var s1 := s.(dropped := s.dropped + pruned, abandoned := {}, locks := s.locks - {StateLock});
    if seqNo in kept then
      At(s1, t, Finished(Failed(DuplicateSequence(seqNo)))).(pending := kept, locks := s.locks - {StateLock, SendOrder})
    else
      At(s1, t, Want(Feed)).(pending := kept[seqNo := t])
  }

  function RemoveWaiter(s: Mux, t: TaskId, error: Error): Mux
    requires t in s.tasks
  {
    var seqNo := s.tasks[t].seqNo;
    var s1 := At(s, t, Finished(Failed(error))).(
              pending := Removed(s.pending, seqNo),
              locks := s.locks - LocksOf(s, t));
    if seqNo in s.pending then s1.(dropped := s.dropped[s.pending[seqNo] := ByRemoval(t)]) else s1
  }

  /** `receive_response`: only the sequence number is looked at. */
  function DeliverResponse(s: Mux, t: TaskId, packet: Packet): Mux
    requires t in s.tasks && (packet.seqNo in s.pending ==> s.pending[packet.seqNo] in s.tasks)
  {
    var s1 := At(s, t, Finished(Returned)).(locks := s.locks - {StateLock},
                                            pending := Removed(s.pending, packet.seqNo));
    if packet.seqNo !in s.pending then s1
    else
      var u := s.pending[packet.seqNo];
      if ReceiverAlive(s.tasks[u]) then s1.(mailbox := s.mailbox[u := t])
      else s1.(dropped := s.dropped[u := Undelivered(t)])
  }

  function ClearWaiters(s: Mux, t: TaskId): Mux
    requires t in s.tasks
  {
    var closed := map u | u in s.pending.Values :: ByClose(t);
    At(s, t, Want(Take)).(pending := map[], dropped := s.dropped + closed, locks := s.locks - {StateLock})
  }

  /** The frame `send` writes for this future. */
  function PacketOf(task: Task): Packet
    requires task.kind.Invoke? || task.kind.Ack?
  {
    if task.kind.Invoke? then Request(task.seqNo, task.kind.opcode, task.kind.payload) else task.kind.packet
  }

  /** The opcode a timeout of its write reports. */
  function OpcodeOf(task: Task): int {
    match task.kind
    case Invoke(opcode, _, _) => opcode
    case Ack(packet) => packet.opcode
    case _ => 0
  }

  function FeedFrame(s: Mux, t: TaskId): Mux
    requires t in s.tasks && (s.tasks[t].kind.Invoke? || s.tasks[t].kind.Ack?)
  {
    if !s.sinkOpen then AfterSendFailure(s, t, ConnectionClosed)
    else At(s, t, Flushing).(wire := s.wire + [Frame(t, PacketOf(s.tasks[t]))])
  }

  predicate Enabled(s: Mux, l: Label) {
    if l.Spawn? then
      l.t !in s.tasks && (l.kind.Ack? ==> l.kind.packet.cmd == CMD_RESPONSE)
    else
      l.t in s.tasks &&
      var task := s.tasks[l.t];
      match l {
        case Acquire(t) => task.phase.Want? && LockOf(task.phase.section) !in s.locks
        case Run(t) => task.phase.In?
        case SendFails(t, error) =>
          IsSendError(error) && !error.ConnectionClosed? && (error.Timeout? ==> error.opcode == OpcodeOf(task)) &&
          (task.phase.Flushing? || (task.phase == In(Feed) && s.sinkOpen))
        case Flushed(t) => task.phase.Flushing?
        case TakeReply(t) => task.phase.Awaiting? && t in s.mailbox
        case SeeSenderGone(t) => task.phase.Awaiting? && t in s.dropped
        case TimeOut(t) => task.phase.Awaiting?
        case Cancel(t) => Unfinished(task)
        case _ => false
      }
  }

  function RunSection(s: Mux, t: TaskId, section: Section): Mux
    requires t in s.tasks && WellFormed(s) && FitsKind(s.tasks[t].kind, section)
  {
    match section
    case Order => At(s, t, Want(Alloc))
    case Alloc => Allocate(s, t)
    case Register => RegisterWaiter(s, t)
    case Undo(error) => RemoveWaiter(s, t, error)
    case Cleanup(error) => RemoveWaiter(s, t, error)
    case Feed => FeedFrame(s, t)
    case Deliver => DeliverResponse(s, t, s.tasks[t].kind.packet)
    case Clear => ClearWaiters(s, t)
    case Take => At(s, t, Finished(Returned)).(sinkOpen := false, locks := s.locks - {SinkLock})
    case Install => At(s, t, Finished(Returned)).(sinkOpen := true, locks := s.locks - {SinkLock})
  }

  /** Acquiring `send_order` has no section of its own: the guard is simply kept. */
  function AfterAcquire(section: Section): Phase {
    if section.Order? then Want(Alloc) else In(section)
  }

  function AfterReply(opcode: int, packet: Packet): Outcome {
    if packet.cmd == CMD_ERROR then Failed(Server(opcode)) else Replied(packet)
  }

  function Apply(s: Mux, l: Label): Mux
    requires WellFormed(s) && Enabled(s, l)
  {
    assert l.t in s.tasks ==> Fits(s, l.t);
    match l
    case Spawn(t, kind) => s.(tasks := s.tasks[t := Task(kind, Want(StartOf(kind)), 0, None)])
    case Acquire(t) =>
      var section := s.tasks[t].phase.section;
      At(s, t, AfterAcquire(section)).(locks := s.locks[LockOf(section) := t])
    case Run(t) => RunSection(s, t, s.tasks[t].phase.section)
    case SendFails(t, error) => AfterSendFailure(s, t, error)
    case Flushed(t) =>
      if s.tasks[t].kind.Invoke? then At(s, t, Awaiting).(locks := s.locks - {SinkLock, SendOrder})
      else At(s, t, Finished(Returned)).(locks := s.locks - {SinkLock})
    case TakeReply(t) => At(s, t, Finished(AfterReply(s.tasks[t].kind.opcode, s.tasks[s.mailbox[t]].kind.packet)))
    case SeeSenderGone(t) => At(s, t, Want(Cleanup(ConnectionClosed)))
    case TimeOut(t) => At(s, t, Want(Cleanup(Timeout(s.tasks[t].kind.opcode))))
    case Cancel(t) =>
      At(s, t, Cancelled).(
        locks := s.locks - LocksOf(s, t),
        abandoned := if s.tasks[t].kind.Invoke? then s.abandoned + {t} else s.abandoned)
  }

  /** What `send` can return: the sink is gone, the socket failed, or the write timed out. */
  predicate IsSendError(error: Error) {
    error.ConnectionClosed? || error.WebSocket? || error.Timeout?
  }

  /** Which program points each kind of future has. */
  predicate FitsKind(kind: Kind, section: Section) {
    match kind
    case Invoke(_, _, _) =>
      match section {
        case Order | Alloc | Register | Feed => true
        case Undo(error) => IsSendError(error)
        case Cleanup(error) => error.ConnectionClosed? || error.Timeout?
        case _ => false
      }
    case Ack(_) => section.Feed?
    case Respond(_) => section.Deliver?
    case Close => section.Clear? || section.Take?
    case Connect => section.Install?
  }

  predicate FitsPhase(kind: Kind, phase: Phase) {
    match phase
    case Want(x) => FitsKind(kind, x)
    case In(x) => FitsKind(kind, x) && !x.Order?
    case Flushing => kind.Invoke? || kind.Ack?
    case Awaiting => kind.Invoke?
    case _ => true
  }

  predicate Fits(s: Mux, t: TaskId)
    requires t in s.tasks
  {
    FitsPhase(s.tasks[t].kind, s.tasks[t].phase)
  }

  /** What keeps every step well defined. */
  ghost predicate WellFormed(s: Mux) {
    && (forall t {:trigger Fits(s, t)} | t in s.tasks :: Fits(s, t))
    && (forall q {:trigger s.pending[q]} | q in s.pending :: s.pending[q] in s.tasks)
    && (forall t {:trigger s.mailbox[t]} | t in s.mailbox ::
          s.mailbox[t] in s.tasks && s.tasks[s.mailbox[t]].kind.Respond?)
  }
}
