/** The invariant of the multiplexer, and its preservation by every step. */
module TransportInvariant {
  import opened Protocol
  import opened Transport

  // ---- Locks ----

  /** The mutexes agree with the program points: at most one future is inside each. */
  predicate LockOk(s: Mux, lock: Lock) {
    lock in s.locks ==> s.locks[lock] in s.tasks && Holds(s.tasks[s.locks[lock]], lock)
  }

  predicate HolderOk(s: Mux, t: TaskId, lock: Lock)
    requires t in s.tasks
  {
    Holds(s.tasks[t], lock) ==> lock in s.locks && s.locks[lock] == t
  }

  ghost predicate LockInv(s: Mux) {
    && (forall lock {:trigger LockOk(s, lock)} :: LockOk(s, lock))
    && (forall t, lock {:trigger HolderOk(s, t, lock)} | t in s.tasks :: HolderOk(s, t, lock))
  }

  // ---- Sequence numbers ----

  /** The number handed to the allocation with this ticket: 1, 2, 3, ... wrapping. */
  function SeqOf(ticket: nat): SeqNo {
    if ticket == 0 then 1 else NextSeq(SeqOf(ticket - 1))
  }

  lemma {:induction false} SeqOfWraps(ticket: nat)
    ensures SeqOf(ticket) == (1 + ticket) % SEQ_MODULUS
  {
    if ticket > 0 {
      SeqOfWraps(ticket - 1);
    }
  }

  /** Two allocations get the same number only when a whole turn of the counter separates them. */
  lemma SameNumberIsOneTurnApart(a: nat, b: nat)
    requires a < b && SeqOf(a) == SeqOf(b)
    ensures a + SEQ_MODULUS <= b
  {
    SeqOfWraps(a);
    SeqOfWraps(b);
    Turn(1 + a, 1 + b);
  }

  lemma Turn(a: nat, b: nat)
    requires a < b && a % SEQ_MODULUS == b % SEQ_MODULUS
    ensures a + SEQ_MODULUS <= b
  {
  }

  /** Has taken a number from `next_seq` and has not returned. */
  predicate MustHaveTicket(task: Task) {
    REGISTERING <= Stage(task) <= CLEANING
  }

  /** Owns `send_order`, and its frame has not reached the sink. */
  predicate BeforeWire(task: Task) {
    REGISTERING <= Stage(task) <= SENDING
  }

  predicate TicketOk(s: Mux, t: TaskId)
    requires t in s.tasks
  {
    var task := s.tasks[t];
    && (task.ticket.Some? ==> task.ticket.value < s.allocations && task.seqNo == SeqOf(task.ticket.value))
    && (MustHaveTicket(task) ==> task.ticket.Some?)
    && (BeforeWire(task) ==> task.ticket == Some(s.allocations - 1))
  }

  predicate TicketsDiffer(s: Mux, t: TaskId, u: TaskId)
    requires t in s.tasks && u in s.tasks
  {
    t != u && s.tasks[t].ticket.Some? ==> s.tasks[t].ticket != s.tasks[u].ticket
  }

  ghost predicate SeqInv(s: Mux) {
    && s.nextSeq == SeqOf(s.allocations)
    && (forall t {:trigger TicketOk(s, t)} | t in s.tasks :: TicketOk(s, t))
    && (forall t, u {:trigger TicketsDiffer(s, t, u)} | t in s.tasks && u in s.tasks :: TicketsDiffer(s, t, u))
  }

  // ---- One-shot channels ----

  /** The sender half of t's one-shot is in `pending`, under t's own number. */
  predicate SenderWaits(s: Mux, t: TaskId) {
    t in s.tasks && s.tasks[t].seqNo in s.pending && s.pending[s.tasks[t].seqNo] == t
  }

  /** Entry q belongs to a call that listens or cleans up, or to one cancelled since
      the last registration; its one-shot is neither filled nor closed. */
  predicate WaiterOk(s: Mux, q: SeqNo)
    requires q in s.pending
  {
    var t := s.pending[q];
    && t in s.tasks && s.tasks[t].seqNo == q && s.tasks[t].ticket.Some?
    && t !in s.mailbox && t !in s.dropped
    && (Registered(s.tasks[t]) || t in s.abandoned)
  }

  predicate AbandonedOk(s: Mux, t: TaskId) {
    t in s.tasks && s.tasks[t].kind.Invoke? && s.tasks[t].phase.Cancelled?
  }

  ghost predicate PendingInv(s: Mux) {
    && (forall q {:trigger WaiterOk(s, q)} | q in s.pending :: WaiterOk(s, q))
    && (forall t {:trigger AbandonedOk(s, t)} | t in s.abandoned :: AbandonedOk(s, t))
  }

  predicate MailOk(s: Mux, t: TaskId)
    requires t in s.mailbox
  {
    var r := s.mailbox[t];
    && t in s.tasks && s.tasks[t].ticket.Some? && Stage(s.tasks[t]) >= SENDING && t !in s.dropped
    && r in s.tasks && s.tasks[r].kind.Respond? && s.tasks[r].phase.Finished?
    && s.tasks[r].kind.packet.seqNo == s.tasks[t].seqNo
  }

  /** A response reaches at most one caller. */
  predicate MailDiffers(s: Mux, t: TaskId, u: TaskId)
    requires t in s.mailbox && u in s.mailbox
  {
    t != u ==> s.mailbox[t] != s.mailbox[u]
  }

  ghost predicate MailInv(s: Mux) {
    && (forall t {:trigger MailOk(s, t)} | t in s.mailbox :: MailOk(s, t))
    && (forall t, u {:trigger MailDiffers(s, t, u)} | t in s.mailbox && u in s.mailbox :: MailDiffers(s, t, u))
  }

  /** How a one-shot can have lost its sender; a caller that still listens lost it
      to `close`, or to a clean-up a whole turn of the counter away. */
  predicate DropOk(s: Mux, t: TaskId)
    requires t in s.dropped
  {
    && t in s.tasks && s.tasks[t].ticket.Some? && Stage(s.tasks[t]) >= SENDING
    && match s.dropped[t]
       case ByClose(u) => u in s.tasks && s.tasks[u].kind.Close?
       case ByPrune(u) => !ReceiverAlive(s.tasks[t])
       case Undelivered(u) => !ReceiverAlive(s.tasks[t])
       case ByRemoval(u) =>
         u in s.tasks && s.tasks[u].ticket.Some? && s.tasks[u].phase.Finished? &&
         if u == t then !Unfinished(s.tasks[t]) else s.tasks[u].ticket.value + SEQ_MODULUS <= s.tasks[t].ticket.value
  }

  ghost predicate DropInv(s: Mux) {
    forall t {:trigger DropOk(s, t)} | t in s.dropped :: DropOk(s, t)
  }

  /** A registered invoke can be woken: its sender waits, or it has a reply, or the sender is gone. */
  predicate CanBeWoken(s: Mux, t: TaskId)
    requires t in s.tasks
  {
    Registered(s.tasks[t]) ==> SenderWaits(s, t) || t in s.mailbox || t in s.dropped
  }

  ghost predicate ReachInv(s: Mux) {
    forall t {:trigger CanBeWoken(s, t)} | t in s.tasks :: CanBeWoken(s, t)
  }

  /** If t's number is filed for another call, that call allocated it later. */
  predicate ReusedLater(s: Mux, t: TaskId)
    requires t in s.tasks
  {
    Registered(s.tasks[t]) && s.tasks[t].seqNo in s.pending && s.pending[s.tasks[t].seqNo] != t ==>
      var u := s.pending[s.tasks[t].seqNo];
      u in s.tasks && s.tasks[u].ticket.Some? && s.tasks[t].ticket.Some? &&
        s.tasks[t].ticket.value < s.tasks[u].ticket.value
  }

  ghost predicate ReuseInv(s: Mux) {
    forall t {:trigger ReusedLater(s, t)} | t in s.tasks :: ReusedLater(s, t)
  }

  // ---- Results and the wire ----

  ghost predicate OnWire(s: Mux, t: TaskId) {
    exists i :: 0 <= i < |s.wire| && s.wire[i].from == t
  }

  predicate HasFed(task: Task) {
    Stage(task) == FLUSHING || Stage(task) == LISTENING || Stage(task) == CLEANING
  }

  predicate RefusedAsDuplicate(task: Task) {
    task.kind.Invoke? && task.phase.Finished? && task.phase.outcome.Failed? &&
      task.phase.outcome.error.DuplicateSequence?
  }

  predicate Answered(task: Task) {
    task.phase.Finished? && task.phase.outcome.Replied?
  }

  ghost predicate ResultOk(s: Mux, t: TaskId)
    requires t in s.tasks
  {
    && (HasFed(s.tasks[t]) ==> OnWire(s, t))
    && (Answered(s.tasks[t]) ==>
          t in s.mailbox && s.mailbox[t] in s.tasks &&
            s.tasks[s.mailbox[t]].kind == Respond(s.tasks[t].phase.outcome.packet) &&
          s.tasks[t].phase.outcome.packet.cmd != CMD_ERROR && OnWire(s, t))
    && (s.tasks[t].kind.Ack? ==> s.tasks[t].kind.packet.cmd == CMD_RESPONSE)
  }

  ghost predicate ResultInv(s: Mux) {
    forall t {:trigger ResultOk(s, t)} | t in s.tasks :: ResultOk(s, t)
  }

  predicate FrameOk(s: Mux, i: nat)
    requires i < |s.wire|
  {
    var f := s.wire[i];
    f.from in s.tasks &&
    var task := s.tasks[f.from];
    if task.kind.Invoke? then
      task.ticket.Some? && Stage(task) > SENDING && f.packet == Request(task.seqNo, task.kind.opcode, task.kind.payload)
    else
      task.kind.Ack? && f.packet == task.kind.packet
  }

  /** Frames of invokes are in allocation order. */
  predicate InOrder(s: Mux, i: nat, j: nat)
    requires i < |s.wire| && j < |s.wire|
  {
    i < j && Numbered(s, i) && Numbered(s, j) ==>
      s.tasks[s.wire[i].from].ticket.value < s.tasks[s.wire[j].from].ticket.value
  }

  predicate Numbered(s: Mux, i: nat) {
    i < |s.wire| && s.wire[i].from in s.tasks &&
      s.tasks[s.wire[i].from].kind.Invoke? && s.tasks[s.wire[i].from].ticket.Some?
  }

  ghost predicate WireInv(s: Mux) {
    && (forall i: nat {:trigger FrameOk(s, i)} | i < |s.wire| :: FrameOk(s, i))
    && (forall i: nat, j: nat {:trigger InOrder(s, i, j)} | i < |s.wire| && j < |s.wire| :: InOrder(s, i, j))
  }

  ghost predicate Inv(s: Mux) {
    && WellFormed(s) && LockInv(s) && SeqInv(s)
    && PendingInv(s) && MailInv(s) && DropInv(s) && ReachInv(s) && ReuseInv(s)
    && ResultInv(s) && WireInv(s)
  }

  lemma InitInv()
    ensures Inv(INIT)
  {
  }

  // ---- Steps that only move one future's program point (and its locks) ----

  predicate SameCall(a: Task, b: Task) {
    a.kind == b.kind && a.seqNo == b.seqNo && a.ticket == b.ticket
  }

  /** Such a step neither registers a waiter nor revives a receiver. */
  predicate Moves(a: Task, b: Task) {
    && Unfinished(a)
    && FitsPhase(b.kind, b.phase)
    && (Stage(b) == OVER || Stage(b) == Stage(a) ||
        (Stage(a) == SENDING && (Stage(b) == FLUSHING || Stage(b) == UNDOING)) ||
        (Stage(a) == FLUSHING && (Stage(b) == UNDOING || Stage(b) == LISTENING)) ||
        (Stage(a) == LISTENING && Stage(b) == CLEANING))
    && (Stage(b) == OVER ==> !Unfinished(b))
  }

  /** t hands its frame to the sink. */
  predicate Feeds(s: Mux, s': Mux, t: TaskId) {
    && t in s.tasks && t in s'.tasks && s.tasks[t].phase == In(Feed) && s'.tasks[t].phase.Flushing?
    && Fits(s, t) && s'.wire == s.wire + [Frame(t, PacketOf(s.tasks[t]))]
  }

  /** Only t moves; the waiter table, the one-shots and the counter stay. */
  ghost predicate PcStep(s: Mux, s': Mux, t: TaskId) {
    && t in s'.tasks && s'.tasks == s.tasks[t := s'.tasks[t]]
    && s'.nextSeq == s.nextSeq && s'.allocations == s.allocations
    && (Feeds(s, s', t) || (s'.wire == s.wire &&
                            (s'.tasks[t].phase.Flushing? ==> t in s.tasks && s.tasks[t].phase.Flushing?)))
    && s'.pending == s.pending && s'.mailbox == s.mailbox && s'.dropped == s.dropped
    && if t in s.tasks then
         && SameCall(s.tasks[t], s'.tasks[t]) && Moves(s.tasks[t], s'.tasks[t])
         && s'.abandoned ==
            (if s'.tasks[t].phase.Cancelled? && s.tasks[t].kind.Invoke? then s.abandoned + {t} else s.abandoned)
         && (s'.tasks[t].phase.Finished? && s.tasks[t].kind.Invoke? ==>
               s.tasks[t].phase.Awaiting? && t in s.mailbox &&
                 s.mailbox[t] in s.tasks && s.tasks[s.mailbox[t]].kind.Respond? &&
               s'.tasks[t].phase.outcome == AfterReply(s.tasks[t].kind.opcode, s.tasks[s.mailbox[t]].kind.packet))
         && (Answered(s'.tasks[t]) ==> s.tasks[t].kind.Invoke?)
       else
         && s'.tasks[t].ticket.None? && s'.abandoned == s.abandoned &&
            s'.tasks[t].phase == Want(StartOf(s'.tasks[t].kind))
         && (s'.tasks[t].kind.Ack? ==> s'.tasks[t].kind.packet.cmd == CMD_RESPONSE)
  }
}
