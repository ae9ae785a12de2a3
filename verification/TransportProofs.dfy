module TransportProofs {
  import opened Protocol
  import opened Transport
  import opened TransportInvariant

  // ---- Steps that only move a program point ----

  predicate PcLabel(s: Mux, l: Label)
    requires Enabled(s, l)
  {
    l.Run? ==>
      var section := s.tasks[l.t].phase.section;
      section.Order? || section.Take? || section.Install? || section.Feed?
  }

  lemma PcSteps(s: Mux, l: Label)
    requires WellFormed(s) && Enabled(s, l) && PcLabel(s, l)
    ensures PcStep(s, Apply(s, l), l.t)
  {
    if !l.Spawn? {
      assert Fits(s, l.t);
    }
    if l.Acquire? {
      PcAcquire(s, l.t);
    } else if l.Run? {
      PcRun(s, l.t);
    } else if l.Spawn? || l.Cancel? {
      PcEnds(s, l);
    } else if l.SendFails? {
      PcSendFailure(s, l.t, l.error);
    } else if l.Flushed? {
      PcFlushed(s, l.t);
    } else {
      PcListens(s, l);
    }
  }

  lemma PcSendFailure(s: Mux, t: TaskId, error: Error)
    requires t in s.tasks && (s.tasks[t].phase == In(Feed) || s.tasks[t].phase.Flushing?) && Fits(s, t) &&
             IsSendError(error)
    ensures PcStep(s, AfterSendFailure(s, t, error), t)
  {
  }

  lemma PcFeed(s: Mux, t: TaskId)
    requires t in s.tasks && s.tasks[t].phase == In(Feed) && s.sinkOpen && Fits(s, t)
    ensures PcStep(s, FeedFrame(s, t), t)
  {
  }

  lemma PcAcquire(s: Mux, t: TaskId)
    requires WellFormed(s) && Enabled(s, Acquire(t)) && Fits(s, t)
    ensures PcStep(s, Apply(s, Acquire(t)), t)
  {
  }

  lemma PcRun(s: Mux, t: TaskId)
    requires WellFormed(s) && Enabled(s, Run(t)) && PcLabel(s, Run(t)) && Fits(s, t)
    ensures PcStep(s, Apply(s, Run(t)), t)
  {
    if s.tasks[t].phase.section.Feed? {
      if s.sinkOpen { PcFeed(s, t); } else { PcSendFailure(s, t, ConnectionClosed); }
    }
  }

  lemma PcEnds(s: Mux, l: Label)
    requires WellFormed(s) && Enabled(s, l) && (l.Spawn? || l.Cancel?)
    ensures PcStep(s, Apply(s, l), l.t)
  {
  }

  lemma PcFlushed(s: Mux, t: TaskId)
    requires WellFormed(s) && Enabled(s, Flushed(t)) && Fits(s, t)
    ensures PcStep(s, Apply(s, Flushed(t)), t)
  {
  }

  lemma PcListens(s: Mux, l: Label)
    requires WellFormed(s) && Enabled(s, l) && (l.TakeReply? || l.SeeSenderGone? || l.TimeOut?) && Fits(s, l.t)
    ensures PcStep(s, Apply(s, l), l.t)
  {
  }

  lemma PcKeepsWellFormed(s: Mux, s': Mux, t: TaskId)
    requires PcStep(s, s', t) && WellFormed(s)
    ensures WellFormed(s')
  {
    forall u | u in s'.tasks ensures Fits(s', u) {
      if u != t { assert Fits(s, u); }
    }
  }

  lemma PcKeepsSeq(s: Mux, s': Mux, t: TaskId)
    requires PcStep(s, s', t) && SeqInv(s)
    ensures SeqInv(s')
  {
    forall u | u in s'.tasks ensures TicketOk(s', u) {
      if u in s.tasks { assert TicketOk(s, u); }
    }
    forall u, v | u in s'.tasks && v in s'.tasks ensures TicketsDiffer(s', u, v) {
      if u in s.tasks && v in s.tasks { assert TicketsDiffer(s, u, v); }
    }
  }

  lemma PcKeepsPending(s: Mux, s': Mux, t: TaskId)
    requires PcStep(s, s', t) && PendingInv(s)
    ensures PendingInv(s')
  {
    forall q | q in s'.pending ensures WaiterOk(s', q) {
      assert WaiterOk(s, q);
    }
    forall u | u in s'.abandoned ensures AbandonedOk(s', u) {
      if u in s.abandoned { assert AbandonedOk(s, u); }
    }
  }

  lemma PcKeepsMail(s: Mux, s': Mux, t: TaskId)
    requires PcStep(s, s', t) && MailInv(s)
    ensures MailInv(s')
  {
    forall u | u in s'.mailbox ensures MailOk(s', u) {
      assert MailOk(s, u);
    }
    forall u, v | u in s'.mailbox && v in s'.mailbox ensures MailDiffers(s', u, v) {
      assert MailDiffers(s, u, v);
    }
  }

  lemma PcKeepsDrop(s: Mux, s': Mux, t: TaskId)
    requires PcStep(s, s', t) && DropInv(s)
    ensures DropInv(s')
  {
    forall u | u in s'.dropped ensures DropOk(s', u) {
      assert DropOk(s, u);
    }
  }

  lemma PcKeepsReach(s: Mux, s': Mux, t: TaskId)
    requires PcStep(s, s', t) && ReachInv(s) && ReuseInv(s) && PendingInv(s)
    ensures ReachInv(s') && ReuseInv(s')
  {
    forall u | u in s'.tasks ensures CanBeWoken(s', u) && ReusedLater(s', u) {
      if u in s.tasks {
        assert CanBeWoken(s, u) && ReusedLater(s, u);
        if s.tasks[u].seqNo in s.pending {
          assert WaiterOk(s, s.tasks[u].seqNo);
        }
      }
    }
  }

  lemma PcKeepsResult(s: Mux, s': Mux, t: TaskId)
    requires PcStep(s, s', t) && ResultInv(s)
    ensures ResultInv(s')
  {
    assert Feeds(s, s', t) ==> s'.wire[|s.wire|].from == t;
    forall u | u in s'.tasks ensures ResultOk(s', u) {
      if u in s.tasks {
        assert ResultOk(s, u);
        WireGrows(s, s', u);
      }
    }
  }

  lemma WireGrows(s: Mux, s': Mux, u: TaskId)
    requires s.wire <= s'.wire
    ensures OnWire(s, u) ==> OnWire(s', u)
  {
    if OnWire(s, u) {
      var i :| 0 <= i < |s.wire| && s.wire[i].from == u;
      assert s'.wire[i].from == u;
    }
  }

  lemma PcKeepsWire(s: Mux, s': Mux, t: TaskId)
    requires PcStep(s, s', t) && WireInv(s) && SeqInv(s)
    ensures WireInv(s')
  {
    assert t in s.tasks ==> TicketOk(s, t);
    forall i: nat | i < |s'.wire| ensures FrameOk(s', i) {
      assert i < |s.wire| ==> FrameOk(s, i);
    }
    forall i: nat, j: nat | i < |s'.wire| && j < |s'.wire| ensures InOrder(s', i, j) {
      if i < |s.wire| {
        assert FrameOk(s, i) && TicketOk(s, s.wire[i].from);
        if j < |s.wire| {
          assert InOrder(s, i, j) && FrameOk(s, j);
        } else {
          assert TicketsDiffer(s, s.wire[i].from, t);
        }
      }
    }
  }

  // ---- Taking a sequence number ----

  ghost predicate Running(s: Mux, t: TaskId, section: Section) {
    t in s.tasks && s.tasks[t].phase == In(section) && Fits(s, t)
  }

  /** Only the owner of `send_order` can be between allocation and the sink. */
  lemma OneSender(s: Mux, t: TaskId, u: TaskId)
    requires LockInv(s) && t in s.tasks && u in s.tasks
    requires Holds(s.tasks[t], SendOrder) && Holds(s.tasks[u], SendOrder)
    ensures t == u
  {
    assert HolderOk(s, t, SendOrder) && HolderOk(s, u, SendOrder);
  }

  lemma AllocKeepsSeq(s: Mux, t: TaskId)
    requires SeqInv(s) && LockInv(s) && Running(s, t, Alloc)
    ensures SeqInv(Allocate(s, t))
  {
    var s' := Allocate(s, t);
    assert TicketOk(s, t);
    forall u | u in s'.tasks ensures TicketOk(s', u) {
      assert TicketOk(s, u);
      if u != t && BeforeWire(s.tasks[u]) { OneSender(s, t, u); }
    }
    forall u, v | u in s'.tasks && v in s'.tasks ensures TicketsDiffer(s', u, v) {
      assert TicketsDiffer(s, u, v) && TicketOk(s, u) && TicketOk(s, v);
    }
  }

  lemma AllocKeepsOneShots(s: Mux, t: TaskId)
    requires PendingInv(s) && MailInv(s) && DropInv(s) && Running(s, t, Alloc)
    ensures PendingInv(Allocate(s, t)) && MailInv(Allocate(s, t)) && DropInv(Allocate(s, t))
  {
    var s' := Allocate(s, t);
    assert t in s.abandoned ==> AbandonedOk(s, t);
    forall q | q in s'.pending ensures WaiterOk(s', q) { assert WaiterOk(s, q); }
    forall u | u in s'.abandoned ensures AbandonedOk(s', u) { assert AbandonedOk(s, u); }
    forall u | u in s'.mailbox ensures MailOk(s', u) { assert MailOk(s, u); }
    forall u, v | u in s'.mailbox && v in s'.mailbox ensures MailDiffers(s', u, v) { assert MailDiffers(s, u, v); }
    forall u | u in s'.dropped ensures DropOk(s', u) {
      assert DropOk(s, u);
    }
  }

  lemma AllocKeepsReach(s: Mux, t: TaskId)
    requires ReachInv(s) && ReuseInv(s) && PendingInv(s) && Running(s, t, Alloc)
    ensures ReachInv(Allocate(s, t)) && ReuseInv(Allocate(s, t))
  {
    var s' := Allocate(s, t);
    assert t in s.abandoned ==> AbandonedOk(s, t);
    forall u | u in s'.tasks ensures CanBeWoken(s', u) && ReusedLater(s', u) {
      assert CanBeWoken(s, u) && ReusedLater(s, u);
      if s.tasks[u].seqNo in s.pending { assert WaiterOk(s, s.tasks[u].seqNo); }
    }
  }

  lemma AllocKeepsResult(s: Mux, t: TaskId)
    requires ResultInv(s) && WireInv(s) && Running(s, t, Alloc)
    ensures ResultInv(Allocate(s, t)) && WireInv(Allocate(s, t))
  {
    var s' := Allocate(s, t);
    forall u | u in s'.tasks ensures ResultOk(s', u) { assert ResultOk(s, u); }
    forall i: nat | i < |s'.wire| ensures FrameOk(s', i) { assert FrameOk(s, i); }
    forall i: nat, j: nat | i < |s'.wire| && j < |s'.wire| ensures InOrder(s', i, j) {
      assert InOrder(s, i, j) && FrameOk(s, i) && FrameOk(s, j);
    }
  }

  // ---- Steps on the waiter table: register, remove, deliver, clear ----

  predicate Kept(s: Mux, s': Mux, q: SeqNo) {
    q in s.pending && q in s'.pending && s'.pending[q] == s.pending[q]
  }

  /** t has just been registered, possibly over a pruned entry. */
  predicate Fresh(s: Mux, s': Mux, t: TaskId, q: SeqNo) {
    && t in s.tasks && t in s'.tasks && q == s.tasks[t].seqNo && q in s'.pending && s'.pending[q] == t
    && Stage(s.tasks[t]) == REGISTERING && Stage(s'.tasks[t]) == SENDING
    && (q in s.pending ==> s.pending[q] in s.tasks && !ReceiverAlive(s.tasks[s.pending[q]]))
  }

  predicate EntryOk(s: Mux, s': Mux, t: TaskId, q: SeqNo)
    requires q in s'.pending
  {
    || (Kept(s, s', q) && s'.pending[q] != t &&
        (s'.abandoned == s.abandoned || (s'.pending[q] in s.tasks && Registered(s.tasks[s'.pending[q]]))))
    || Fresh(s, s', t, q)
  }

  /** An entry that leaves the table has its one-shot filled or closed. */
  predicate Settled(s: Mux, s': Mux, q: SeqNo)
    requires q in s.pending
  {
    Kept(s, s', q) || s.pending[q] in s'.mailbox || s.pending[q] in s'.dropped
  }

  predicate Evicted(s: Mux, s': Mux, u: TaskId) {
    SenderWaits(s, u) && !Kept(s, s', s.tasks[u].seqNo)
  }

  predicate NewMail(s: Mux, s': Mux, t: TaskId, u: TaskId)
    requires u in s'.mailbox
  {
    if u in s.mailbox then s'.mailbox[u] == s.mailbox[u]
    else
      && Evicted(s, s', u) && ReceiverAlive(s.tasks[u]) && s'.mailbox[u] == t && u != t && u !in s'.dropped
      && t in s.tasks && t in s'.tasks && s.tasks[t].kind.Respond? &&
         Unfinished(s.tasks[t]) && s'.tasks[t].phase.Finished?
      && s.tasks[t].kind.packet.seqNo == s.tasks[u].seqNo
  }

  predicate NewDrop(s: Mux, s': Mux, t: TaskId, u: TaskId)
    requires u in s'.dropped
  {
    if u in s.dropped then s'.dropped[u] == s.dropped[u]
    else
      && Evicted(s, s', u) && t in s.tasks && t in s'.tasks
      && match s'.dropped[u]
         case ByClose(v) => v == t && s.tasks[t].kind.Close?
         case ByPrune(v) => !ReceiverAlive(s.tasks[u])
         case Undelivered(v) => !ReceiverAlive(s.tasks[u])
         case ByRemoval(v) =>
           v == t && Registered(s.tasks[t]) && s.tasks[u].seqNo == s.tasks[t].seqNo && s'.tasks[t].phase.Finished?
  }

  /** Only t moves: it registers, returns, or is not an invoke at all. */
  predicate TableFrame(s: Mux, s': Mux, t: TaskId) {
    && t in s.tasks && t in s'.tasks && s'.tasks == s.tasks[t := s'.tasks[t]]
    && SameCall(s.tasks[t], s'.tasks[t]) && FitsPhase(s'.tasks[t].kind, s'.tasks[t].phase) && s.tasks[t].phase.In?
    && (s'.tasks[t].phase.Finished? || s'.tasks[t].phase == Want(Take) ||
        (s.tasks[t].phase == In(Register) && s'.tasks[t].phase == Want(Feed)))
    && !Answered(s'.tasks[t]) && s.tasks[t].kind.Ack? == false
    && (Stage(s'.tasks[t]) == OVER ==> s'.tasks[t].phase.Finished?)
    && (Stage(s'.tasks[t]) == OVER || Stage(s'.tasks[t]) == NOT_AN_INVOKE ||
        (Stage(s.tasks[t]) == REGISTERING && Stage(s'.tasks[t]) == SENDING && Fresh(s, s', t, s.tasks[t].seqNo)))
    && s'.nextSeq == s.nextSeq && s'.allocations == s.allocations && s'.wire == s.wire
    && s'.abandoned <= s.abandoned
    && (RefusedAsDuplicate(s'.tasks[t]) ==> s.tasks[t].phase == In(Register))
    && s.mailbox.Keys <= s'.mailbox.Keys && s.dropped.Keys <= s'.dropped.Keys
  }

  ghost predicate TableStep(s: Mux, s': Mux, t: TaskId) {
    && TableFrame(s, s', t)
    && (forall q {:trigger EntryOk(s, s', t, q)} | q in s'.pending :: EntryOk(s, s', t, q))
    && (forall q {:trigger Settled(s, s', q)} | q in s.pending :: Settled(s, s', q))
    && (forall u {:trigger NewMail(s, s', t, u)} | u in s'.mailbox :: NewMail(s, s', t, u))
    && (forall u {:trigger NewDrop(s, s', t, u)} | u in s'.dropped :: NewDrop(s, s', t, u))
  }

  lemma TableKeepsSeq(s: Mux, s': Mux, t: TaskId)
    requires TableStep(s, s', t) && SeqInv(s)
    ensures SeqInv(s')
  {
    forall u | u in s'.tasks ensures TicketOk(s', u) { assert TicketOk(s, u); }
    forall u, v | u in s'.tasks && v in s'.tasks ensures TicketsDiffer(s', u, v) { assert TicketsDiffer(s, u, v); }
  }

  lemma TableKeepsPending(s: Mux, s': Mux, t: TaskId)
    requires TableStep(s, s', t) && PendingInv(s) && SeqInv(s) && MailInv(s) && DropInv(s)
    ensures PendingInv(s')
  {
    assert TicketOk(s, t);
    forall q | q in s'.pending ensures WaiterOk(s', q) {
      var u := s'.pending[q];
      assert u in s.mailbox ==> MailOk(s, u);
      assert u in s.dropped ==> DropOk(s, u);
      assert u in s'.mailbox ==> NewMail(s, s', t, u);
      assert u in s'.dropped ==> NewDrop(s, s', t, u);
      assert q in s.pending ==> WaiterOk(s, q);
      assert EntryOk(s, s', t, q);
    }
    forall u | u in s'.abandoned ensures AbandonedOk(s', u) { assert AbandonedOk(s, u); }
  }

  lemma TableKeepsMail(s: Mux, s': Mux, t: TaskId)
    requires TableStep(s, s', t) && PendingInv(s) && MailInv(s)
    ensures MailInv(s')
  {
    forall u | u in s'.mailbox ensures MailOk(s', u) {
      assert NewMail(s, s', t, u);
      assert u in s.mailbox ==> MailOk(s, u);
      assert u in s'.dropped ==> NewDrop(s, s', t, u);
      assert SenderWaits(s, u) ==> WaiterOk(s, s.tasks[u].seqNo);
    }
    forall u, v | u in s'.mailbox && v in s'.mailbox ensures MailDiffers(s', u, v) {
      assert NewMail(s, s', t, u) && NewMail(s, s', t, v);
      assert u in s.mailbox ==> MailOk(s, u);
      assert v in s.mailbox ==> MailOk(s, v);
      assert u in s.mailbox && v in s.mailbox ==> MailDiffers(s, u, v);
    }
  }

  lemma TableKeepsDrop(s: Mux, s': Mux, t: TaskId)
    requires TableStep(s, s', t) && PendingInv(s) && DropInv(s) && ReuseInv(s) && SeqInv(s)
    ensures DropInv(s')
  {
    forall u | u in s'.dropped ensures DropOk(s', u) {
      assert NewDrop(s, s', t, u);
      assert u in s.dropped ==> DropOk(s, u);
      if u !in s.dropped {
        assert WaiterOk(s, s.tasks[u].seqNo) && TicketOk(s, u) && TicketOk(s, t) && ReusedLater(s, t);
        assert u in s.abandoned ==> AbandonedOk(s, u);
        if s'.dropped[u] == ByRemoval(t) && u != t {
          SameNumberIsOneTurnApart(s.tasks[t].ticket.value, s.tasks[u].ticket.value);
        }
      }
    }
  }

  lemma TableKeepsReach(s: Mux, s': Mux, t: TaskId)
    requires TableStep(s, s', t) && ReachInv(s) && ReuseInv(s) && PendingInv(s) && SeqInv(s)
    ensures ReachInv(s') && ReuseInv(s')
  {
    assert TicketOk(s, t);
    forall u | u in s'.tasks ensures CanBeWoken(s', u) && ReusedLater(s', u) {
      var q := s.tasks[u].seqNo;
      assert CanBeWoken(s, u) && ReusedLater(s, u) && TicketOk(s, u) && TicketsDiffer(s, u, t);
      assert q in s.pending ==> WaiterOk(s, q) && Settled(s, s', q);
      assert q in s'.pending ==> EntryOk(s, s', t, q);
    }
  }

  lemma TableKeepsResult(s: Mux, s': Mux, t: TaskId)
    requires TableStep(s, s', t) && ResultInv(s) && WireInv(s)
    ensures ResultInv(s') && WireInv(s')
  {
    forall u | u in s'.tasks ensures ResultOk(s', u) {
      assert ResultOk(s, u);
      assert u in s.mailbox ==> NewMail(s, s', t, u);
    }
    forall i: nat | i < |s'.wire| ensures FrameOk(s', i) { assert FrameOk(s, i); }
    forall i: nat, j: nat | i < |s'.wire| && j < |s'.wire| ensures InOrder(s', i, j) {
      assert InOrder(s, i, j) && FrameOk(s, i) && FrameOk(s, j);
    }
  }

  lemma TableKeepsWellFormed(s: Mux, s': Mux, t: TaskId)
    requires TableStep(s, s', t) && WellFormed(s)
    ensures WellFormed(s')
  {
    forall u | u in s'.tasks ensures Fits(s', u) {
      assert Fits(s, u);
    }
    forall q | q in s'.pending ensures s'.pending[q] in s'.tasks {
      assert EntryOk(s, s', t, q);
    }
    forall u | u in s'.mailbox ensures s'.mailbox[u] in s'.tasks && s'.tasks[s'.mailbox[u]].kind.Respond? {
      assert NewMail(s, s', t, u);
    }
  }

  lemma OwnedEntry(s: Mux, u: TaskId)
    requires PendingInv(s) && u in s.pending.Values
    ensures SenderWaits(s, u) && u !in s.mailbox && u !in s.dropped
  {
    var q :| q in s.pending && s.pending[q] == u;
    assert WaiterOk(s, q);
  }

  lemma RegisterIsTableStep(s: Mux, t: TaskId)
    requires WellFormed(s) && PendingInv(s) && Running(s, t, Register)
    ensures TableStep(s, RegisterWaiter(s, t), t)
  {
    var s' := RegisterWaiter(s, t);
    NotFiledYet(s, t);
    RegisterFrame(s, t);
    RegisterEntries(s, t);
    RegisterDrops(s, t);
    forall u | u in s'.mailbox ensures NewMail(s, s', t, u) {
    }
  }

  /** A registration moves its own future: it is filed, over a pruned entry at most, or refused. */
  lemma RegisterMoves(s: Mux, t: TaskId)
    requires WellFormed(s) && Running(s, t, Register) && t !in s.pending.Values
    ensures var s' := RegisterWaiter(s, t); var q := s.tasks[t].seqNo;
      || s'.tasks == s.tasks[t := s.tasks[t].(phase := Finished(Failed(DuplicateSequence(q))))]
      || (s'.tasks == s.tasks[t := s.tasks[t].(phase := Want(Feed))] && q in s'.pending && s'.pending[q] == t &&
          (q in s.pending ==> s.pending[q] in s.tasks && !ReceiverAlive(s.tasks[s.pending[q]])))
  {
  }

  lemma RegisterLeaves(s: Mux, t: TaskId)
    requires WellFormed(s) && Running(s, t, Register)
    ensures var s' := RegisterWaiter(s, t);
      && s'.nextSeq == s.nextSeq && s'.allocations == s.allocations && s'.wire == s.wire && s'.abandoned == {}
      && s'.mailbox == s.mailbox && s.dropped.Keys <= s'.dropped.Keys
  {
  }

  lemma RegisterFrame(s: Mux, t: TaskId)
    requires WellFormed(s) && Running(s, t, Register) && t !in s.pending.Values
    ensures TableFrame(s, RegisterWaiter(s, t), t)
  {
    hide RegisterWaiter;
    RegisterMoves(s, t);
    RegisterLeaves(s, t);
  }

  lemma NotFiledYet(s: Mux, t: TaskId)
    requires PendingInv(s) && Running(s, t, Register)
    ensures t !in s.pending.Values
  {
    if t in s.pending.Values {
      OwnedEntry(s, t);
    }
    assert SenderWaits(s, t) ==> WaiterOk(s, s.tasks[t].seqNo);
    assert t in s.abandoned ==> AbandonedOk(s, t);
  }

  lemma RegisterEntries(s: Mux, t: TaskId)
    requires WellFormed(s) && PendingInv(s) && Running(s, t, Register)
    ensures var s' := RegisterWaiter(s, t);
      && (forall q {:trigger EntryOk(s, s', t, q)} | q in s'.pending :: EntryOk(s, s', t, q))
      && (forall q {:trigger Settled(s, s', q)} | q in s.pending :: Settled(s, s', q))
  {
    var s' := RegisterWaiter(s, t);
    NotFiledYet(s, t);
    forall q | q in s'.pending ensures EntryOk(s, s', t, q) {
    }
    forall q | q in s.pending ensures Settled(s, s', q) {
      OwnedEntry(s, s.pending[q]);
      assert WaiterOk(s, q);
    }
  }

  lemma RegisterDrops(s: Mux, t: TaskId)
    requires WellFormed(s) && PendingInv(s) && Running(s, t, Register)
    ensures var s' := RegisterWaiter(s, t);
      forall u {:trigger NewDrop(s, s', t, u)} | u in s'.dropped :: NewDrop(s, s', t, u)
  {
    var s' := RegisterWaiter(s, t);
    var kept := Retained(s.pending, OpenWaiters(s));
    NotFiledYet(s, t);
    forall u | u in s'.dropped ensures NewDrop(s, s', t, u) {
      if u in s.pending.Values {
        OwnedEntry(s, u);
        assert u in kept.Values || s.tasks[u].seqNo !in kept;
      }
    }
  }

  lemma RemoveIsTableStep(s: Mux, t: TaskId, error: Error)
    requires WellFormed(s) && PendingInv(s) && t in s.tasks && s.tasks[t].phase.In? && Fits(s, t)
    requires s.tasks[t].phase.section == Undo(error) || s.tasks[t].phase.section == Cleanup(error)
    ensures TableStep(s, RemoveWaiter(s, t, error), t)
  {
    var s' := RemoveWaiter(s, t, error);
    assert s.tasks[t].seqNo in s.pending ==> WaiterOk(s, s.tasks[t].seqNo);
    forall q | q in s'.pending ensures EntryOk(s, s', t, q) {
      assert WaiterOk(s, q);
    }
    forall q | q in s.pending ensures Settled(s, s', q) {
    }
    forall u | u in s'.dropped ensures NewDrop(s, s', t, u) {
    }
  }

  lemma DeliverIsTableStep(s: Mux, t: TaskId)
    requires WellFormed(s) && PendingInv(s) && Running(s, t, Deliver)
    ensures TableStep(s, DeliverResponse(s, t, s.tasks[t].kind.packet), t)
  {
    var packet := s.tasks[t].kind.packet;
    var s' := DeliverResponse(s, t, packet);
    DeliverFrame(s, t);
    assert packet.seqNo in s.pending ==> WaiterOk(s, packet.seqNo);
    forall q | q in s'.pending ensures EntryOk(s, s', t, q) {
      assert WaiterOk(s, q);
      assert t in s.abandoned ==> AbandonedOk(s, t);
    }
    forall q | q in s.pending ensures Settled(s, s', q) {
    }
    forall u | u in s'.mailbox ensures NewMail(s, s', t, u) {
    }
    forall u | u in s'.dropped ensures NewDrop(s, s', t, u) {
    }
  }

  lemma DeliverFrame(s: Mux, t: TaskId)
    requires WellFormed(s) && Running(s, t, Deliver)
    ensures TableFrame(s, DeliverResponse(s, t, s.tasks[t].kind.packet), t)
  {
  }

  lemma ClearIsTableStep(s: Mux, t: TaskId)
    requires WellFormed(s) && PendingInv(s) && Running(s, t, Clear)
    ensures TableStep(s, ClearWaiters(s, t), t)
  {
    var s' := ClearWaiters(s, t);
    forall q | q in s.pending ensures Settled(s, s', q) {
    }
    forall u | u in s'.mailbox ensures NewMail(s, s', t, u) {
    }
    forall u | u in s'.dropped ensures NewDrop(s, s', t, u) {
      if u in s.pending.Values {
        OwnedEntry(s, u);
      }
    }
  }

  // ---- Locks ----

  /** t gives up the locks in `freed`, all of them its own, and takes none. */
  lemma ReleaseKeepsLocks(s: Mux, s': Mux, t: TaskId, freed: set<Lock>)
    requires LockInv(s) && t in s.tasks && t in s'.tasks && s'.tasks == s.tasks[t := s'.tasks[t]]
    requires s'.locks == s.locks - freed
    requires forall lock | lock in freed :: Holds(s.tasks[t], lock)
    requires forall lock {:trigger Holds(s'.tasks[t], lock)} ::
               Holds(s'.tasks[t], lock) <==> Holds(s.tasks[t], lock) && lock !in freed
    ensures LockInv(s')
  {
    forall lock ensures LockOk(s', lock) {
      assert LockOk(s, lock) && HolderOk(s, t, lock);
    }
    forall u, lock | u in s'.tasks ensures HolderOk(s', u, lock) {
      assert HolderOk(s, u, lock) && HolderOk(s, t, lock);
    }
  }

  lemma LocksOfHolder(s: Mux, t: TaskId)
    requires LockInv(s) && t in s.tasks
    ensures forall lock :: lock in LocksOf(s, t) <==> Holds(s.tasks[t], lock)
  {
    forall lock ensures lock in LocksOf(s, t) <==> Holds(s.tasks[t], lock) {
      assert LockOk(s, lock) && HolderOk(s, t, lock);
    }
  }

  lemma AllocKeepsLocks(s: Mux, t: TaskId)
    requires LockInv(s) && Running(s, t, Alloc)
    ensures LockInv(Allocate(s, t))
  {
    ReleaseKeepsLocks(s, Allocate(s, t), t, {StateLock});
  }

  lemma RegisterKeepsLocks(s: Mux, t: TaskId)
    requires LockInv(s) && Running(s, t, Register)
    ensures LockInv(RegisterWaiter(s, t))
  {
    var s' := RegisterWaiter(s, t);
    ReleaseKeepsLocks(s, s', t, if s'.tasks[t].phase.Finished? then {StateLock, SendOrder} else {StateLock});
  }

  lemma RemoveKeepsLocks(s: Mux, t: TaskId, error: Error)
    requires LockInv(s) && t in s.tasks && s.tasks[t].phase.In? && Fits(s, t)
    requires s.tasks[t].phase.section == Undo(error) || s.tasks[t].phase.section == Cleanup(error)
    ensures LockInv(RemoveWaiter(s, t, error))
  {
    LocksOfHolder(s, t);
    ReleaseKeepsLocks(s, RemoveWaiter(s, t, error), t, LocksOf(s, t));
  }

  lemma SendFailureKeepsLocks(s: Mux, t: TaskId, error: Error)
    requires LockInv(s) && t in s.tasks && (s.tasks[t].phase == In(Feed) || s.tasks[t].phase.Flushing?) && Fits(s, t)
    ensures LockInv(AfterSendFailure(s, t, error))
  {
    ReleaseKeepsLocks(s, AfterSendFailure(s, t, error), t, {SinkLock});
  }

  lemma FeedKeepsLocks(s: Mux, t: TaskId)
    requires LockInv(s) && Running(s, t, Feed)
    ensures LockInv(FeedFrame(s, t))
  {
    if s.sinkOpen {
      ReleaseKeepsLocks(s, FeedFrame(s, t), t, {});
    } else {
      SendFailureKeepsLocks(s, t, ConnectionClosed);
    }
  }

  lemma DeliverKeepsLocks(s: Mux, t: TaskId)
    requires WellFormed(s) && LockInv(s) && Running(s, t, Deliver)
    ensures LockInv(DeliverResponse(s, t, s.tasks[t].kind.packet))
  {
    ReleaseKeepsLocks(s, DeliverResponse(s, t, s.tasks[t].kind.packet), t, {StateLock});
  }

  lemma ClearKeepsLocks(s: Mux, t: TaskId)
    requires LockInv(s) && Running(s, t, Clear)
    ensures LockInv(ClearWaiters(s, t))
  {
    ReleaseKeepsLocks(s, ClearWaiters(s, t), t, {StateLock});
  }

  lemma SinkKeepsLocks(s: Mux, t: TaskId)
    requires WellFormed(s) && LockInv(s) && t in s.tasks && Fits(s, t)
    requires s.tasks[t].phase == In(Take) || s.tasks[t].phase == In(Install)
    ensures LockInv(Apply(s, Run(t)))
  {
    ReleaseKeepsLocks(s, Apply(s, Run(t)), t, {SinkLock});
  }

  lemma AcquireKeepsLocks(s: Mux, t: TaskId)
    requires WellFormed(s) && LockInv(s) && Enabled(s, Acquire(t)) && Fits(s, t)
    ensures LockInv(Apply(s, Acquire(t)))
  {
    var s' := Apply(s, Acquire(t));
    forall lock ensures LockOk(s', lock) {
      assert LockOk(s, lock) && HolderOk(s, t, lock);
    }
    forall u, lock | u in s'.tasks ensures HolderOk(s', u, lock) {
      assert HolderOk(s, u, lock) && HolderOk(s, t, lock);
    }
  }

  lemma SpawnKeepsLocks(s: Mux, t: TaskId, kind: Kind)
    requires WellFormed(s) && LockInv(s) && Enabled(s, Spawn(t, kind))
    ensures LockInv(Apply(s, Spawn(t, kind)))
  {
    var s' := Apply(s, Spawn(t, kind));
    forall lock ensures LockOk(s', lock) {
      assert LockOk(s, lock);
    }
    forall u, lock | u in s'.tasks ensures HolderOk(s', u, lock) {
      assert u in s.tasks ==> HolderOk(s, u, lock);
    }
  }

  lemma ReturnKeepsLocks(s: Mux, l: Label)
    requires WellFormed(s) && LockInv(s) && Enabled(s, l) &&
             (l.Flushed? || l.TakeReply? || l.SeeSenderGone? || l.TimeOut?)
    requires Fits(s, l.t)
    ensures LockInv(Apply(s, l))
  {
    ReleaseKeepsLocks(s, Apply(s, l), l.t,
      if !l.Flushed? then {} else if s.tasks[l.t].kind.Invoke? then {SinkLock, SendOrder} else {SinkLock});
  }

  lemma CancelKeepsLocks(s: Mux, t: TaskId)
    requires WellFormed(s) && LockInv(s) && Enabled(s, Cancel(t))
    ensures LockInv(Apply(s, Cancel(t)))
  {
    LocksOfHolder(s, t);
    ReleaseKeepsLocks(s, Apply(s, Cancel(t)), t, LocksOf(s, t));
  }

  // ---- Every step keeps the invariant ----

  lemma PcStepKeepsInv(s: Mux, s': Mux, t: TaskId)
    requires Inv(s) && PcStep(s, s', t) && LockInv(s')
    ensures Inv(s')
  {
    PcKeepsWellFormed(s, s', t); PcKeepsSeq(s, s', t); PcKeepsPending(s, s', t); PcKeepsMail(s, s', t);
    PcKeepsDrop(s, s', t); PcKeepsReach(s, s', t); PcKeepsResult(s, s', t); PcKeepsWire(s, s', t);
  }

  lemma TableStepKeepsInv(s: Mux, s': Mux, t: TaskId)
    requires Inv(s) && TableStep(s, s', t) && LockInv(s')
    ensures Inv(s')
  {
    TableKeepsWellFormed(s, s', t); TableKeepsSeq(s, s', t); TableKeepsPending(s, s', t); TableKeepsMail(s, s', t);
    TableKeepsDrop(s, s', t); TableKeepsReach(s, s', t); TableKeepsResult(s, s', t);
  }

  lemma AllocKeepsInv(s: Mux, t: TaskId)
    requires Inv(s) && Running(s, t, Alloc)
    ensures Inv(Allocate(s, t))
  {
    AllocKeepsLocks(s, t); AllocKeepsSeq(s, t); AllocKeepsOneShots(s, t); AllocKeepsReach(s, t); AllocKeepsResult(s, t);
    AllocKeepsWellFormed(s, t);
  }

  lemma AllocKeepsWellFormed(s: Mux, t: TaskId)
    requires WellFormed(s) && Running(s, t, Alloc)
    ensures WellFormed(Allocate(s, t))
  {
    var s' := Allocate(s, t);
    forall u | u in s'.tasks ensures Fits(s', u) {
      assert Fits(s, u);
    }
  }

  predicate TableLabel(s: Mux, l: Label)
    requires Enabled(s, l)
  {
    l.Run? && !PcLabel(s, l) && !s.tasks[l.t].phase.section.Alloc?
  }

  lemma TableSteps(s: Mux, t: TaskId)
    requires WellFormed(s) && PendingInv(s) && LockInv(s) && Enabled(s, Run(t)) && TableLabel(s, Run(t)) && Fits(s, t)
    ensures TableStep(s, Apply(s, Run(t)), t) && LockInv(Apply(s, Run(t)))
  {
    match s.tasks[t].phase.section
    case Register => RegisterIsTableStep(s, t); RegisterKeepsLocks(s, t);
    case Undo(error) => RemoveIsTableStep(s, t, error); RemoveKeepsLocks(s, t, error);
    case Cleanup(error) => RemoveIsTableStep(s, t, error); RemoveKeepsLocks(s, t, error);
    case Deliver => DeliverIsTableStep(s, t); DeliverKeepsLocks(s, t);
    case Clear => ClearIsTableStep(s, t); ClearKeepsLocks(s, t);
    case _ =>
  }

  lemma PcLabelKeepsLocks(s: Mux, l: Label)
    requires Inv(s) && Enabled(s, l) && PcLabel(s, l)
    ensures LockInv(Apply(s, l))
  {
    assert l.t in s.tasks ==> Fits(s, l.t);
    match l
    case Spawn(t, kind) => SpawnKeepsLocks(s, t, kind);
    case Acquire(t) => AcquireKeepsLocks(s, t);
    case Run(t) => if s.tasks[t].phase.section.Feed? { FeedKeepsLocks(s, t); } else { SinkKeepsLocks(s, t); }
    case SendFails(t, error) => SendFailureKeepsLocks(s, t, error);
    case Cancel(t) => CancelKeepsLocks(s, t);
    case _ => ReturnKeepsLocks(s, l);
  }

  lemma StepKeepsInv(s: Mux, l: Label)
    requires Inv(s) && Enabled(s, l)
    ensures Inv(Apply(s, l))
  {
    assert l.t in s.tasks ==> Fits(s, l.t);
    if PcLabel(s, l) {
      PcSteps(s, l);
      PcLabelKeepsLocks(s, l);
      PcStepKeepsInv(s, Apply(s, l), l.t);
    } else if s.tasks[l.t].phase.section.Alloc? {
      AllocKeepsInv(s, l.t);
    } else {
      TableSteps(s, l.t);
      TableStepKeepsInv(s, Apply(s, l), l.t);
    }
  }

  /** A step changes one future: it moves a program point, allocates, or works on the table. */
  lemma StepShape(s: Mux, l: Label)
    requires Inv(s) && Enabled(s, l)
    ensures var s' := Apply(s, l);
      || PcStep(s, s', l.t)
      || TableStep(s, s', l.t)
      || (l.Run? && Running(s, l.t, Alloc) && s' == Allocate(s, l.t))
  {
    assert l.t in s.tasks ==> Fits(s, l.t);
    if PcLabel(s, l) {
      PcSteps(s, l);
    } else if TableLabel(s, l) {
      TableSteps(s, l.t);
    }
  }
}
