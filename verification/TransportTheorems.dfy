/** What the multiplexer guarantees in every run, whatever the scheduler, the
    clock, the server and cancelling callers do. */
module TransportTheorems {
  import opened Protocol
  import opened Transport
  import opened TransportInvariant
  import opened TransportProofs

  ghost predicate IsStep(s: Mux, l: Label, s': Mux) {
    WellFormed(s) && Enabled(s, l) && s' == Apply(s, l)
  }

  /** ss[0] is a new transport and ls[i] leads from ss[i] to ss[i + 1]. */
  ghost predicate IsRun(ss: seq<Mux>, ls: seq<Label>) {
    |ss| == |ls| + 1 && ss[0] == INIT && forall i | 0 <= i < |ls| :: IsStep(ss[i], ls[i], ss[i + 1])
  }

  lemma {:induction false} RunKeepsInv(ss: seq<Mux>, ls: seq<Label>, i: nat)
    requires IsRun(ss, ls) && i <= |ls|
    ensures Inv(ss[i])
  {
    if i == 0 {
      InitInv();
    } else {
      RunKeepsInv(ss, ls, i - 1);
      assert IsStep(ss[i - 1], ls[i - 1], ss[i - 1 + 1]);
      StepKeepsInv(ss[i - 1], ls[i - 1]);
    }
  }

  // ---- Waiters ----

  predicate ExactlyOne(a: bool, b: bool, c: bool) {
    (a || b || c) && !(a && b) && !(a && c) && !(b && c)
  }

  /** Waiter conservation: until it returns or is cancelled, a registered call has its
      sender in the table, or its response in the one-shot, or its sender dropped, and
      only one of these; and if it still listens, `close` dropped it, or the clean-up
      of a call whose number was allocated at least a whole turn of the counter ago. */
  lemma WaiterConservation(ss: seq<Mux>, ls: seq<Label>, i: nat, t: TaskId)
    requires IsRun(ss, ls) && i <= |ls| && t in ss[i].tasks && Registered(ss[i].tasks[t])
    ensures var s := ss[i];
      && ExactlyOne(SenderWaits(s, t), t in s.mailbox, t in s.dropped)
      && (t in s.dropped && ReceiverAlive(s.tasks[t]) ==>
            match s.dropped[t]
            case ByClose(u) => u in s.tasks && s.tasks[u].kind.Close?
            case ByRemoval(u) =>
              u in s.tasks && u != t && s.tasks[u].ticket.Some? && s.tasks[t].ticket.Some? &&
              s.tasks[u].ticket.value + SEQ_MODULUS <= s.tasks[t].ticket.value
            case _ => false)
  {
    var s := ss[i];
    RunKeepsInv(ss, ls, i);
    assert CanBeWoken(s, t);
    assert s.tasks[t].seqNo in s.pending ==> WaiterOk(s, s.tasks[t].seqNo);
    assert t in s.mailbox ==> MailOk(s, t);
    assert t in s.dropped ==> DropOk(s, t);
  }

  /** No listening caller is orphaned: a call that awaits without its sender in the
      table can take a step at once, and a response to its number would find it otherwise. */
  lemma NoOrphan(ss: seq<Mux>, ls: seq<Label>, i: nat, t: TaskId)
    requires IsRun(ss, ls) && i <= |ls| && t in ss[i].tasks && ss[i].tasks[t].phase.Awaiting?
    ensures SenderWaits(ss[i], t) || Enabled(ss[i], TakeReply(t)) || Enabled(ss[i], SeeSenderGone(t))
  {
    RunKeepsInv(ss, ls, i);
    assert CanBeWoken(ss[i], t) && Fits(ss[i], t);
  }

  /** A call returns Ok only with a response that was received, is not an error, and
      echoes the call's own number, after the call's own request frame went out. */
  lemma OkMeansOwnReply(ss: seq<Mux>, ls: seq<Label>, i: nat, t: TaskId)
    requires IsRun(ss, ls) && i <= |ls| && t in ss[i].tasks && Answered(ss[i].tasks[t])
    ensures var s := ss[i]; var reply := s.tasks[t].phase.outcome.packet;
      && s.tasks[t].kind.Invoke? && reply.seqNo == s.tasks[t].seqNo && reply.cmd != CMD_ERROR
      && t in s.mailbox && s.mailbox[t] in s.tasks && s.tasks[s.mailbox[t]].kind == Respond(reply)
      && exists k :: 0 <= k < |s.wire| && s.wire[k] == Frame(t, PacketOf(s.tasks[t]))
  {
    var s := ss[i];
    RunKeepsInv(ss, ls, i);
    assert ResultOk(s, t) && MailOk(s, t);
    var k :| 0 <= k < |s.wire| && s.wire[k].from == t;
    assert FrameOk(s, k) && Fits(s, t) && Fits(s, s.mailbox[t]);
  }

  /** Each received response reaches at most one caller. */
  lemma ResponseReachesOne(ss: seq<Mux>, ls: seq<Label>, i: nat, t: TaskId, u: TaskId)
    requires IsRun(ss, ls) && i <= |ls| && t in ss[i].mailbox && u in ss[i].mailbox
    requires ss[i].mailbox[t] == ss[i].mailbox[u]
    ensures t == u
  {
    RunKeepsInv(ss, ls, i);
    assert MailDiffers(ss[i], t, u);
  }

  // ---- Sequence numbers ----

  /** Fewer than 2^32 numbers have been allocated since t was registered. */
  predicate WithinTurn(s: Mux, t: TaskId)
    requires t in s.tasks
  {
    s.tasks[t].ticket.Some? ==> s.allocations - s.tasks[t].ticket.value - 1 < SEQ_MODULUS
  }

  /** Another call is filed under t's number. */
  predicate NumberReused(s: Mux, t: TaskId)
    requires t in s.tasks
  {
    s.tasks[t].seqNo in s.pending && s.pending[s.tasks[t].seqNo] != t
  }

  /** A clean-up takes the sender of another call away exactly when that call is filed
      under the same number, and then t's registration is at least a whole turn of the
      counter old. Otherwise, and so always within the turn, it leaves all other entries
      and one-shots alone. */
  lemma CleanupRemovesOwnEntry(ss: seq<Mux>, ls: seq<Label>, i: nat, t: TaskId)
    requires IsRun(ss, ls) && i < |ls| && ls[i] == Run(t)
    requires t in ss[i].tasks && ss[i].tasks[t].phase.In? &&
             (ss[i].tasks[t].phase.section.Undo? || ss[i].tasks[t].phase.section.Cleanup?)
    ensures (exists u :: u != t && u in ss[i + 1].dropped && u !in ss[i].dropped) <==> NumberReused(ss[i], t)
    ensures NumberReused(ss[i], t) ==> !WithinTurn(ss[i], t)
    ensures !NumberReused(ss[i], t) ==>
              forall q | q in ss[i].pending && ss[i].pending[q] != t ::
                       q in ss[i + 1].pending && ss[i + 1].pending[q] == ss[i].pending[q]
  {
    var s := ss[i];
    RunKeepsInv(ss, ls, i);
    assert IsStep(s, ls[i], ss[i + 1]);
    var q := s.tasks[t].seqNo;
    assert Fits(s, t) && TicketOk(s, t) && ReusedLater(s, t);
    if NumberReused(s, t) {
      var u := s.pending[q];
      assert WaiterOk(s, q) && TicketOk(s, u);
      SameNumberIsOneTurnApart(s.tasks[t].ticket.value, s.tasks[u].ticket.value);
      assert u in ss[i + 1].dropped;
    }
  }

  /** `DuplicateSequence` is returned exactly when a call that still listens holds the
      number, and then its number is at least a whole turn of the counter old. */
  lemma DuplicateMeansWrapped(ss: seq<Mux>, ls: seq<Label>, i: nat, t: TaskId)
    requires IsRun(ss, ls) && i < |ls| && ls[i] == Run(t)
    requires t in ss[i].tasks && ss[i].tasks[t].phase == In(Register)
    ensures t in ss[i + 1].tasks
    ensures var s := ss[i]; var q := s.tasks[t].seqNo;
      ss[i + 1].tasks[t].phase == Finished(Failed(DuplicateSequence(q))) <==>
      (q in s.pending && s.pending[q] in s.tasks && ReceiverAlive(s.tasks[s.pending[q]]))
    ensures var s := ss[i]; var q := s.tasks[t].seqNo;
      ss[i + 1].tasks[t].phase.Finished? ==> q in s.pending && s.pending[q] in s.tasks && !WithinTurn(s, s.pending[q])
  {
    var s := ss[i];
    RunKeepsInv(ss, ls, i);
    assert IsStep(s, ls[i], ss[i + 1]);
    var q := s.tasks[t].seqNo;
    assert Fits(s, t) && TicketOk(s, t);
    if q in s.pending {
      var u := s.pending[q];
      assert WaiterOk(s, q) && TicketOk(s, u) && TicketsDiffer(s, t, u);
      if ReceiverAlive(s.tasks[u]) {
        SameNumberIsOneTurnApart(s.tasks[u].ticket.value, s.tasks[t].ticket.value);
      }
    }
  }

  /** Every call that is registered has been within the turn, in every state of the run. */
  ghost predicate AlwaysWithinTurn(ss: seq<Mux>) {
    forall i, t | 0 <= i < |ss| && t in ss[i].tasks && Registered(ss[i].tasks[t]) :: WithinTurn(ss[i], t)
  }

  /** Only the registration step refuses, and a step concerns one future. */
  lemma RefusalsAreNew(s: Mux, l: Label, t: TaskId)
    requires Inv(s) && Enabled(s, l) && t in Apply(s, l).tasks && RefusedAsDuplicate(Apply(s, l).tasks[t])
    ensures t in s.tasks && (RefusedAsDuplicate(s.tasks[t]) || (l == Run(t) && s.tasks[t].phase == In(Register)))
  {
    StepShape(s, l);
  }

  /** Then nobody is ever refused as a duplicate. */
  lemma {:induction false} NeverDuplicate(ss: seq<Mux>, ls: seq<Label>, i: nat, t: TaskId)
    requires IsRun(ss, ls) && i <= |ls| && t in ss[i].tasks && AlwaysWithinTurn(ss)
    ensures !RefusedAsDuplicate(ss[i].tasks[t])
  {
    if i > 0 {
      var s, l := ss[i - 1], ls[i - 1];
      assert IsStep(s, l, ss[i - 1 + 1]);
      RunKeepsInv(ss, ls, i - 1);
      if RefusedAsDuplicate(ss[i].tasks[t]) {
        RefusalsAreNew(s, l, t);
        if RefusedAsDuplicate(s.tasks[t]) {
          NeverDuplicate(ss, ls, i - 1, t);
        } else {
          DuplicateMeansWrapped(ss, ls, i - 1, t);
        }
      }
    }
  }

  // ---- The wire ----

  /** Frame j was written by an invoke. */
  predicate InvokeFrame(s: Mux, j: nat) {
    j < |s.wire| && s.wire[j].from in s.tasks && s.tasks[s.wire[j].from].kind.Invoke?
  }

  function TicketAt(s: Mux, j: nat): nat
    requires InvokeFrame(s, j)
  {
    if s.tasks[s.wire[j].from].ticket.Some? then s.tasks[s.wire[j].from].ticket.value else 0
  }

  /** Request frames of invokes enter the sink in allocation order, so their numbers
      are a subsequence of 1, 2, 3, ... modulo 2^32, and no request is written twice. */
  lemma WireOrder(ss: seq<Mux>, ls: seq<Label>, i: nat, j: nat, k: nat)
    requires IsRun(ss, ls) && i <= |ls| && j < k && InvokeFrame(ss[i], j) && InvokeFrame(ss[i], k)
    ensures TicketAt(ss[i], j) < TicketAt(ss[i], k) < ss[i].allocations
    ensures ss[i].wire[j].packet.seqNo == (1 + TicketAt(ss[i], j)) % SEQ_MODULUS
    ensures ss[i].wire[j].from != ss[i].wire[k].from
  {
    var s := ss[i];
    RunKeepsInv(ss, ls, i);
    assert InOrder(s, j, k) && FrameOk(s, j) && FrameOk(s, k);
    assert TicketOk(s, s.wire[j].from) && TicketOk(s, s.wire[k].from);
    SeqOfWraps(TicketAt(s, j));
  }

  // ---- Leftovers ----

  function LiveInvokes(s: Mux): set<TaskId> {
    set t | t in s.tasks && s.tasks[t].kind.Invoke? && Unfinished(s.tasks[t])
  }

  lemma {:induction false} InjectiveSize(m: map<SeqNo, TaskId>)
    requires forall p, q {:trigger m[p], m[q]} | p in m && q in m && p != q :: m[p] != m[q]
    ensures |m| == |m.Values|
  {
    if m == map[] {
      assert m.Values == {};
    } else {
      var q :| q in m;
      var rest := m - {q};
      InjectiveSize(rest);
      assert m == rest[q := m[q]];
      assert m[q] !in rest.Values;
      forall v | v in m.Values ensures v in rest.Values + {m[q]} {
        var p :| p in m && m[p] == v;
        assert p != q ==> p in rest;
      }
      assert m.Values == rest.Values + {m[q]};
    }
  }

  /** The table never outgrows the live calls plus those cancelled since the last registration. */
  lemma BoundedTable(ss: seq<Mux>, ls: seq<Label>, i: nat)
    requires IsRun(ss, ls) && i <= |ls|
    ensures |ss[i].pending| <= |LiveInvokes(ss[i])| + |ss[i].abandoned|
  {
    var s := ss[i];
    RunKeepsInv(ss, ls, i);
    forall q | q in s.pending ensures s.pending[q] in LiveInvokes(s) + s.abandoned && s.tasks[s.pending[q]].seqNo == q {
      assert WaiterOk(s, q);
    }
    InjectiveSize(s.pending);
    SubsetSize(s.pending.Values, LiveInvokes(s) + s.abandoned);
  }

  lemma {:induction false} SubsetSize(a: set<TaskId>, b: set<TaskId>)
    requires a <= b
    ensures |a| <= |b|
  {
    if a != {} {
      var x :| x in a;
      SubsetSize(a - {x}, b - {x});
    }
  }

  predicate OwnerListens(s: Mux, q: SeqNo) {
    q in s.pending && s.pending[q] in s.tasks && ReceiverAlive(s.tasks[s.pending[q]])
  }

  ghost predicate EveryOwnerListens(s: Mux) {
    forall q | q in s.pending :: OwnerListens(s, q)
  }

  /** A registration attempt, accepted or refused, leaves no entry whose receiver has vanished. */
  lemma RegistrationPrunes(ss: seq<Mux>, ls: seq<Label>, i: nat, t: TaskId)
    requires IsRun(ss, ls) && i < |ls| && ls[i] == Run(t)
    requires t in ss[i].tasks && ss[i].tasks[t].phase == In(Register)
    ensures ss[i + 1].abandoned == {}
    ensures EveryOwnerListens(ss[i + 1])
  {
    var s := ss[i];
    RunKeepsInv(ss, ls, i);
    assert IsStep(s, ls[i], ss[i + 1]);
    assert Fits(s, t);
    NotFiledYet(s, t);
    PrunedTable(s, t);
  }

  lemma PrunedTable(s: Mux, t: TaskId)
    requires WellFormed(s) && Running(s, t, Register) && t !in s.pending.Values
    ensures var s' := RegisterWaiter(s, t);
      s'.abandoned == {} && EveryOwnerListens(s')
  {
  }

  // ---- Deadlock freedom ----

  /** A future that waits for a lock holds only locks of lower rank: `send_order`
      comes before the other two, and those two are never held together. */
  lemma LockOrder(ss: seq<Mux>, ls: seq<Label>, i: nat, t: TaskId, held: Lock)
    requires IsRun(ss, ls) && i <= |ls| && t in ss[i].tasks
    requires held in ss[i].locks && ss[i].locks[held] == t
    ensures ss[i].tasks[t].phase.Want? ==> Rank(held) < Rank(LockOf(ss[i].tasks[t].phase.section))
    ensures !(StateLock in ss[i].locks && SinkLock in ss[i].locks && ss[i].locks[StateLock] == ss[i].locks[SinkLock])
  {
    RunKeepsInv(ss, ls, i);
    assert LockOk(ss[i], held) && Fits(ss[i], t);
    assert LockOk(ss[i], StateLock) && LockOk(ss[i], SinkLock);
  }

  /** The schedule ls leads from s to e; each step is taken by a future that holds a
      lock, and is neither a failure, nor a timeout, nor a cancellation. */
  ghost predicate HoldersLead(s: Mux, ls: seq<Label>, e: Mux)
    decreases |ls|
  {
    if ls == [] then s == e
    else
      && WellFormed(s) && Enabled(s, ls[0]) && (ls[0].Acquire? || ls[0].Run? || ls[0].Flushed?)
      && (exists lock :: lock in s.locks && s.locks[lock] == ls[0].t)
      && HoldersLead(Apply(s, ls[0]), ls[1..], e)
  }

  /** How far a holder is from giving the lock up. */
  function LockDebt(lock: Lock, phase: Phase): nat {
    match lock
    case StateLock => 1
    case SinkLock => if phase == In(Feed) then 2 else 1
    case SendOrder =>
      match phase {
        case Want(Alloc) => 27
        case In(Alloc) => 24
        case Want(Register) => 21
        case In(Register) => 18
        case Want(Feed) => 15
        case In(Feed) => 12
        case Flushing => 9
        case Want(Undo(_)) => 6
        case _ => 3
      }
  }

  function DebtOf(s: Mux, lock: Lock): nat {
    if lock in s.locks && s.locks[lock] in s.tasks then LockDebt(lock, s.tasks[s.locks[lock]].phase) else 0
  }

  function Debt(s: Mux): nat {
    DebtOf(s, SendOrder) + DebtOf(s, StateLock) + DebtOf(s, SinkLock)
  }

  /** A section under `state` gives that lock up and moves its future on. */
  lemma StateSectionMoves(s: Mux, h: TaskId)
    requires Inv(s) && Enabled(s, Run(h)) && LockOf(s.tasks[h].phase.section) == StateLock
    ensures h in Apply(s, Run(h)).tasks
    ensures var s' := Apply(s, Run(h)); var phase := s'.tasks[h].phase;
      && s'.tasks == s.tasks[h := s'.tasks[h]] && s'.tasks[h].kind == s.tasks[h].kind
      && (phase.Finished? || phase == Want(Take) ||
          (phase == Want(Register) && s.tasks[h].phase == In(Alloc)) ||
            (phase == Want(Feed) && s.tasks[h].phase == In(Register)))
  {
    assert Fits(s, h);
    if TableLabel(s, Run(h)) {
      TableSteps(s, h);
    }
  }

  lemma StateHolderSteps(s: Mux, h: TaskId)
    requires Inv(s) && StateLock in s.locks && s.locks[StateLock] == h
    ensures Enabled(s, Run(h)) && Debt(Apply(s, Run(h))) < Debt(s)
  {
    assert LockOk(s, StateLock) && Fits(s, h);
    StateSectionMoves(s, h);
    StepKeepsInv(s, Run(h));
    StateGivenUp(s, Apply(s, Run(h)), h);
  }

  lemma StateGivenUp(s: Mux, s': Mux, h: TaskId)
    requires LockInv(s) && LockInv(s') && h in s.tasks && h in s'.tasks && s'.tasks == s.tasks[h := s'.tasks[h]]
    requires StateLock in s.locks && s.locks[StateLock] == h && s'.tasks[h].kind == s.tasks[h].kind
    requires var phase := s'.tasks[h].phase;
      (phase.Finished? || phase == Want(Take) ||
       (phase == Want(Register) && s.tasks[h].phase == In(Alloc)) ||
         (phase == Want(Feed) && s.tasks[h].phase == In(Register)))
    ensures Debt(s') < Debt(s)
  {
    forall lock ensures lock in s'.locks ==> lock in s.locks && s.locks[lock] == s'.locks[lock] && lock != StateLock {
      assert LockOk(s', lock) && LockOk(s, lock);
      assert lock in s'.locks ==> s'.locks[lock] in s.tasks && HolderOk(s, s'.locks[lock], lock);
      assert HolderOk(s, h, lock);
    }
    assert LockOk(s, SendOrder) && LockOk(s, SinkLock) && LockOk(s, StateLock);
  }

  lemma SinkHolderSteps(s: Mux, h: TaskId)
    requires Inv(s) && StateLock !in s.locks && SinkLock in s.locks && s.locks[SinkLock] == h
    ensures var l := if h in s.tasks && s.tasks[h].phase.Flushing? then Flushed(h) else Run(h);
      Enabled(s, l) && Debt(Apply(s, l)) < Debt(s)
  {
    assert LockOk(s, SinkLock) && LockOk(s, SendOrder) && Fits(s, h);
  }

  lemma OrderHolderAcquires(s: Mux, h: TaskId)
    requires Inv(s) && StateLock !in s.locks && SinkLock !in s.locks && SendOrder in s.locks && s.locks[SendOrder] == h
    ensures Enabled(s, Acquire(h)) && Debt(Apply(s, Acquire(h))) < Debt(s)
  {
    assert LockOk(s, SendOrder) && Fits(s, h) && HolderOk(s, h, StateLock) && HolderOk(s, h, SinkLock);
  }

  /** In every state with a lock held, some holder can step, and the debt falls. */
  lemma SomeHolderSteps(s: Mux) returns (l: Label)
    requires Inv(s) && s.locks != map[]
    ensures Enabled(s, l) && (l.Acquire? || l.Run? || l.Flushed?) && Debt(Apply(s, l)) < Debt(s)
    ensures exists lock :: lock in s.locks && s.locks[lock] == l.t
  {
    if StateLock in s.locks {
      var h := s.locks[StateLock];
      StateHolderSteps(s, h);
      l := Run(h);
    } else if SinkLock in s.locks {
      var h := s.locks[SinkLock];
      SinkHolderSteps(s, h);
      l := if h in s.tasks && s.tasks[h].phase.Flushing? then Flushed(h) else Run(h);
    } else {
      assert SendOrder in s.locks by {
        var lock :| lock in s.locks;
        match lock
        case SendOrder =>
        case StateLock =>
        case SinkLock =>
      }
      OrderHolderAcquires(s, s.locks[SendOrder]);
      l := Acquire(s.locks[SendOrder]);
    }
  }

  lemma {:induction false} LocksDrain(s: Mux) returns (ls: seq<Label>, e: Mux)
    requires Inv(s)
    ensures HoldersLead(s, ls, e) && e.locks == map[] && |ls| <= Debt(s)
    decreases Debt(s)
  {
    if s.locks == map[] {
      ls, e := [], s;
    } else {
      var l := SomeHolderSteps(s);
      StepKeepsInv(s, l);
      var rest;
      rest, e := LocksDrain(Apply(s, l));
      ls := [l] + rest;
      assert ls[1..] == rest;
    }
  }

  /** Deadlock freedom: from every reachable state, at most 30 steps of the holders
      alone free all three locks. */
  lemma NoDeadlock(ss: seq<Mux>, ls: seq<Label>, i: nat) returns (more: seq<Label>, e: Mux)
    requires IsRun(ss, ls) && i <= |ls|
    ensures HoldersLead(ss[i], more, e) && e.locks == map[] && |more| <= 30
  {
    RunKeepsInv(ss, ls, i);
    more, e := LocksDrain(ss[i]);
  }
}
