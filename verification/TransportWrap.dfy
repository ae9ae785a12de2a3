/** The bound of one turn of the sequence counter is tight: a run in which a call's
    clean-up, exactly 2^32 allocations after its registration, removes the waiter of
    another call that still listens (src/client/transport.rs). */
module TransportWrap {
  import opened Protocol
  import opened Transport
  import opened TransportInvariant
  import opened TransportTheorems

  ghost predicate Reached(s: Mux) {
    exists ss, ls :: IsRun(ss, ls) && ss[|ls|] == s
  }

  lemma ReachedInv(s: Mux)
    requires Reached(s)
    ensures Inv(s)
  {
    var ss, ls :| IsRun(ss, ls) && ss[|ls|] == s;
    RunKeepsInv(ss, ls, |ls|);
  }

  lemma ReachStep(s: Mux, l: Label)
    requires Reached(s) && WellFormed(s) && Enabled(s, l)
    ensures Reached(Apply(s, l)) && WellFormed(Apply(s, l))
  {
    var ss, ls :| IsRun(ss, ls) && ss[|ls|] == s;
    var ss', ls' := ss + [Apply(s, l)], ls + [l];
    forall i | 0 <= i < |ls'| ensures IsStep(ss'[i], ls'[i], ss'[i + 1]) {
      if i < |ls| {
        assert IsStep(ss[i], ls[i], ss[i + 1]);
      }
    }
    assert IsRun(ss', ls') && ss'[|ls'|] == Apply(s, l);
    ReachedInv(Apply(s, l));
  }

  const PROBE := Invoke(PING, Other, None)

  lemma ComesToAlloc(s: Mux, t: TaskId) returns (e: Mux)
    requires Reached(s) && WellFormed(s) && s.locks == map[] && t !in s.tasks
    ensures Reached(e) && WellFormed(e)
    ensures e == s.(tasks := s.tasks[t := Task(PROBE, In(Alloc), 0, None)],
                    locks := map[SendOrder := t, StateLock := t])
  {
    hide WellFormed, Fits;
    var s1 := Apply(s, Spawn(t, PROBE));
    ReachStep(s, Spawn(t, PROBE));
    var s2 := Apply(s1, Acquire(t));
    ReachStep(s1, Acquire(t));
    e := Apply(s2, Acquire(t));
    ReachStep(s2, Acquire(t));
    assert e.tasks == s.tasks[t := Task(PROBE, In(Alloc), 0, None)];
  }

  /** t takes a number and then waits for `state`. */
  lemma TakeNumber(s: Mux, t: TaskId) returns (e: Mux)
    requires Reached(s) && WellFormed(s) && s.locks == map[] && t !in s.tasks
    ensures Reached(e) && WellFormed(e)
    ensures e == s.(tasks := s.tasks[t := Task(PROBE, Want(Register), s.nextSeq, Some(s.allocations))],
                    nextSeq := NextSeq(s.nextSeq), allocations := s.allocations + 1, locks := map[SendOrder := t])
  {
    hide WellFormed, Fits;
    var s3 := ComesToAlloc(s, t);
    e := Apply(s3, Run(t));
    ReachStep(s3, Run(t));
    assert e == Allocate(s3, t);
    assert e.locks == map[SendOrder := t];
    assert e.tasks == s.tasks[t := Task(PROBE, Want(Register), s.nextSeq, Some(s.allocations))];
  }

  /** What a burst of cancelled calls leaves alone: all but the counter and new dead calls. */
  ghost predicate SpunFrom(s: Mux, e: Mux, first: TaskId, count: nat) {
    && e.pending == s.pending && e.mailbox == s.mailbox && e.sinkOpen == s.sinkOpen && e.locks == map[]
    && e.allocations == s.allocations + count
    && (forall t | t in s.tasks :: t in e.tasks && e.tasks[t] == s.tasks[t])
    && (forall t | t in e.tasks && t !in s.tasks :: first <= t < first + count)
  }

  lemma {:induction false} Spin(s: Mux, first: TaskId, count: nat) returns (e: Mux)
    requires Reached(s) && WellFormed(s) && s.locks == map[]
    requires forall t | t in s.tasks :: t < first
    ensures Reached(e) && WellFormed(e) && SpunFrom(s, e, first, count)
  {
    if count == 0 {
      e := s;
    } else {
      var m := Spin(s, first, count - 1);
      var t := first + count - 1;
      var s1 := TakeNumber(m, t);
      e := Apply(s1, Cancel(t));
      ReachStep(s1, Cancel(t));
      assert e.locks == map[];
    }
  }

  lemma EnterRegister(s: Mux, t: TaskId) returns (e: Mux)
    requires Reached(s) && WellFormed(s) && t in s.tasks && s.tasks[t].phase == Want(Register) && StateLock !in s.locks
    ensures Reached(e) && WellFormed(e)
    ensures e == s.(tasks := s.tasks[t := s.tasks[t].(phase := In(Register))], locks := s.locks[StateLock := t])
  {
    hide Reached, WellFormed;
    e := Apply(s, Acquire(t));
    ReachStep(s, Acquire(t));
  }

  lemma RunRegister(s: Mux, t: TaskId) returns (e: Mux)
    requires Reached(s) && WellFormed(s) && t in s.tasks && s.tasks[t].phase == In(Register)
    ensures Reached(e) && WellFormed(e) && e == RegisterWaiter(s, t)
  {
    hide Reached, RegisterWaiter;
    e := Apply(s, Run(t));
    ReachStep(s, Run(t));
  }

  /** t is registered under its number, whose previous owner no longer listens. */
  lemma TakePlace(s: Mux, t: TaskId) returns (e: Mux)
    requires Reached(s) && WellFormed(s) && t in s.tasks && s.locks == map[SendOrder := t]
    requires s.tasks[t].kind == PROBE && s.tasks[t].phase == Want(Register)
    requires s.tasks[t].seqNo in s.pending ==> !ReceiverAlive(s.tasks[s.pending[s.tasks[t].seqNo]])
    ensures Reached(e) && WellFormed(e) && e.sinkOpen == s.sinkOpen && e.allocations == s.allocations
    ensures e.locks == map[SendOrder := t] && e.tasks == s.tasks[t := s.tasks[t].(phase := Want(Feed))]
    ensures s.tasks[t].seqNo in e.pending && e.pending[s.tasks[t].seqNo] == t
  {
    hide Reached, WellFormed, RegisterWaiter;
    PendingOwned(s, t);
    var s1 := EnterRegister(s, t);
    e := RunRegister(s1, t);
    PlaceTaken(s1, t);
    assert e.tasks == s.tasks[t := s.tasks[t].(phase := Want(Feed))];
  }

  lemma PendingOwned(s: Mux, t: TaskId)
    requires WellFormed(s) && t in s.tasks
    ensures s.tasks[t].seqNo in s.pending ==> s.pending[s.tasks[t].seqNo] in s.tasks
  {
  }

  lemma PlaceTaken(s: Mux, t: TaskId)
    requires WellFormed(s) && t in s.tasks && s.locks == map[SendOrder := t, StateLock := t]
    requires s.tasks[t].seqNo in s.pending ==>
               s.pending[s.tasks[t].seqNo] in s.tasks && !ReceiverAlive(s.tasks[s.pending[s.tasks[t].seqNo]])
    ensures var e := RegisterWaiter(s, t);
      && e.sinkOpen == s.sinkOpen && e.allocations == s.allocations
      && e.locks == map[SendOrder := t] && e.tasks == s.tasks[t := s.tasks[t].(phase := Want(Feed))]
      && s.tasks[t].seqNo in e.pending && e.pending[s.tasks[t].seqNo] == t
  {
  }

  /** t writes its frame and listens. */
  lemma SendAndListen(s: Mux, t: TaskId) returns (e: Mux)
    requires Reached(s) && WellFormed(s) && t in s.tasks && s.locks == map[SendOrder := t] && s.sinkOpen
    requires s.tasks[t].kind == PROBE && s.tasks[t].phase == Want(Feed)
    ensures Reached(e) && WellFormed(e) && e.sinkOpen && e.locks == map[] && e.allocations == s.allocations
    ensures e.pending == s.pending && e.tasks == s.tasks[t := s.tasks[t].(phase := Awaiting)]
  {
    var s1 := Apply(s, Acquire(t));
    ReachStep(s, Acquire(t));
    var s2 := Apply(s1, Run(t));
    ReachStep(s1, Run(t));
    assert s2 == FeedFrame(s1, t);
    e := Apply(s2, Flushed(t));
    ReachStep(s2, Flushed(t));
    assert e.locks == map[];
  }

  lemma Opened() returns (e: Mux)
    ensures Reached(e) && WellFormed(e) && e.sinkOpen && e.locks == map[] && e.pending == map[]
    ensures e.allocations == 0 && e.tasks.Keys == {0} && e.tasks[0].kind.Connect?
  {
    var none: seq<Label> := [];
    assert IsRun([INIT], none) && [INIT][|none|] == INIT;
    var s1 := Apply(INIT, Spawn(0, Connect));
    ReachStep(INIT, Spawn(0, Connect));
    var s2 := Apply(s1, Acquire(0));
    ReachStep(s1, Acquire(0));
    e := Apply(s2, Run(0));
    ReachStep(s2, Run(0));
  }

  lemma NextSeqIs(s: Mux)
    requires Reached(s)
    ensures s.nextSeq == (1 + s.allocations) % SEQ_MODULUS
  {
    ReachedInv(s);
    SeqOfWraps(s.allocations);
  }

  /** One call listens under number 1. */
  lemma FirstListens() returns (s: Mux)
    ensures Reached(s) && WellFormed(s) && s.sinkOpen && s.locks == map[] && s.allocations == 1
    ensures s.tasks.Keys == {0, 1} && s.tasks[1] == Task(PROBE, Awaiting, 1, Some(0)) &&
            1 in s.pending && s.pending[1] == 1
  {
    var s0 := Opened();
    NextSeqIs(s0);
    var s1 := TakeNumber(s0, 1);
    s1 := TakePlace(s1, 1);
    s := SendAndListen(s1, 1);
  }

  /** It times out after 2^32 - 1 further allocations. */
  lemma TurnLater() returns (s: Mux)
    ensures Reached(s) && WellFormed(s) && s.sinkOpen && s.locks == map[] &&
            s.allocations == SEQ_MODULUS && s.nextSeq == 1
    ensures 1 in s.tasks && s.tasks[1] == Task(PROBE, Want(Cleanup(Timeout(PING))), 1, Some(0))
    ensures SEQ_MODULUS + 1 !in s.tasks && 1 in s.pending && s.pending[1] == 1
  {
    var s1 := FirstListens();
    var s2 := Spin(s1, 2, SEQ_MODULUS - 1);
    NextSeqIs(s2);
    s := Apply(s2, TimeOut(1));
    ReachStep(s2, TimeOut(1));
  }

  /** The bound cannot be relaxed by one: exactly 2^32 allocations after a's
      registration, a's clean-up takes b's waiter away while b listens. */
  lemma OneTurnIsTight() returns (s: Mux, a: TaskId, b: TaskId)
    ensures Reached(s) && WellFormed(s) && Enabled(s, Run(a)) && a != b && b in s.tasks
    ensures s.tasks[a].phase.In? && s.tasks[a].phase.section.Cleanup? && s.tasks[a].ticket.Some?
    ensures s.allocations - s.tasks[a].ticket.value - 1 == SEQ_MODULUS
    ensures s.tasks[b].phase.Awaiting? && SenderWaits(s, b)
    ensures var e := Apply(s, Run(a));
            b in e.dropped && e.dropped[b] == ByRemoval(a) && b in e.tasks && e.tasks[b].phase.Awaiting?
  {
    a, b := 1, SEQ_MODULUS + 1;
    var s1 := TurnLater();
    s1 := TakeNumber(s1, b);
    s1 := TakePlace(s1, b);
    s1 := SendAndListen(s1, b);
    s := Apply(s1, Acquire(a));
    ReachStep(s1, Acquire(a));
    assert s.tasks[a] == Task(PROBE, In(Cleanup(Timeout(PING))), 1, Some(0));
    assert Apply(s, Run(a)) == RemoveWaiter(s, a, Timeout(PING));
  }
}
