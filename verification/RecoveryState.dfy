/** The watch cell and the cancellation tokens (src/client/recovery.rs), updated in
    place, and their agreement with the supervisor machine through every run. */
module RecoveryStates {
  import opened Recovery
  import opened RecoveryInvariant
  import opened RecoveryTheorems

  /** The token of one connection; `gen` tells tokens apart. */
  class Token {
    ghost const gen: nat
    var cancelled: bool

    constructor (ghost gen: nat, cancelled: bool)
      ensures this.gen == gen && this.cancelled == cancelled
    {
      this.gen := gen;
      this.cancelled := cancelled;
    }
  }

  class RecoveryState {
    var state: Cell
    var version: nat
    var shutdown: bool
    var children: seq<Token>

    ghost predicate TokenOk(s: Sup, i: nat)
      requires i < |children|
      reads this, children[i]
    {
      i < |s.conns| && children[i].gen == i && children[i].cancelled == s.conns[i].cancelled
    }

    ghost predicate Represents(s: Sup)
      reads this, children
    {
      && state == s.cell && version == s.version && shutdown == s.shutdown
      && |children| == |s.conns|
      && forall i: nat {:trigger TokenOk(s, i)} | i < |children| :: TokenOk(s, i)
    }

    constructor ()
      ensures Represents(NEW) && children == []
    {
      state, version, shutdown, children := Offline, 0, false, [];
    }

    /** `shutdown.child_token()`: a child of a cancelled token is born cancelled. */
    method ChildToken(ghost s: Sup, ghost a: ActorId) returns (token: Token)
      requires Represents(s) && a in s.actors && s.actors[a] == Runner(Creating)
      modifies this
      ensures Represents(AdvanceRunner(s, a, Creating)) && fresh(token) && children == old(children) + [token]
    {
      token := new Token(|children|, shutdown);
      label created:
      children := children + [token];
      ghost var s' := AdvanceRunner(s, a, Creating);
      forall i: nat | i < |children| ensures TokenOk(s', i) {
        if i < |children| - 1 { assert old@created(TokenOk(s, i)); }
      }
    }

    /** `connected`: readiness is published only for a connection that still works. */
    method Connected(ghost s: Sup, gen: nat) returns (published: bool)
      requires Represents(s) && gen < |children|
      modifies this
      ensures published <==> !s.cell.Stopped? && !s.conns[gen].cancelled
      ensures Represents(if published then Set(UpdateConn(s, gen, s.conns[gen].(published := true)), Ready(gen)) else s)
      ensures children == old(children)
    {
      assert TokenOk(s, gen);
      published := !state.Stopped? && !children[gen].cancelled;
      if published {
        state, version := Ready(gen), version + 1;
        forall i: nat | i < |children| ensures TokenOk(Set(UpdateConn(s, gen, s.conns[gen].(published := true)),
                                                           Ready(gen)), i) {
          assert old(TokenOk(s, i));
        }
      } else {
        assert s.cell.Stopped? || s.conns[gen].cancelled;
      }
    }

    method GoOffline(ghost s: Sup)
      requires Represents(s)
      modifies this
      ensures Represents(Recovery.GoOffline(s)) && children == old(children)
    {
      if !state.Stopped? {
        state, version := Offline, version + 1;
      }
      forall i: nat | i < |children| ensures TokenOk(Recovery.GoOffline(s), i) { assert old(TokenOk(s, i)); }
    }

    /** `stop`, first half: cancelling the token reaches its children. */
    method CancelShutdown(ghost s: Sup)
      requires Represents(s)
      modifies this, children
      ensures Represents(CancelAll(s)) && children == old(children)
    {
      shutdown := true;
      forall i | 0 <= i < |children| {
        children[i].cancelled := true;
      }
      forall i: nat | i < |children| ensures TokenOk(CancelAll(s), i) { assert old(TokenOk(s, i)); }
    }

    /** `stop`, second half. */
    method ReplaceStopped(ghost s: Sup)
      requires Represents(s)
      modifies this
      ensures Represents(Set(s, Stopped)) && children == old(children)
    {
      state, version := Stopped, version + 1;
      forall i: nat | i < |children| ensures TokenOk(Set(s, Stopped), i) { assert old(TokenOk(s, i)); }
    }

    method CancelConnection(ghost s: Sup, gen: nat)
      requires Represents(s) && gen < |children|
      modifies children
      ensures gen < |s.conns| && Represents(UpdateConn(s, gen, s.conns[gen].(cancelled := true)))
    {
      assert TokenOk(s, gen);
      children[gen].cancelled := true;
      forall i: nat | i < |children| ensures TokenOk(UpdateConn(s, gen, s.conns[gen].(cancelled := true)), i) {
        assert old(TokenOk(s, i)) && old(TokenOk(s, gen));
      }
    }

    /** One turn of the loop in `current`, on the value it has borrowed. */
    method ExamineValue(ghost s: Sup, seen: nat, value: Cell) returns (next: WaitPc)
      requires Represents(s) && (value.Ready? ==> value.gen < |children|)
      ensures next == Examine(s, seen, value)
    {
      match value
      case Ready(gen) =>
        assert TokenOk(s, gen);
        next := if !children[gen].cancelled then Resolved(gen) else Parked(seen);
      case Stopped =>
        next := Refused;
      case Offline =>
        next := Parked(seen);
    }

    /** Program points, locks and workers are not in the shared state. */
    lemma Elsewhere(s: Sup, s': Sup)
      requires Represents(s) && s'.cell == s.cell && s'.version == s.version && s'.shutdown == s.shutdown &&
               |s'.conns| == |s.conns|
      requires forall i: nat | i < |s.conns| :: s'.conns[i].cancelled == s.conns[i].cancelled
      ensures Represents(s')
    {
      forall i: nat | i < |children| ensures TokenOk(s', i) { assert TokenOk(s, i); }
    }
  }

  /** A runner's step. */
  method AdvanceRunnerOn(st: RecoveryState, s: Sup, a: ActorId, pc: RunnerPc) returns (made: seq<Token>)
    requires st.Represents(s) && a in s.actors && s.actors[a] == Runner(pc) && GenOk(s, pc) && !pc.Attempting? &&
             !pc.RunOver?
    modifies st, st.children
    ensures st.Represents(AdvanceRunner(s, a, pc)) && fresh(made) && st.children == old(st.children) + made
  {
    made := [];
    ghost var s' := AdvanceRunner(s, a, pc);
    if pc.Creating? {
      var token := st.ChildToken(s, a);
      made := [token];
    } else if pc.GoingOffline? {
      st.GoOffline(s);
      st.Elsewhere(Recovery.GoOffline(s), s');
    } else if pc.Cancelling? {
      st.CancelConnection(s, pc.gen);
      st.Elsewhere(UpdateConn(s, pc.gen, s.conns[pc.gen].(cancelled := true)), s');
    } else if pc.GuardCancelling? {
      st.CancelShutdown(s);
      st.Elsewhere(CancelAll(s), s');
    } else if pc.GuardReplacing? {
      st.ReplaceStopped(s);
      st.Elsewhere(Set(s, Stopped), s');
    } else {
      st.Elsewhere(s, s');
    }
  }

  method AdvanceStopOn(st: RecoveryState, s: Sup, stop: StopPc)
    requires st.Represents(s) && !stop.StopOver?
    modifies st, st.children
    ensures st.Represents(AdvanceStop(s, stop).0) && st.children == old(st.children)
  {
    if stop.StopCancelling? {
      st.CancelShutdown(s);
    } else {
      st.ReplaceStopped(s);
    }
  }

  /** A step of a guard, of `disconnect` or of a waiting sender. */
  method AdvanceOtherOn(st: RecoveryState, s: Sup, a: ActorId)
    requires Inv(s) && Enabled(s, Advance(a)) && st.Represents(s) && !s.actors[a].Runner?
    modifies st, st.children
    ensures st.Represents(Apply(s, Advance(a))) && st.children == old(st.children)
  {
    ghost var s' := Apply(s, Advance(a));
    match s.actors[a]
    case Guard(stop) =>
      AdvanceStopOn(st, s, stop);
      st.Elsewhere(AdvanceStop(s, stop).0, s');
    case Disconnecter(pc) =>
      if pc.DisconnectStop? && !pc.stop.StopOver? {
        AdvanceStopOn(st, s, pc.stop);
        st.Elsewhere(AdvanceStop(s, pc.stop).0, s');
      } else {
        st.Elsewhere(s, s');
      }
    case Waiter(pc) =>
      if pc.Examining? {
        var next := st.ExamineValue(s, pc.seen, pc.value);
        assert s'.actors[a] == Waiter(next);
      }
      st.Elsewhere(s, s');
  }

  /** Any step, on the shared state. */
  method Step(st: RecoveryState, s: Sup, l: Label) returns (made: seq<Token>)
    requires Inv(s) && Enabled(s, l) && st.Represents(s)
    modifies st, st.children
    ensures st.Represents(Apply(s, l)) && fresh(made) && st.children == old(st.children) + made
  {
    made := [];
    ghost var s' := Apply(s, l);
    match l
    case Advance(a) =>
      if s.actors[a].Runner? {
        made := AdvanceRunnerOn(st, s, a, s.actors[a].run);
      } else {
        AdvanceOtherOn(st, s, a);
      }
    case Publish(a) =>
      var gen := s.actors[a].run.gen;
      var published := st.Connected(s, gen);
      st.Elsewhere(if published then Set(UpdateConn(s, gen, s.conns[gen].(published := true)), Ready(gen)) else s, s');
    case CancelConn(gen) =>
      st.CancelConnection(s, gen);
    case _ =>
      st.Elsewhere(s, s');
  }

  /** The same in-place state, driven through any run, always represents the supervisor's. */
  method Execute(ss: seq<Sup>, ls: seq<Label>) returns (st: RecoveryState)
    requires IsRun(ss, ls)
    ensures st.Represents(ss[|ls|])
  {
    st := new RecoveryState();
    var i := 0;
    while i < |ls|
      invariant i <= |ls| && st.Represents(ss[i]) && fresh(st) && fresh(st.children)
    {
      RunKeepsInv(ss, ls, i);
      assert IsStep(ss[i], ls[i], ss[i + 1]);
      var _ := Step(st, ss[i], ls[i]);
      i := i + 1;
    }
  }
}
