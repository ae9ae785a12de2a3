/** `disconnect` can always finish: from every reachable state it takes a few steps of its own
    and of the supervisor it waits for. */
module RecoveryDisconnect {
  import opened Protocol
  import opened Recovery
  import opened RecoveryInvariant
  import opened RecoveryTheorems
  import opened RecoveryProgress

  /** How many steps the holder of the run lock takes at most before it gives the lock up. */
  function HolderRank(s: Sup): nat {
    if s.runLock.None? || s.runLock.value !in s.actors then 0
    else
      match s.actors[s.runLock.value]
      case Runner(pc) => Rank(pc)
      case Disconnecter(DisconnectLocked) => 2
      case Disconnecter(DisconnectUnlocking) => 1
      case _ => 0
  }

  predicate Pending(s: Sup, d: ActorId) {
    d in s.actors && s.actors[d] == Disconnecter(DisconnectStop(StopOver))
  }

  /** Held by a runner or by another `disconnect`, which can go on. */
  function HolderStep(s: Sup): Label
    requires s.runLock.Some? && s.runLock.value in s.actors
  {
    var a := s.runLock.value;
    if s.actors[a].Runner? && s.actors[a].run.Attempting? then AttemptEnds(a, Some(ConnectionClosed)) else Advance(a)
  }

  lemma HolderExists(s: Sup)
    requires Inv(s) && s.runLock.Some?
    ensures s.runLock.value in s.actors && HoldsRunLock(s.actors[s.runLock.value]) && ActorOk(s, s.runLock.value)
  {
  }

  lemma HolderCanStep(s: Sup)
    requires Inv(s) && s.runLock.Some? && s.shutdown
    ensures s.runLock.value in s.actors && Enabled(s, HolderStep(s))
  {
    HolderExists(s);
  }

  /** A runner that holds the lock keeps it or gives it up. */
  lemma KeepsOrGivesUp(s: Sup, a: ActorId)
    requires s.runLock == Some(a) && a in s.actors && s.actors[a].Runner? && Enabled(s, HolderStep(s))
    ensures var s' := Apply(s, HolderStep(s)); s'.runLock.None? || s'.runLock == Some(a)
    ensures s.shutdown ==> Apply(s, HolderStep(s)).shutdown
  {
  }

  lemma RunnerGivesWay(s: Sup, a: ActorId, d: ActorId)
    requires Inv(s) && s.runLock == Some(a) && s.shutdown && a in s.actors && s.actors[a].Runner? && Pending(s, d)
    requires Enabled(s, HolderStep(s))
    ensures HolderRank(Apply(s, HolderStep(s))) < HolderRank(s) && Apply(s, HolderStep(s)).shutdown
    ensures Pending(Apply(s, HolderStep(s)), d)
  {
    HolderExists(s);
    KeepsOrGivesUp(s, a);
    RunnerLeaves(s, a, d);
    hide Inv, AdvanceRunner, Apply, Enabled;
    if s.actors[a].run.Attempting? {
      AttemptStepsDown(s, HolderStep(s));
    } else {
      RunnerStepsDown(s, a);
    }
  }

  lemma RunnerLeaves(s: Sup, a: ActorId, d: ActorId)
    requires s.runLock == Some(a) && a in s.actors && s.actors[a].Runner? && Pending(s, d) && Enabled(s, HolderStep(s))
    ensures Pending(Apply(s, HolderStep(s)), d)
    ensures a in Apply(s, HolderStep(s)).actors && Apply(s, HolderStep(s)).actors[a].Runner?
  {
    if !s.actors[a].run.Attempting? {
      RunnerMovesItself(s, a, d);
    }
  }

  lemma OtherGivesWay(s: Sup, a: ActorId, d: ActorId)
    requires Inv(s) && s.runLock == Some(a) && s.shutdown && a in s.actors && !s.actors[a].Runner? && Pending(s, d)
    requires Enabled(s, HolderStep(s))
    ensures HolderRank(Apply(s, HolderStep(s))) < HolderRank(s) && Apply(s, HolderStep(s)).shutdown
    ensures Pending(Apply(s, HolderStep(s)), d)
  {
    HolderExists(s);
    hide Inv;
  }

  lemma {:induction false} HolderFinishes(s: Sup, d: ActorId) returns (ls: seq<Label>, e: Sup)
    requires Inv(s) && s.shutdown && Pending(s, d)
    ensures Possible(s, ls, e) && |ls| <= HolderRank(s) && e.runLock.None? && Pending(e, d)
    decreases HolderRank(s)
  {
    hide Inv, Apply, Enabled;
    if s.runLock.None? {
      ls, e := [], s;
    } else {
      HolderCanStep(s);
      var l := HolderStep(s);
      if s.actors[s.runLock.value].Runner? {
        RunnerGivesWay(s, s.runLock.value, d);
      } else {
        OtherGivesWay(s, s.runLock.value, d);
      }
      StepKeepsInv(s, l);
      var rest;
      rest, e := HolderFinishes(Apply(s, l), d);
      ls := [l] + rest;
      assert ls[1..] == rest;
    }
  }

  /** `stop`, and then the wait for the lock. */
  lemma Requests(s: Sup, d: ActorId) returns (ls: seq<Label>, e: Sup)
    requires Inv(s) && d !in s.actors
    ensures Possible(s, ls, e) && |ls| == 3 && Inv(e) && e.shutdown && e.cell == Stopped && Pending(e, d)
  {
    var start := Start(d, Disconnecter(DisconnectStop(StopCancelling)));
    ls := [start, Advance(d), Advance(d)];
    var s1 := Apply(s, start);
    StepKeepsInv(s, start);
    var s2 := Apply(s1, Advance(d));
    StepKeepsInv(s1, Advance(d));
    e := Apply(s2, Advance(d));
    StepKeepsInv(s2, Advance(d));
    hide Inv;
    assert ls[1..] == [Advance(d), Advance(d)] && ls[2..] == [Advance(d)];
    assert Possible(s2, [Advance(d)], e);
    assert Possible(s1, [Advance(d), Advance(d)], e);
  }

  lemma Completes(s: Sup, d: ActorId) returns (ls: seq<Label>, e: Sup)
    requires Pending(s, d) && s.runLock.None?
    ensures Possible(s, ls, e) && |ls| == 3 && d in e.actors && e.actors[d] == Disconnecter(DisconnectDone)
  {
    ls := [Advance(d), Advance(d), Advance(d)];
    var s1 := Apply(s, Advance(d));
    var s2 := Apply(s1, Advance(d));
    e := Apply(s2, Advance(d));
    assert ls[1..] == [Advance(d), Advance(d)] && ls[2..] == [Advance(d)];
    assert Possible(s2, [Advance(d)], e);
    assert Possible(s1, [Advance(d), Advance(d)], e);
  }

  lemma {:induction false} PossibleOn(s: Sup, ls: seq<Label>, m: Sup, more: seq<Label>, e: Sup)
    requires Possible(s, ls, m) && Possible(m, more, e)
    ensures Possible(s, ls + more, e)
    decreases |ls|
  {
    hide Apply, Enabled;
    if ls == [] {
      assert ls + more == more;
    } else {
      PossibleOn(Apply(s, ls[0]), ls[1..], m, more, e);
      assert (ls + more)[1..] == ls[1..] + more;
    }
  }

  /** From every reachable state a new `disconnect` can stop the client in three steps, the
      holder of the run lock, if there is one, gives it up within fourteen steps of its own,
      and three more steps complete the call (DisconnectIsFinal says what that means). */
  lemma DisconnectCanReturn(ss: seq<Sup>, ls: seq<Label>, i: nat, d: ActorId)
    returns (request: seq<Label>, stopped: Sup, more: seq<Label>, e: Sup)
    requires IsRun(ss, ls) && i <= |ls| && d !in ss[i].actors
    ensures Possible(ss[i], request, stopped) && |request| == 3 && stopped.shutdown && stopped.cell == Stopped
    ensures Possible(stopped, more, e) && |more| <= 17
    ensures d in e.actors && e.actors[d] == Disconnecter(DisconnectDone)
  {
    hide Inv, Apply, Enabled;
    RunKeepsInv(ss, ls, i);
    request, stopped := Requests(ss[i], d);
    var waiting, free := HolderFinishes(stopped, d);
    AtMostFourteen(stopped);
    var rest;
    rest, e := Completes(free, d);
    PossibleOn(stopped, waiting, free, rest, e);
    more := waiting + rest;
  }

  /** And the guard of a dropped `run` stops the client in three steps. */
  lemma DroppedRunStops(ss: seq<Sup>, ls: seq<Label>, i: nat, g: ActorId) returns (more: seq<Label>, e: Sup)
    requires IsRun(ss, ls) && i <= |ls| && g !in ss[i].actors
    ensures Possible(ss[i], more, e) && |more| == 3 && e.shutdown && e.cell == Stopped
    ensures forall gen: nat | gen < |e.conns| :: e.conns[gen].cancelled
  {
    var start := Start(g, Guard(StopCancelling));
    more := [start, Advance(g), Advance(g)];
    var s1 := Apply(ss[i], start);
    var s2 := Apply(s1, Advance(g));
    e := Apply(s2, Advance(g));
    assert more[1..] == [Advance(g), Advance(g)] && more[2..] == [Advance(g)];
    assert Possible(s2, [Advance(g)], e);
    assert Possible(s1, [Advance(g), Advance(g)], e);
  }

  lemma AtMostFourteen(s: Sup)
    ensures HolderRank(s) <= 14
  {
  }
}
