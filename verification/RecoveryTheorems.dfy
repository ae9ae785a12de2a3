/** What recovery and supervision guarantee in every run. */
module RecoveryTheorems {
  import opened Recovery
  import opened RecoveryInvariant

  ghost predicate IsStep(s: Sup, l: Label, s': Sup) {
    Enabled(s, l) && s' == Apply(s, l)
  }

  ghost predicate IsRun(ss: seq<Sup>, ls: seq<Label>) {
    |ss| == |ls| + 1 && ss[0] == NEW && forall i | 0 <= i < |ls| :: IsStep(ss[i], ls[i], ss[i + 1])
  }

  lemma {:induction false} RunKeepsInv(ss: seq<Sup>, ls: seq<Label>, i: nat)
    requires IsRun(ss, ls) && i <= |ls|
    ensures Inv(ss[i])
  {
    if i == 0 {
      NewInv();
    } else {
      RunKeepsInv(ss, ls, i - 1);
      assert IsStep(ss[i - 1], ls[i - 1], ss[i - 1 + 1]);
      StepKeepsInv(ss[i - 1], ls[i - 1]);
    }
  }

  // ---- What only grows ----

  ghost predicate Grows(s: Sup, s': Sup) {
    && |s.conns| <= |s'.conns|
    && (forall gen: nat {:trigger s'.conns[gen]} | gen < |s.conns| ::
          (s.conns[gen].cancelled ==> s'.conns[gen].cancelled) && (s.conns[gen].published ==> s'.conns[gen].published))
    && (s.shutdown ==> s'.shutdown)
    && (s.cell.Stopped? ==> s'.cell.Stopped?)
  }

  lemma RunnerGrows(s: Sup, a: ActorId, pc: RunnerPc)
    requires GenOk(s, pc) && !pc.Attempting? && !pc.RunOver? && (pc.GuardReplacing? ==> s.shutdown)
    ensures Grows(s, AdvanceRunner(s, a, pc))
  {
  }

  lemma StepGrows(s: Sup, l: Label)
    requires Inv(s) && Enabled(s, l)
    ensures Grows(s, Apply(s, l))
  {
    if l.Advance? {
      assert ActorOk(s, l.a);
      if s.actors[l.a].Runner? {
        RunnerGrows(s, l.a, s.actors[l.a].run);
      }
    }
  }

  // ---- Wake-ups ----

  /** No lost wake-up: a sender parked in `current()` either can wake now, or has seen
      the current version and there is nothing for it to see: the state is not
      `Stopped`, and not a connection that still works. If shutdown has begun, then
      somebody is half way through `stop()`, and completing it wakes the sender. */
  lemma NoLostWakeUp(ss: seq<Sup>, ls: seq<Label>, i: nat, a: ActorId)
    requires IsRun(ss, ls) && i <= |ls| && a in ss[i].actors && ss[i].actors[a].Waiter? && ss[i].actors[a].wait.Parked?
    ensures var s := ss[i];
      Enabled(s, Woken(a)) || (s.actors[a].wait.seen == s.version && NothingToSee(s, s.cell))
    ensures var s := ss[i];
      s.shutdown && !Enabled(s, Woken(a)) ==>
        exists b :: b in s.actors && b != a && Enabled(s, Advance(b)) && Apply(s, Advance(b)).cell == Stopped &&
                    Enabled(Apply(s, Advance(b)), Woken(a))
  {
    var s := ss[i];
    RunKeepsInv(ss, ls, i);
    assert ActorOk(s, a);
    if s.shutdown && !Enabled(s, Woken(a)) {
      var b :| b in s.actors && MidStop(s.actors[b]);
      assert Enabled(s, Advance(b)) && Apply(s, Advance(b)).cell == Stopped && Enabled(Apply(s, Advance(b)), Woken(a));
    }
  }

  /** `current()` only returns a connection that was published. */
  lemma ResolvedWasPublished(ss: seq<Sup>, ls: seq<Label>, i: nat, a: ActorId)
    requires IsRun(ss, ls) && i <= |ls| && a in ss[i].actors &&
             ss[i].actors[a].Waiter? && ss[i].actors[a].wait.Resolved?
    ensures ss[i].actors[a].wait.gen < |ss[i].conns| && ss[i].conns[ss[i].actors[a].wait.gen].published
  {
    RunKeepsInv(ss, ls, i);
    assert ActorOk(ss[i], a);
  }

  // ---- Generations ----

  /** At most one connection is live, and it is the newest; the published one is the
      newest; after shutdown none is live, whenever it was created. */
  lemma OneLiveGeneration(ss: seq<Sup>, ls: seq<Label>, i: nat)
    requires IsRun(ss, ls) && i <= |ls|
    ensures forall gen: nat | gen < |ss[i].conns| && !ss[i].conns[gen].cancelled ::
              gen + 1 == |ss[i].conns| && !ss[i].shutdown
    ensures ss[i].cell.Ready? ==> ss[i].cell.gen + 1 == |ss[i].conns|
  {
    var s := ss[i];
    RunKeepsInv(ss, ls, i);
    Live(s);
  }

  lemma Live(s: Sup)
    requires Inv(s)
    ensures forall gen: nat | gen < |s.conns| && !s.conns[gen].cancelled :: gen + 1 == |s.conns| && !s.shutdown
    ensures s.cell.Ready? ==> s.cell.gen + 1 == |s.conns|
  {
    assert s.runLock.Some? ==> ActorOk(s, s.runLock.value);
    forall gen: nat | gen < |s.conns| && !s.conns[gen].cancelled ensures gen + 1 == |s.conns| && !s.shutdown {
      assert ConnOk(s, gen);
    }
  }

  // ---- Shutdown ----

  /** `Stopped` is absorbing, and cancelled handlers imply it. */
  lemma {:induction false} StoppedIsAbsorbing(ss: seq<Sup>, ls: seq<Label>, i: nat, j: nat)
    requires IsRun(ss, ls) && i <= j <= |ls| && (ss[i].cell.Stopped? || ss[i].handlerShutdown)
    ensures ss[j].cell.Stopped?
  {
    RunKeepsInv(ss, ls, i);
    if i < j {
      StoppedIsAbsorbing(ss, ls, i, j - 1);
      RunKeepsInv(ss, ls, j - 1);
      assert IsStep(ss[j - 1], ls[j - 1], ss[j - 1 + 1]);
      StepGrows(ss[j - 1], ls[j - 1]);
    }
  }

  /** Without a supervising runner every connection is closed for good. */
  lemma SettledIsQuiet(s: Sup)
    requires Inv(s) && Settled(s)
    ensures forall gen: nat | gen < |s.conns| :: s.conns[gen].cancelled && !s.conns[gen].sink && !s.conns[gen].workers
  {
    forall gen: nat | gen < |s.conns| ensures s.conns[gen].cancelled && !s.conns[gen].sink && !s.conns[gen].workers {
      assert ConnOk(s, gen);
    }
  }

  lemma DisconnectedStays(s: Sup, l: Label, a: ActorId)
    requires Inv(s) && Enabled(s, l) && a in s.actors && s.actors[a] == Disconnecter(DisconnectDone)
    ensures var s' := Apply(s, l);
            a in s'.actors && s'.actors[a] == Disconnecter(DisconnectDone) && |s'.conns| == |s.conns|
  {
    assert ActorOk(s, a);
    match l
    case Advance(b) =>
      assert ActorOk(s, b);
      if s.actors[b].Runner? { OtherRunnerStays(s, b, a); }
    case _ =>
  }

  lemma OtherRunnerStays(s: Sup, b: ActorId, a: ActorId)
    requires Enabled(s, Advance(b)) && s.actors[b].Runner? && a in s.actors && a != b && !s.actors[b].run.Creating?
    ensures var s' := AdvanceRunner(s, b, s.actors[b].run);
            a in s'.actors && s'.actors[a] == s.actors[a] && |s'.conns| == |s.conns|
  {
  }

  /** When a `disconnect` has returned, in that state and ever after: every connection
      is cancelled, no attempt has workers or a sink, no attempt is ever made again,
      and message handlers have been told to stop. */
  lemma {:induction false} DisconnectIsFinal(ss: seq<Sup>, ls: seq<Label>, i: nat, j: nat, a: ActorId)
    requires IsRun(ss, ls) && i <= j <= |ls| && a in ss[i].actors && ss[i].actors[a] == Disconnecter(DisconnectDone)
    ensures a in ss[j].actors && ss[j].actors[a] == Disconnecter(DisconnectDone)
    ensures |ss[j].conns| == |ss[i].conns| && ss[j].cell.Stopped? && ss[j].handlerShutdown
    ensures forall gen: nat | gen < |ss[j].conns| ::
              ss[j].conns[gen].cancelled && !ss[j].conns[gen].sink && !ss[j].conns[gen].workers
  {
    if i < j {
      DisconnectIsFinal(ss, ls, i, j - 1, a);
      RunKeepsInv(ss, ls, j - 1);
      assert IsStep(ss[j - 1], ls[j - 1], ss[j - 1 + 1]);
      DisconnectedStays(ss[j - 1], ls[j - 1], a);
    }
    RunKeepsInv(ss, ls, j);
    assert ActorOk(ss[j], a);
    SettledIsQuiet(ss[j]);
  }
}
