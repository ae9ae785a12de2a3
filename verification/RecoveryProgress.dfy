/** What the supervisor does, not only what it never does: when it reconnects, when it
    stops, and how few steps it takes for either. */
module RecoveryProgress {
  import opened Protocol
  import opened Recovery
  import opened RecoveryInvariant
  import opened RecoveryTheorems

  // ---- Retry or stop ----

  /** Step l ends the attempt of runner a with this result; losing the race against
      `stop`, or against the connection's end, at `connected` counts as a lost connection. */
  predicate EndsAttempt(s: Sup, l: Label, a: ActorId, result: Option<Error>) {
    || l == AttemptEnds(a, result)
    || (l == Publish(a) && result == Some(ConnectionClosed) && a in s.actors && s.actors[a].Runner? &&
        s.actors[a].run.Attempting? && GenOk(s, s.actors[a].run) &&
        (s.cell.Stopped? || s.conns[s.actors[a].run.gen].cancelled))
  }

  /** The result a runner carries through the closing of its attempt. */
  function Carried(pc: RunnerPc): Option<Option<Error>> {
    match pc
    case GoingOffline(_, result) => Some(result)
    case Cancelling(_, result) => Some(result)
    case Joining(_, result) => Some(result)
    case TakingSink(_, result) => Some(result)
    case Deciding(result) => Some(result)
    case _ => None
  }

  predicate Carries(s: Sup, a: ActorId, result: Option<Error>) {
    a in s.actors && s.actors[a].Runner? && Carried(s.actors[a].run) == Some(result)
  }

  lemma CarriedOn(s: Sup, l: Label, a: ActorId, result: Option<Error>)
    requires Enabled(s, l) && Carries(Apply(s, l), a, result)
    ensures Carries(s, a, result) || EndsAttempt(s, l, a, result)
  {
    if l.Advance? && s.actors[l.a].Runner? {
      if l.a == a {
        RunnerCarriesOn(s, a, result);
      } else {
        RunnerMovesItself(s, l.a, a);
      }
      hide AdvanceRunner;
    } else {
      OtherCarriesOn(s, l, a, result);
    }
  }

  lemma RunnerCarriesOn(s: Sup, a: ActorId, result: Option<Error>)
    requires Enabled(s, Advance(a)) && s.actors[a].Runner? && Carries(AdvanceRunner(s, a, s.actors[a].run), a, result)
    ensures Carries(s, a, result)
  {
  }

  lemma OtherCarriesOn(s: Sup, l: Label, a: ActorId, result: Option<Error>)
    requires Enabled(s, l) && Carries(Apply(s, l), a, result) && !(l.Advance? && s.actors[l.a].Runner?)
    ensures Carries(s, a, result) || EndsAttempt(s, l, a, result)
  {
  }

  lemma RunnerMovesItself(s: Sup, b: ActorId, a: ActorId)
    requires Enabled(s, Advance(b)) && s.actors[b].Runner? && a != b
    ensures var s' := AdvanceRunner(s, b, s.actors[b].run);
      (a in s'.actors <==> a in s.actors) && (a in s.actors ==> s'.actors[a] == s.actors[a])
  {
  }

  /** What a runner carries is the result of the attempt it made. */
  lemma {:induction false} CarriedResultIsReal(ss: seq<Sup>, ls: seq<Label>, i: nat, a: ActorId, result: Option<Error>)
    returns (j: nat)
    requires IsRun(ss, ls) && i <= |ls| && Carries(ss[i], a, result)
    ensures j < i && EndsAttempt(ss[j], ls[j], a, result)
    ensures forall k | j < k <= i :: Carries(ss[k], a, result)
  {
    assert i > 0;
    assert IsStep(ss[i - 1], ls[i - 1], ss[i - 1 + 1]);
    CarriedOn(ss[i - 1], ls[i - 1], a, result);
    if Carries(ss[i - 1], a, result) {
      j := CarriedResultIsReal(ss, ls, i - 1, a, result);
    } else {
      j := i - 1;
    }
  }

  /** After an attempt the runner sleeps and goes on exactly when shutdown has not been
      requested and the attempt's own result is recoverable; else it stops the client. */
  lemma RetriesExactly(ss: seq<Sup>, ls: seq<Label>, i: nat, a: ActorId, result: Option<Error>) returns (j: nat)
    requires IsRun(ss, ls) && i < |ls| && ls[i] == Advance(a)
    requires a in ss[i].actors && ss[i].actors[a] == Runner(Deciding(result))
    ensures j < i && EndsAttempt(ss[j], ls[j], a, result)
    ensures a in ss[i + 1].actors
    ensures ss[i + 1].actors[a] == Runner(if !ss[i].shutdown && Recoverable(result) then Sleeping else GuardCancelling)
  {
    j := CarriedResultIsReal(ss, ls, i, a, result);
    assert IsStep(ss[i], ls[i], ss[i + 1]);
  }

  predicate Stopping(s: Sup, a: ActorId) {
    a in s.actors && s.actors[a] == Runner(GuardCancelling)
  }

  lemma StopsFor(s: Sup, l: Label, a: ActorId)
    requires Enabled(s, l) && Stopping(Apply(s, l), a) && !Stopping(s, a)
    ensures l == Advance(a) && a in s.actors && s.actors[a].Runner?
    ensures s.shutdown || (s.actors[a].run.Deciding? && !Recoverable(s.actors[a].run.result))
  {
    if l.Advance? && l.a != a && s.actors[l.a].Runner? {
      RunnerMovesItself(s, l.a, a);
    }
  }

  /** A runner stops the client only if shutdown was requested when it looked, or its last
      attempt ended with an error that is not recoverable. */
  lemma StopsOnlyFor(ss: seq<Sup>, ls: seq<Label>, i: nat, a: ActorId)
    requires IsRun(ss, ls) && i < |ls| && Stopping(ss[i + 1], a) && !Stopping(ss[i], a)
    ensures ss[i].shutdown ||
            exists j: nat, result :: j < i && EndsAttempt(ss[j], ls[j], a, result) && !Recoverable(result) &&
                                     forall k | j < k <= i :: Carries(ss[k], a, result)
  {
    assert IsStep(ss[i], ls[i], ss[i + 1]);
    StopsFor(ss[i], ls[i], a);
    if !ss[i].shutdown {
      var result := ss[i].actors[a].run.result;
      var j := CarriedResultIsReal(ss, ls, i, a, result);
    }
  }

  // ---- Reconnecting is possible, and takes five steps ----

  /** The schedule ls, of steps of runner a only, leads from s to e. */
  predicate Leads(s: Sup, a: ActorId, ls: seq<Label>, e: Sup)
    decreases |ls|
  {
    if ls == [] then s == e
    else Enabled(s, ls[0]) && (ls[0] == Advance(a) || ls[0] == Woken(a)) && Leads(Apply(s, ls[0]), a, ls[1..], e)
  }

  /** Program points from which a runner goes on to its next connection, and how far it is. */
  function Ahead(s: Sup, pc: RunnerPc): Option<nat> {
    match pc
    case Deciding(result) => if Recoverable(result) then Some(5) else None
    case Sleeping => Some(4)
    case Locking => if s.runLock.None? then Some(5) else None
    case Checking => Some(4)
    case LoopTop => Some(3)
    case Beginning => Some(2)
    case Creating => Some(1)
    case _ => None
  }

  /** The next connection: made live, by a runner that starts to connect it. */
  predicate NextConnection(s: Sup, a: ActorId, e: Sup) {
    && e.conns == s.conns + [Conn(false, false, false, false)] && e.cell == s.cell && e.actors.Keys == s.actors.Keys
    && a in e.actors && e.actors[a] == Runner(Attempting(|s.conns|, Connecting)) && !e.shutdown
  }

  predicate GoesAhead(s: Sup, a: ActorId) {
    a in s.actors && s.actors[a].Runner? && !s.shutdown && Ahead(s, s.actors[a].run).Some?
  }

  function AheadOf(s: Sup, a: ActorId): nat
    requires GoesAhead(s, a)
  {
    Ahead(s, s.actors[a].run).value
  }

  function NextStep(s: Sup, a: ActorId): Label
    requires a in s.actors
  {
    if s.actors[a] == Runner(Sleeping) then Woken(a) else Advance(a)
  }

  lemma OneAhead(s: Sup, a: ActorId)
    requires GoesAhead(s, a)
    ensures Enabled(s, NextStep(s, a))
    ensures var s' := Apply(s, NextStep(s, a));
      if AheadOf(s, a) == 1 then NextConnection(s, a, s')
      else GoesAhead(s', a) && AheadOf(s', a) == AheadOf(s, a) - 1 &&
           s'.conns == s.conns && s'.cell == s.cell && s'.actors.Keys == s.actors.Keys
  {
  }

  lemma {:induction false} GoAhead(s: Sup, a: ActorId) returns (ls: seq<Label>, e: Sup)
    requires GoesAhead(s, a)
    ensures Leads(s, a, ls, e) && |ls| == AheadOf(s, a) && NextConnection(s, a, e)
    decreases AheadOf(s, a)
  {
    OneAhead(s, a);
    var l, s' := NextStep(s, a), Apply(s, NextStep(s, a));
    var rest;
    if AheadOf(s, a) == 1 {
      rest, e := [], s';
    } else {
      rest, e := GoAhead(s', a);
    }
    ls := [l] + rest;
    assert ls[1..] == rest;
  }

  /** Unless shutdown is requested, five steps of its own lead a runner from the end of a
      recoverable attempt to its next live connection. */
  lemma Reconnects(ss: seq<Sup>, ls: seq<Label>, i: nat, a: ActorId, result: Option<Error>)
    returns (more: seq<Label>, e: Sup)
    requires IsRun(ss, ls) && i <= |ls| && !ss[i].shutdown
    requires a in ss[i].actors && ss[i].actors[a] == Runner(Deciding(result)) && Recoverable(result)
    ensures Leads(ss[i], a, more, e) && |more| == 5 && NextConnection(ss[i], a, e)
  {
    more, e := GoAhead(ss[i], a);
  }

  /** And five lead a `run` that finds the lock free to its first. */
  lemma Starts(ss: seq<Sup>, ls: seq<Label>, i: nat, a: ActorId) returns (more: seq<Label>, e: Sup)
    requires IsRun(ss, ls) && i <= |ls| && !ss[i].shutdown && ss[i].runLock.None?
    requires a in ss[i].actors && ss[i].actors[a] == Runner(Locking)
    ensures Leads(ss[i], a, more, e) && |more| == 5 && NextConnection(ss[i], a, e)
  {
    more, e := GoAhead(ss[i], a);
  }

  /** These steps can be taken one after the other, and lead from s to e. */
  predicate Possible(s: Sup, ls: seq<Label>, e: Sup)
    decreases |ls|
  {
    if ls == [] then s == e else Enabled(s, ls[0]) && Possible(Apply(s, ls[0]), ls[1..], e)
  }

  lemma {:induction false} LeadsOn(s: Sup, a: ActorId, ls: seq<Label>, m: Sup, more: seq<Label>, e: Sup)
    requires Leads(s, a, ls, m) && Possible(m, more, e)
    ensures Possible(s, ls + more, e)
    decreases |ls|
  {
    if ls == [] {
      assert ls + more == more;
    } else {
      LeadsOn(Apply(s, ls[0]), a, ls[1..], m, more, e);
      assert (ls + more)[1..] == ls[1..] + more;
    }
  }

  /** The connection is open, logged in and published. */
  lemma Publishes(s: Sup, a: ActorId, gen: nat) returns (e: Sup)
    requires a in s.actors && s.actors[a] == Runner(Attempting(gen, Connecting)) && gen < |s.conns|
    requires !s.conns[gen].cancelled && !s.cell.Stopped?
    ensures Enabled(s, Opened(a)) && Enabled(Apply(s, Opened(a)), Publish(a))
    ensures e == Apply(Apply(s, Opened(a)), Publish(a)) && e.cell == Ready(gen) && e.actors.Keys == s.actors.Keys
    ensures e.actors[a] == Runner(Attempting(gen, Dispatching)) && |e.conns| == |s.conns|
    ensures e.conns[gen] == Conn(false, true, true, true)
  {
    e := Apply(Apply(s, Opened(a)), Publish(a));
  }

  /** A sender that asks while a working connection is published gets it at once. */
  lemma Serves(s: Sup, b: ActorId, gen: nat) returns (ls: seq<Label>, e: Sup)
    requires b !in s.actors && s.cell == Ready(gen) && gen < |s.conns| && !s.conns[gen].cancelled
    ensures Possible(s, ls, e) && |ls| == 4 && b in e.actors && e.actors[b] == Waiter(Resolved(gen))
    ensures e == s.(actors := s.actors[b := Waiter(Resolved(gen))])
  {
    var start := Start(b, Waiter(Subscribing));
    ls := [start, Advance(b), Advance(b), Advance(b)];
    var s1 := Apply(s, start);
    assert s1.actors[b] == Waiter(Subscribing);
    var s2 := Apply(s1, Advance(b));
    assert s2.actors[b] == Waiter(Borrowing);
    var s3 := Apply(s2, Advance(b));
    assert s3.actors[b] == Waiter(Examining(s.version, Ready(gen)));
    e := Apply(s3, Advance(b));
    assert ls[1..] == [Advance(b), Advance(b), Advance(b)] &&
           ls[2..] == [Advance(b), Advance(b)] && ls[3..] == [Advance(b)];
    assert Possible(s3, [Advance(b)], e);
    assert Possible(s2, [Advance(b), Advance(b)], e);
    assert Possible(s1, [Advance(b), Advance(b), Advance(b)], e);
  }

  /** The whole way: five steps after a recoverable attempt the client connects again, two
      later the new connection is published, and four later a new sender has it. */
  lemma ReconnectServesSenders(ss: seq<Sup>, ls: seq<Label>, i: nat, a: ActorId, result: Option<Error>, b: ActorId)
    returns (more: seq<Label>, e: Sup)
    requires IsRun(ss, ls) && i <= |ls| && !ss[i].shutdown && b !in ss[i].actors
    requires a in ss[i].actors && ss[i].actors[a] == Runner(Deciding(result)) && Recoverable(result)
    ensures Possible(ss[i], more, e) && |more| == 11
    ensures var gen := |ss[i].conns|;
      && e.cell == Ready(gen) && |e.conns| == gen + 1 && e.conns[gen] == Conn(false, true, true, true)
      && a in e.actors && e.actors[a] == Runner(Attempting(gen, Dispatching))
      && b in e.actors && e.actors[b] == Waiter(Resolved(gen))
  {
    hide Apply, Enabled, Inv;
    var gen := |ss[i].conns|;
    NotStopped(ss, ls, i);
    var first, s1 := Reconnects(ss, ls, i, a, result);
    var s2 := Publishes(s1, a, gen);
    var last;
    last, e := Serves(s2, b, gen);
    PossibleTwo(s1, Opened(a), Publish(a), last, e);
    LeadsOn(ss[i], a, first, s1, [Opened(a), Publish(a)] + last, e);
    more := first + ([Opened(a), Publish(a)] + last);
  }

  lemma NotStopped(ss: seq<Sup>, ls: seq<Label>, i: nat)
    requires IsRun(ss, ls) && i <= |ls| && !ss[i].shutdown
    ensures !ss[i].cell.Stopped?
  {
    RunKeepsInv(ss, ls, i);
  }

  lemma PossibleTwo(s: Sup, k: Label, l: Label, more: seq<Label>, e: Sup)
    requires Enabled(s, k) && Enabled(Apply(s, k), l) && Possible(Apply(Apply(s, k), l), more, e)
    ensures Possible(s, [k, l] + more, e)
  {
    hide Apply, Enabled;
    assert ([k, l] + more)[1..] == [l] + more && ([l] + more)[1..] == more;
    assert Possible(Apply(s, k), [l] + more, e);
  }

  /** A runner whose sleep is cut short by shutdown stops the client. */
  lemma ShutdownWakes(ss: seq<Sup>, ls: seq<Label>, i: nat, a: ActorId)
    requires IsRun(ss, ls) && i < |ls| && a in ss[i].actors &&
             ss[i].actors[a] == Runner(Sleeping) && ls[i] == Advance(a)
    ensures ss[i].shutdown && Stopping(ss[i + 1], a)
  {
    assert IsStep(ss[i], ls[i], ss[i + 1]);
  }

  // ---- Shutdown ends every run ----

  /** How many more steps a runner can take once shutdown is cancelled. */
  function Rank(pc: RunnerPc): nat {
    match pc
    case Locking => 14
    case Checking => 13
    case Creating => 13
    case Attempting(_, stage) => (match stage case Connecting => 12 case Authenticating => 11 case Dispatching => 10)
    case GoingOffline(_, _) => 9
    case Cancelling(_, _) => 8
    case Joining(_, _) => 7
    case TakingSink(_, _) => 6
    case Deciding(_) => 5
    case Sleeping => 6
    case LoopTop => 5
    case Beginning => 5
    case GuardCancelling => 4
    case GuardReplacing => 3
    case DroppingHandlers => 2
    case Unlocking => 1
    case RunOver => 0
  }

  function RankOf(s: Sup, a: ActorId): nat {
    if a in s.actors && s.actors[a].Runner? then Rank(s.actors[a].run) else 0
  }

  /** l is a step of actor a. */
  predicate StepOf(l: Label, a: ActorId) {
    !l.Start? && !l.CancelConn? && l.a == a
  }

  lemma RunnerStepsDown(s: Sup, a: ActorId)
    requires Inv(s) && s.shutdown && Enabled(s, Advance(a)) && s.actors[a].Runner?
    ensures RankOf(Apply(s, Advance(a)), a) < RankOf(s, a)
  {
    hide Inv;
  }

  lemma AttemptStepsDown(s: Sup, l: Label)
    requires Inv(s) && s.shutdown && Enabled(s, l) && (l.Opened? || l.Publish? || l.AttemptEnds?)
    ensures RankOf(Apply(s, l), l.a) < RankOf(s, l.a)
  {
    assert ActorOk(s, l.a);
    if l.Publish? {
      assert ConnOk(s, s.actors[l.a].run.gen);
    }
  }

  lemma StepsDown(s: Sup, l: Label, a: ActorId)
    requires Inv(s) && s.shutdown && Enabled(s, l) && a in s.actors && s.actors[a].Runner?
    ensures RankOf(Apply(s, l), a) + (if StepOf(l, a) then 1 else 0) <= RankOf(s, a)
    ensures a in Apply(s, l).actors && Apply(s, l).actors[a].Runner?
  {
    if l.Advance? && l.a == a {
      RunnerStepsDown(s, a);
    } else if l.Advance? && s.actors[l.a].Runner? {
      RunnerMovesItself(s, l.a, a);
    } else if l.Opened? || l.Publish? || l.AttemptEnds? {
      AttemptStepsDown(s, l);
    }
  }

  /** The steps of a in this stretch of a run. */
  function StepsOf(ls: seq<Label>, i: nat, j: nat, a: ActorId): nat
    requires i <= j <= |ls|
  {
    if i == j then 0 else StepsOf(ls, i, j - 1, a) + (if StepOf(ls[j - 1], a) then 1 else 0)
  }

  lemma {:induction false} RankBoundsSteps(ss: seq<Sup>, ls: seq<Label>, i: nat, j: nat, a: ActorId)
    requires IsRun(ss, ls) && i <= j <= |ls| && ss[i].shutdown && a in ss[i].actors && ss[i].actors[a].Runner?
    ensures ss[j].shutdown && a in ss[j].actors && ss[j].actors[a].Runner?
    ensures StepsOf(ls, i, j, a) + RankOf(ss[j], a) <= RankOf(ss[i], a)
  {
    if i < j {
      RankBoundsSteps(ss, ls, i, j - 1, a);
      RunKeepsInv(ss, ls, j - 1);
      assert IsStep(ss[j - 1], ls[j - 1], ss[j - 1 + 1]);
      StepGrows(ss[j - 1], ls[j - 1]);
      StepsDown(ss[j - 1], ls[j - 1], a);
    }
  }

  /** Once shutdown is cancelled a runner takes at most 14 more steps, and as long as it is
      not over it can take one: so it is over after 14 at the latest, and the lock is free. */
  lemma ShutdownEndsRuns(ss: seq<Sup>, ls: seq<Label>, i: nat, j: nat, a: ActorId)
    requires IsRun(ss, ls) && i <= j <= |ls| && ss[i].shutdown && a in ss[i].actors && ss[i].actors[a].Runner?
    ensures StepsOf(ls, i, j, a) <= 14
    ensures a in ss[j].actors && ss[j].actors[a].Runner?
    ensures !ss[j].actors[a].run.RunOver? ==> exists l :: StepOf(l, a) && Enabled(ss[j], l)
    ensures ss[j].actors[a].run.RunOver? ==> ss[j].runLock != Some(a)
  {
    RankBoundsSteps(ss, ls, i, j, a);
    RunKeepsInv(ss, ls, j);
    assert ActorOk(ss[j], a);
    var l := if ss[j].actors[a].run.Attempting? then AttemptEnds(a, None) else Advance(a);
    if !ss[j].actors[a].run.RunOver? {
      assert StepOf(l, a) && Enabled(ss[j], l);
    }
  }

  // ---- Shutdown and begin_attempt ----

  /** Connections made, and the one a runner is past all checks for. */
  function Due(s: Sup): nat {
    |s.conns| + if s.runLock.Some? && s.runLock.value in s.actors &&
      s.actors[s.runLock.value] == Runner(Creating) then 1 else 0
  }

  lemma NothingMoreIsDue(s: Sup, l: Label)
    requires Inv(s) && s.shutdown && Enabled(s, l)
    ensures Due(Apply(s, l)) <= Due(s) && |s.conns| <= |Apply(s, l).conns|
  {
    StepGrows(s, l);
    if l.Advance? {
      assert ActorOk(s, l.a);
    }
  }

  /** After shutdown at most one more connection is made, and only by a runner that had
      already looked; `OneLiveGeneration` says that it is cancelled from the start. */
  lemma {:induction false} NoAttemptAfterShutdown(ss: seq<Sup>, ls: seq<Label>, i: nat, j: nat)
    requires IsRun(ss, ls) && i <= j <= |ls| && ss[i].shutdown
    ensures ss[j].shutdown && |ss[i].conns| <= |ss[j].conns| <= Due(ss[j]) <= Due(ss[i]) <= |ss[i].conns| + 1
  {
    if i < j {
      NoAttemptAfterShutdown(ss, ls, i, j - 1);
      RunKeepsInv(ss, ls, j - 1);
      assert IsStep(ss[j - 1], ls[j - 1], ss[j - 1 + 1]);
      StepGrows(ss[j - 1], ls[j - 1]);
      NothingMoreIsDue(ss[j - 1], ls[j - 1]);
    }
  }

  // ---- What a run leaves behind, and what an attempt has ----

  /** A runner that has stopped has told the handlers; an attempt past `connect` has its
      reader and its sink. */
  predicate RunnerHas(s: Sup, a: ActorId)
    requires a in s.actors
  {
    s.actors[a].Runner? ==>
      var pc := s.actors[a].run;
      && (pc.Unlocking? ==> s.handlerShutdown)
      && (pc.Attempting? && !pc.stage.Connecting? ==>
            pc.gen < |s.conns| && s.conns[pc.gen].sink && s.conns[pc.gen].workers)
  }

  ghost predicate RunnersHave(s: Sup) {
    forall a {:trigger RunnerHas(s, a)} | a in s.actors :: RunnerHas(s, a)
  }

  /** Only the owner touches the sink and the workers of its connection. */
  predicate KeepsOpen(s: Sup, s': Sup, a: ActorId) {
    && |s.conns| <= |s'.conns| && (s.handlerShutdown ==> s'.handlerShutdown)
    && forall gen: nat {:trigger s'.conns[gen]} | gen < |s.conns| ::
         (s'.conns[gen].sink == s.conns[gen].sink && s'.conns[gen].workers == s.conns[gen].workers) ||
           s.runLock == Some(a)
  }

  lemma RunnerKeepsOpen(s: Sup, a: ActorId)
    requires Inv(s) && Enabled(s, Advance(a)) && s.actors[a].Runner?
    ensures KeepsOpen(s, Apply(s, Advance(a)), a) && RunnerHas(Apply(s, Advance(a)), a)
  {
    assert ActorOk(s, a);
  }

  lemma OtherKeepsOpen(s: Sup, l: Label)
    requires Inv(s) && Enabled(s, l) && !l.Start? && !l.CancelConn? &&
             !(l.Advance? && s.actors[l.a].Runner?) && RunnersHave(s)
    ensures KeepsOpen(s, Apply(s, l), l.a) && RunnerHas(Apply(s, l), l.a)
  {
    assert ActorOk(s, l.a) && RunnerHas(s, l.a);
  }

  lemma StepKeepsRunners(s: Sup, l: Label)
    requires Inv(s) && Enabled(s, l) && RunnersHave(s)
    ensures RunnersHave(Apply(s, l))
  {
    var s' := Apply(s, l);
    if l.Start? || l.CancelConn? {
      forall b | b in s'.actors ensures RunnerHas(s', b) { assert b in s.actors ==> RunnerHas(s, b); }
    } else {
      if l.Advance? && s.actors[l.a].Runner? { RunnerKeepsOpen(s, l.a); } else { OtherKeepsOpen(s, l); }
      forall b | b in s'.actors ensures RunnerHas(s', b) {
        if b != l.a { OthersHave(s, l, b); }
      }
    }
  }

  lemma OthersHave(s: Sup, l: Label, b: ActorId)
    requires Inv(s) && Enabled(s, l) && RunnersHave(s) && !l.Start? &&
             !l.CancelConn? && b != l.a && b in Apply(s, l).actors
    requires KeepsOpen(s, Apply(s, l), l.a)
    ensures RunnerHas(Apply(s, l), b)
  {
    if l.Advance? && s.actors[l.a].Runner? { RunnerMovesItself(s, l.a, b); }
    assert b in s.actors;
    assert RunnerHas(s, b) && ActorOk(s, b);
  }

  lemma {:induction false} RunKeepsRunners(ss: seq<Sup>, ls: seq<Label>, i: nat)
    requires IsRun(ss, ls) && i <= |ls|
    ensures RunnersHave(ss[i])
  {
    if i > 0 {
      RunKeepsRunners(ss, ls, i - 1);
      RunKeepsInv(ss, ls, i - 1);
      assert IsStep(ss[i - 1], ls[i - 1], ss[i - 1 + 1]);
      StepKeepsRunners(ss[i - 1], ls[i - 1]);
    }
  }

  /** When a supervised run gives up the lock, the client has stopped and its handlers have
      been told to stop. */
  lemma RunsEndStopped(ss: seq<Sup>, ls: seq<Label>, i: nat, a: ActorId)
    requires IsRun(ss, ls) && i <= |ls| && a in ss[i].actors && ss[i].actors[a] == Runner(Unlocking)
    ensures ss[i].handlerShutdown && ss[i].cell == Stopped && ss[i].shutdown
  {
    RunKeepsRunners(ss, ls, i);
    RunKeepsInv(ss, ls, i);
    assert RunnerHas(ss[i], a) && ActorOk(ss[i], a);
  }

  /** An attempt that logs in or dispatches has its sink and its workers. */
  lemma AttemptsAreOpen(ss: seq<Sup>, ls: seq<Label>, i: nat, a: ActorId)
    requires IsRun(ss, ls) && i <= |ls| && a in ss[i].actors && ss[i].actors[a].Runner?
    requires ss[i].actors[a].run.Attempting? && !ss[i].actors[a].run.stage.Connecting?
    ensures var gen := ss[i].actors[a].run.gen; gen < |ss[i].conns| && ss[i].conns[gen].sink && ss[i].conns[gen].workers
  {
    RunKeepsRunners(ss, ls, i);
    assert RunnerHas(ss[i], a);
  }
}
