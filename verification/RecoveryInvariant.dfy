/** The invariant of recovery and supervision, kept by every step. */
module RecoveryInvariant {
  import opened Protocol
  import opened Recovery

  /** The generation an attempt is using, until its sink is gone. */
  function CurrentGen(pc: RunnerPc): Option<nat> {
    match pc
    case Attempting(gen, _) => Some(gen)
    case GoingOffline(gen, _) => Some(gen)
    case Cancelling(gen, _) => Some(gen)
    case Joining(gen, _) => Some(gen)
    case TakingSink(gen, _) => Some(gen)
    case _ => None
  }

  /** Before `Attempt::close` has cancelled the connection. */
  predicate MayBeLive(pc: RunnerPc) {
    pc.Attempting? || pc.GoingOffline? || pc.Cancelling?
  }

  predicate HoldsRunLock(actor: Actor) {
    match actor
    case Runner(pc) => !pc.Locking? && !pc.RunOver?
    case Disconnecter(pc) => pc.DisconnectLocked? || pc.DisconnectUnlocking?
    case _ => false
  }

  /** In the middle of `stop()`: the token is cancelled, the state not yet replaced. */
  predicate MidStop(actor: Actor) {
    actor == Runner(GuardReplacing) || actor == Guard(StopReplacing) ||
      actor == Disconnecter(DisconnectStop(StopReplacing))
  }

  /** Has run the whole of `stop()`. */
  predicate HasStopped(actor: Actor) {
    match actor
    case Runner(pc) => pc.DroppingHandlers? || pc.Unlocking?
    case Guard(pc) => pc.StopOver?
    case Disconnecter(pc) => !pc.DisconnectStop? || pc.stop.StopOver?
    case _ => false
  }

  /** Neither `Stopped` nor a connection that still works. */
  predicate NothingToSee(s: Sup, value: Cell) {
    match value
    case Offline => true
    case Ready(gen) => gen < |s.conns| && s.conns[gen].cancelled
    case Stopped => false
  }

  /** A runner that owns the lock past the first check is supervising; nobody else may. */
  predicate Supervises(actor: Actor) {
    actor.Runner? && HoldsRunLock(actor) && !actor.run.Checking?
  }

  ghost predicate Settled(s: Sup) {
    s.shutdown && (s.runLock.Some? && s.runLock.value in s.actors ==> !Supervises(s.actors[s.runLock.value]))
  }

  predicate WaitOk(s: Sup, pc: WaitPc) {
    match pc
    case Examining(seen, value) =>
      seen < |s.history| && s.history[seen] == value &&
        (value.Ready? ==> value.gen < |s.conns| && s.conns[value.gen].published)
    case Parked(seen) => seen < |s.history| && NothingToSee(s, s.history[seen])
    case Resolved(gen) => gen < |s.conns| && s.conns[gen].published
    case Refused => s.cell.Stopped?
    case _ => true
  }

  ghost predicate ActorOk(s: Sup, a: ActorId)
    requires a in s.actors
  {
    var actor := s.actors[a];
    && (HoldsRunLock(actor) ==> s.runLock == Some(a))
    && (MidStop(actor) ==> s.shutdown)
    && (HasStopped(actor) ==> s.cell.Stopped?)
    && (actor.Runner? && CurrentGen(actor.run).Some? ==> CurrentGen(actor.run).value + 1 == |s.conns|)
    && (actor.Runner? && actor.run.Attempting? && actor.run.stage.Dispatching? ==> s.conns[|s.conns| - 1].published)
    && (actor == Disconnecter(DisconnectDone) ==> Settled(s) && s.handlerShutdown)
    && (actor == Disconnecter(DisconnectUnlocking) ==> s.handlerShutdown)
    && (actor.Waiter? ==> WaitOk(s, actor.wait))
  }

  ghost predicate HistoryInv(s: Sup) {
    && |s.history| == s.version + 1 && s.history[s.version] == s.cell
    && (forall i, j {:trigger s.history[i], s.history[j]} | 0 <= i <= j < |s.history| ::
          s.history[i].Stopped? ==> s.history[j].Stopped?)
  }

  ghost predicate StopInv(s: Sup) {
    && (s.cell.Stopped? ==> s.shutdown)
    && (s.handlerShutdown ==> s.cell.Stopped?)
    && (s.shutdown && !s.cell.Stopped? ==> exists a :: a in s.actors && MidStop(s.actors[a]))
  }

  /** The supervising runner, if any, has generation gen at such a program point. */
  predicate OwnerAt(s: Sup, gen: nat) {
    s.runLock.Some? && s.runLock.value in s.actors && s.actors[s.runLock.value].Runner? &&
    CurrentGen(s.actors[s.runLock.value].run) == Some(gen)
  }

  predicate OwnerLive(s: Sup, gen: nat) {
    OwnerAt(s, gen) && MayBeLive(s.actors[s.runLock.value].run)
  }

  predicate ConnOk(s: Sup, gen: nat)
    requires gen < |s.conns|
  {
    && (s.shutdown ==> s.conns[gen].cancelled)
    && (!s.conns[gen].cancelled ==> OwnerLive(s, gen))
    && (s.conns[gen].sink || s.conns[gen].workers ==> OwnerAt(s, gen))
    && (s.conns[gen].workers ==> !s.actors[s.runLock.value].run.TakingSink?)
  }

  /** A published connection is the newest and its attempt has not left `offline()` behind. */
  predicate CellOk(s: Sup) {
    s.cell.Ready? ==>
      && OwnerAt(s, s.cell.gen) && s.cell.gen < |s.conns| && s.conns[s.cell.gen].published
      && (s.actors[s.runLock.value].run.GoingOffline? ||
          (s.actors[s.runLock.value].run.Attempting? && s.actors[s.runLock.value].run.stage.Dispatching?))
  }

  ghost predicate Inv(s: Sup) {
    && HistoryInv(s) && StopInv(s) && CellOk(s)
    && (s.runLock.Some? ==> s.runLock.value in s.actors && HoldsRunLock(s.actors[s.runLock.value]))
    && (forall a {:trigger ActorOk(s, a)} | a in s.actors :: ActorOk(s, a))
    && (forall gen: nat {:trigger ConnOk(s, gen)} | gen < |s.conns| :: ConnOk(s, gen))
  }

  lemma NewInv()
    ensures Inv(NEW)
  {
  }

  // ---- What a step leaves to the others ----

  /** The frame of a step by a: tokens, versions and publications only grow, new
      connections are made by the owner of the run lock only. */
  ghost predicate Evolves(s: Sup, s': Sup, a: ActorId) {
    && (forall b | b in s.actors && b != a :: b in s'.actors && s'.actors[b] == s.actors[b])
    && (forall b | b in s'.actors && b != a :: b in s.actors)
    && |s.conns| <= |s'.conns| && (|s.conns| < |s'.conns| ==> s.runLock == Some(a))
    && (forall gen: nat | gen < |s.conns| ::
          && (s.conns[gen].cancelled ==> s'.conns[gen].cancelled)
          && (s.conns[gen].published ==> s'.conns[gen].published))
    && s.history <= s'.history && (s.shutdown ==> s'.shutdown) && (s.handlerShutdown ==> s'.handlerShutdown)
    && (s.cell.Stopped? ==> s'.cell.Stopped?)
    && (s.runLock.Some? && s.runLock.value != a ==> s'.runLock == s.runLock)
    && (s'.runLock.Some? && s'.runLock.value != a ==> s.runLock == s'.runLock)
    && (a in s'.actors && Supervises(s'.actors[a]) && s.shutdown && a in s.actors ==> Supervises(s.actors[a]))
  }

  lemma OthersStayOk(s: Sup, s': Sup, a: ActorId, b: ActorId)
    requires Inv(s) && Evolves(s, s', a) && b != a && b in s.actors
    requires s'.runLock == Some(a) ==> a in s'.actors && (Supervises(s'.actors[a]) ==> a in s.actors)
    ensures b in s'.actors && ActorOk(s', b)
  {
    assert ActorOk(s, b);
    assert a in s.actors ==> ActorOk(s, a);
    if s.actors[b].Waiter? && s.actors[b].wait.Parked? {
      assert s'.history[s.actors[b].wait.seen] == s.history[s.actors[b].wait.seen];
    }
  }

  ghost predicate SharedOk(s: Sup) {
    && HistoryInv(s) && StopInv(s) && CellOk(s)
    && (s.runLock.Some? ==> s.runLock.value in s.actors && HoldsRunLock(s.actors[s.runLock.value]))
    && (forall gen: nat {:trigger ConnOk(s, gen)} | gen < |s.conns| :: ConnOk(s, gen))
  }

  /** What has to be shown of a step by a. */
  ghost predicate StepOk(s: Sup, s': Sup, a: ActorId) {
    Evolves(s, s', a) && a in s'.actors && (Supervises(s'.actors[a]) ==> a in s.actors) &&
      ActorOk(s', a) && SharedOk(s')
  }

  lemma StepOkKeepsInv(s: Sup, s': Sup, a: ActorId)
    requires Inv(s) && StepOk(s, s', a)
    ensures Inv(s')
  {
    forall b | b in s'.actors ensures ActorOk(s', b) {
      if b != a { OthersStayOk(s, s', a, b); }
    }
  }

  // ---- Steps that leave the cell, the tokens and the connections alone ----

  ghost predicate SameShared(s: Sup, s': Sup) {
    s'.conns == s.conns && s'.cell == s.cell && s'.version == s.version && s'.history == s.history &&
    s'.shutdown == s.shutdown && s'.handlerShutdown == s.handlerShutdown && s'.runLock == s.runLock
  }

  /** Only a's program point moves; if a is the owner, its generation stays as live as it was. */
  lemma MoveOk(s: Sup, s': Sup, a: ActorId, actor: Actor)
    requires Inv(s) && SameShared(s, s') && s'.actors == s.actors[a := actor] && ActorOk(s', a)
    requires a in s.actors ==> !MidStop(s.actors[a]) && HoldsRunLock(actor) == HoldsRunLock(s.actors[a])
    requires Supervises(actor) ==> a in s.actors && (s.shutdown ==> Supervises(s.actors[a]))
    requires a in s.actors && s.actors[a].Runner? && CurrentGen(s.actors[a].run).Some? ==>
               && actor.Runner? && CurrentGen(actor.run) == CurrentGen(s.actors[a].run)
               && (MayBeLive(s.actors[a].run) ==> MayBeLive(actor.run)) && !actor.run.TakingSink?
               && (s.cell.Ready? ==> actor.run.GoingOffline? || (actor.run.Attempting? && actor.run.stage.Dispatching?))
    ensures Inv(s')
  {
    if s.shutdown && !s.cell.Stopped? {
      var b :| b in s.actors && MidStop(s.actors[b]);
      assert b in s'.actors && MidStop(s'.actors[b]);
    }
    forall gen: nat | gen < |s'.conns| ensures ConnOk(s', gen) {
      assert ConnOk(s, gen);
    }
    StepOkKeepsInv(s, s', a);
  }

  lemma StartKeepsInv(s: Sup, a: ActorId, actor: Actor)
    requires Inv(s) && Enabled(s, Start(a, actor))
    ensures Inv(Apply(s, Start(a, actor)))
  {
    MoveOk(s, Apply(s, Start(a, actor)), a, actor);
  }

  lemma WaiterStepOk(s: Sup, a: ActorId, l: Label)
    requires Inv(s) && a in s.actors && s.actors[a].Waiter? && (l == Advance(a) || l == Woken(a)) && Enabled(s, l)
    ensures var s' := Apply(s, l);
      a in s'.actors && SameShared(s, s') && s'.actors == s.actors[a := s'.actors[a]] &&
        s'.actors[a].Waiter? && ActorOk(s', a)
  {
    assert ActorOk(s, a);
  }

  lemma WaiterKeepsInv(s: Sup, a: ActorId, l: Label)
    requires Inv(s) && a in s.actors && s.actors[a].Waiter? && (l == Advance(a) || l == Woken(a)) && Enabled(s, l)
    ensures Inv(Apply(s, l))
  {
    WaiterStepOk(s, a, l);
    MoveOk(s, Apply(s, l), a, Apply(s, l).actors[a]);
  }

  // ---- The two halves of stop() ----

  lemma CancelAllKeepsInv(s: Sup, a: ActorId, actor: Actor)
    requires Inv(s) && a in s.actors && MidStop(actor) && !HasStopped(s.actors[a]) && !MidStop(s.actors[a])
    requires HoldsRunLock(actor) == HoldsRunLock(s.actors[a]) && (Supervises(actor) ==> Supervises(s.actors[a]))
    requires s.actors[a].Runner? ==> CurrentGen(s.actors[a].run).None?
    ensures Inv(To(CancelAll(s), a, actor))
  {
    var s' := To(CancelAll(s), a, actor);
    assert ActorOk(s, a);
    assert a in s'.actors && MidStop(s'.actors[a]);
    forall gen: nat | gen < |s'.conns| ensures ConnOk(s', gen) {
      assert ConnOk(s, gen);
    }
    StepOkKeepsInv(s, s', a);
  }

  lemma ReplaceKeepsInv(s: Sup, a: ActorId, actor: Actor)
    requires Inv(s) && a in s.actors && MidStop(s.actors[a]) && HasStopped(actor)
    requires actor == Runner(DroppingHandlers) || actor == Guard(StopOver) ||
             actor == Disconnecter(DisconnectStop(StopOver))
    requires actor.Runner? == s.actors[a].Runner?
    ensures Inv(To(Set(s, Stopped), a, actor))
  {
    var s' := To(Set(s, Stopped), a, actor);
    assert ActorOk(s, a);
    forall gen: nat | gen < |s'.conns| ensures ConnOk(s', gen) {
      assert ConnOk(s, gen);
    }
    StepOkKeepsInv(s, s', a);
  }

  // ---- The run lock and the handler token ----

  lemma LockKeepsInv(s: Sup, a: ActorId, actor: Actor)
    requires Inv(s) && a in s.actors && s.runLock.None?
    requires (s.actors[a] == Runner(Locking) && actor == Runner(Checking)) ||
             (s.actors[a] == Disconnecter(DisconnectStop(StopOver)) && actor == Disconnecter(DisconnectLocked))
    ensures Inv(To(s, a, actor).(runLock := Some(a)))
  {
    var s' := To(s, a, actor).(runLock := Some(a));
    assert ActorOk(s, a);
    KeepsMidStop(s, s', a);
    forall gen: nat | gen < |s'.conns| ensures ConnOk(s', gen) {
      assert ConnOk(s, gen);
    }
    StepOkKeepsInv(s, s', a);
  }

  lemma UnlockKeepsInv(s: Sup, a: ActorId, actor: Actor)
    requires Inv(s) && a in s.actors
    requires (s.actors[a] == Runner(Checking) && actor == Runner(RunOver)) ||
             (s.actors[a] == Runner(Unlocking) && actor == Runner(RunOver)) ||
             (s.actors[a] == Disconnecter(DisconnectUnlocking) &&
              actor == Disconnecter(DisconnectDone) && s.handlerShutdown)
    ensures Inv(To(s, a, actor).(runLock := None))
  {
    var s' := To(s, a, actor).(runLock := None);
    assert ActorOk(s, a);
    KeepsMidStop(s, s', a);
    forall gen: nat | gen < |s'.conns| ensures ConnOk(s', gen) {
      assert ConnOk(s, gen);
    }
    StepOkKeepsInv(s, s', a);
  }

  lemma KeepsMidStop(s: Sup, s': Sup, a: ActorId)
    requires StopInv(s) && a in s.actors && !MidStop(s.actors[a])
    requires s'.shutdown == s.shutdown && s'.cell == s.cell && forall b | b in s.actors && b != a ::
               b in s'.actors && s'.actors[b] == s.actors[b]
    ensures s'.shutdown && !s'.cell.Stopped? ==> exists b :: b in s'.actors && MidStop(s'.actors[b])
  {
    if s.shutdown && !s.cell.Stopped? {
      var b :| b in s.actors && MidStop(s.actors[b]);
      assert b in s'.actors && MidStop(s'.actors[b]);
    }
  }

  lemma HandlersKeepInv(s: Sup, a: ActorId, actor: Actor)
    requires Inv(s) && a in s.actors
    requires (s.actors[a] == Runner(DroppingHandlers) && actor == Runner(Unlocking)) ||
             (s.actors[a] == Disconnecter(DisconnectLocked) && actor == Disconnecter(DisconnectUnlocking))
    ensures Inv(To(s, a, actor).(handlerShutdown := true))
  {
    var s' := To(s, a, actor).(handlerShutdown := true);
    assert ActorOk(s, a);
    forall gen: nat | gen < |s'.conns| ensures ConnOk(s', gen) {
      assert ConnOk(s, gen);
    }
    StepOkKeepsInv(s, s', a);
  }

  // ---- The life of an attempt ----

  lemma CreateKeepsInv(s: Sup, a: ActorId)
    requires Inv(s) && a in s.actors && s.actors[a] == Runner(Creating)
    ensures Inv(AdvanceRunner(s, a, Creating))
  {
    var s' := AdvanceRunner(s, a, Creating);
    assert ActorOk(s, a);
    KeepsMidStop(s, s', a);
    forall gen: nat | gen < |s'.conns| ensures ConnOk(s', gen) {
      assert gen < |s.conns| ==> ConnOk(s, gen);
    }
    StepOkKeepsInv(s, s', a);
  }

  /** The owner works on its own connection: opening, publishing or closing it. */
  lemma OwnConnKeepsInv(s: Sup, s': Sup, a: ActorId, gen: nat, conn: Conn, pc: RunnerPc)
    requires Inv(s) && a in s.actors && s.actors[a].Runner? &&
             CurrentGen(s.actors[a].run) == Some(gen) && gen < |s.conns|
    requires s' == RunTo(UpdateConn(s, gen, conn), a, pc)
    requires CurrentGen(pc) == Some(gen) || (pc.Deciding? && !conn.sink && !conn.workers)
    requires (s.conns[gen].cancelled ==> conn.cancelled) && (s.conns[gen].published == conn.published)
    requires !conn.cancelled ==> MayBeLive(pc)
    requires conn.workers ==> !pc.TakingSink?
    requires s.cell.Ready? ==> pc.GoingOffline? || (pc.Attempting? && pc.stage.Dispatching?)
    requires pc.Attempting? && pc.stage.Dispatching? ==> conn.published
    ensures Inv(s')
  {
    assert ActorOk(s, a);
    KeepsMidStop(s, s', a);
    forall g: nat | g < |s'.conns| ensures ConnOk(s', g) {
      assert ConnOk(s, g);
    }
    StepOkKeepsInv(s, s', a);
  }

  lemma PublishKeepsInv(s: Sup, a: ActorId)
    requires Inv(s) && Enabled(s, Publish(a))
    ensures Inv(Apply(s, Publish(a)))
  {
    hide Evolves;
    var s' := Apply(s, Publish(a));
    var gen := s.actors[a].run.gen;
    assert ActorOk(s, a);
    if s.cell.Stopped? || s.conns[gen].cancelled {
      MoveOk(s, s', a, Runner(GoingOffline(gen, Some(ConnectionClosed))));
    } else {
      KeepsMidStop(s, s'.(cell := s.cell), a);
      forall g: nat | g < |s'.conns| ensures ConnOk(s', g) {
        assert ConnOk(s, g);
      }
      StepOkKeepsInv(s, s', a);
    }
  }

  lemma OfflineKeepsInv(s: Sup, a: ActorId)
    requires Inv(s) && a in s.actors && s.actors[a].Runner? &&
             s.actors[a].run.GoingOffline? && GenOk(s, s.actors[a].run)
    ensures Inv(AdvanceRunner(s, a, s.actors[a].run))
  {
    var s' := AdvanceRunner(s, a, s.actors[a].run);
    assert ActorOk(s, a);
    KeepsMidStop(s, s'.(cell := s.cell), a);
    forall g: nat | g < |s'.conns| ensures ConnOk(s', g) {
      assert ConnOk(s, g);
    }
    StepOkKeepsInv(s, s', a);
  }

  lemma CancelConnKeepsInv(s: Sup, gen: nat)
    requires Inv(s) && gen < |s.conns|
    ensures Inv(Apply(s, CancelConn(gen)))
  {
    var s' := Apply(s, CancelConn(gen));
    if s.shutdown && !s.cell.Stopped? {
      var b :| b in s.actors && MidStop(s.actors[b]);
      assert b in s'.actors && MidStop(s'.actors[b]);
    }
    forall g: nat | g < |s'.conns| ensures ConnOk(s', g) {
      assert ConnOk(s, g);
    }
    forall b | b in s'.actors ensures ActorOk(s', b) {
      assert ActorOk(s, b);
    }
  }

  // ---- Every step ----

  lemma ClosingKeepsInv(s: Sup, a: ActorId)
    requires Inv(s) && Enabled(s, Advance(a)) && s.actors[a].Runner?
    requires s.actors[a].run.Cancelling? || s.actors[a].run.Joining? || s.actors[a].run.TakingSink?
    ensures Inv(AdvanceRunner(s, a, s.actors[a].run))
  {
    var pc := s.actors[a].run;
    var s' := AdvanceRunner(s, a, pc);
    assert ActorOk(s, a) && ConnOk(s, pc.gen);
    match pc
    case Cancelling(gen, result) => OwnConnKeepsInv(s, s', a, gen, s.conns[gen].(cancelled := true),
                                                   Joining(gen, result));
    case Joining(gen, result) =>
      OwnConnKeepsInv(s, s', a, gen, s.conns[gen].(workers := false), TakingSink(gen, result));
    case TakingSink(gen, result) => OwnConnKeepsInv(s, s', a, gen, s.conns[gen].(sink := false), Deciding(result));
  }

  lemma RunnerKeepsInv(s: Sup, a: ActorId)
    requires Inv(s) && Enabled(s, Advance(a)) && s.actors[a].Runner?
    ensures Inv(AdvanceRunner(s, a, s.actors[a].run))
  {
    var pc := s.actors[a].run;
    assert ActorOk(s, a);
    match pc
    case Locking =>
      if s.runLock.None? {
        LockKeepsInv(s, a, Runner(Checking));
      } else {
        MoveOk(s, RunTo(s, a, RunOver), a, Runner(RunOver));
      }
    case Checking =>
      if s.shutdown {
        UnlockKeepsInv(s, a, Runner(RunOver));
      } else {
        MoveOk(s, RunTo(s, a, LoopTop), a, Runner(LoopTop));
      }
    case Creating => CreateKeepsInv(s, a);
    case GoingOffline(gen, result) => OfflineKeepsInv(s, a);
    case GuardCancelling => CancelAllKeepsInv(s, a, Runner(GuardReplacing));
    case GuardReplacing => ReplaceKeepsInv(s, a, Runner(DroppingHandlers));
    case DroppingHandlers => HandlersKeepInv(s, a, Runner(Unlocking));
    case Unlocking => UnlockKeepsInv(s, a, Runner(RunOver));
    case LoopTop | Beginning | Deciding(_) | Sleeping => PausingKeepsInv(s, a);
    case _ => ClosingKeepsInv(s, a);
  }

  lemma PausingKeepsInv(s: Sup, a: ActorId)
    requires Inv(s) && a in s.actors && s.actors[a].Runner?
    requires s.actors[a].run.LoopTop? || s.actors[a].run.Beginning? ||
             s.actors[a].run.Deciding? || s.actors[a].run.Sleeping?
    ensures Inv(AdvanceRunner(s, a, s.actors[a].run))
  {
    var s' := AdvanceRunner(s, a, s.actors[a].run);
    assert ActorOk(s, a);
    MoveOk(s, s', a, s'.actors[a]);
  }

  lemma StopperKeepsInv(s: Sup, a: ActorId)
    requires Inv(s) && Enabled(s, Advance(a)) && (s.actors[a].Guard? || s.actors[a].Disconnecter?)
    ensures Inv(Apply(s, Advance(a)))
  {
    assert ActorOk(s, a);
    match s.actors[a]
    case Guard(stop) =>
      if stop.StopCancelling? {
        CancelAllKeepsInv(s, a, Guard(StopReplacing));
      } else {
        ReplaceKeepsInv(s, a, Guard(StopOver));
      }
    case Disconnecter(pc) =>
      match pc
      case DisconnectStop(stop) =>
        if stop.StopOver? { LockKeepsInv(s, a, Disconnecter(DisconnectLocked)); }
        else if stop.StopCancelling? { CancelAllKeepsInv(s, a, Disconnecter(DisconnectStop(StopReplacing))); }
        else { ReplaceKeepsInv(s, a, Disconnecter(DisconnectStop(StopOver))); }
      case DisconnectLocked => HandlersKeepInv(s, a, Disconnecter(DisconnectUnlocking));
      case DisconnectUnlocking => UnlockKeepsInv(s, a, Disconnecter(DisconnectDone));
  }

  lemma StepKeepsInv(s: Sup, l: Label)
    requires Inv(s) && Enabled(s, l)
    ensures Inv(Apply(s, l))
  {
    match l
    case Start(a, actor) => StartKeepsInv(s, a, actor);
    case Advance(a) =>
      if s.actors[a].Runner? { RunnerKeepsInv(s, a); }
      else if s.actors[a].Waiter? { WaiterKeepsInv(s, a, l); }
      else { StopperKeepsInv(s, a); }
    case Opened(a) =>
      var gen := s.actors[a].run.gen;
      assert ActorOk(s, a);
      OwnConnKeepsInv(s, Apply(s, l), a, gen, s.conns[gen].(sink := true, workers := true),
                      Attempting(gen, Authenticating));
    case Publish(a) => PublishKeepsInv(s, a);
    case AttemptEnds(a, result) =>
      assert ActorOk(s, a);
      MoveOk(s, Apply(s, l), a, Runner(GoingOffline(s.actors[a].run.gen, result)));
    case Woken(a) =>
      assert ActorOk(s, a);
      if s.actors[a].Waiter? { WaiterKeepsInv(s, a, l); } else { MoveOk(s, Apply(s, l), a, Runner(LoopTop)); }
    case CancelConn(gen) => CancelConnKeepsInv(s, gen);
  }
}
