/** Recovery and supervision (src/client/recovery.rs; `run`, `run_loop`, `Attempt`,
    `RunGuard` and `disconnect` in src/client/mod.rs) as a small-step machine. Each
    locked access to the watch cell, each read or cancellation of a token, each lock
    operation and each drop of a guard is one step of the scheduler's choice. */
module Recovery {
  import opened Protocol

  type ActorId = nat

  /** The value of the watch channel; a connection is named by its generation. */
  datatype Cell = Offline | Ready(gen: nat) | Stopped

  /** One connection generation. `workers`: the attempt's `JoinSet` is not empty. */
  datatype Conn = Conn(cancelled: bool, sink: bool, workers: bool, published: bool)

  datatype Stage = Connecting | Authenticating | Dispatching

  /** Program points of `run`, of the spawned supervisor and of `run_loop` inside it. */
  datatype RunnerPc =
    | Locking                            // run_lock.try_lock_owned()
    | Checking                           // run: is shutdown cancelled?
    | LoopTop                            // run_loop: is shutdown cancelled?
    | Beginning                          // begin_attempt: is shutdown cancelled?
    | Creating                           // begin_attempt: shutdown.child_token()
    | Attempting(gen: nat, stage: Stage) // select! over run_attempt
    | GoingOffline(gen: nat, result: Option<Error>)
    | Cancelling(gen: nat, result: Option<Error>)  // Attempt::close: connection.cancel()
    | Joining(gen: nat, result: Option<Error>)     // abort_all and join_next
    | TakingSink(gen: nat, result: Option<Error>)  // transport.close()
    | Deciding(result: Option<Error>)              // is shutdown cancelled? retry or return
    | Sleeping
    | GuardCancelling                    // drop of RunGuard: stop(), first half
    | GuardReplacing                     // stop(), second half
    | DroppingHandlers                   // drop guard of handler_shutdown
    | Unlocking
    | RunOver

  datatype StopPc = StopCancelling | StopReplacing | StopOver

  datatype DisconnectPc = DisconnectStop(stop: StopPc) | DisconnectLocked | DisconnectUnlocking | DisconnectDone

  /** `current()`: subscribe, then borrow, check and wait. */
  datatype WaitPc =
    | Subscribing
    | Borrowing
    | Examining(seen: nat, value: Cell)
    | Parked(seen: nat)                  // in changed(), having seen this version
    | Resolved(gen: nat)
    | Refused

  datatype Actor =
    | Runner(run: RunnerPc)
    | Guard(stop: StopPc)                // the RunGuard of the `run` future itself
    | Disconnecter(disconnect: DisconnectPc)
    | Waiter(wait: WaitPc)

  datatype Sup = Sup(
    version: nat,
    cell: Cell,
    shutdown: bool,
    handlerShutdown: bool,
    runLock: Option<ActorId>,
    conns: seq<Conn>,
    actors: map<ActorId, Actor>,
    history: seq<Cell>)                  // the value of the cell at each version

  const NEW := Sup(0, Offline, false, false, None, [], map[], [Offline])

  datatype Label =
    | Start(a: ActorId, actor: Actor)
    | Advance(a: ActorId)                // the step the program point determines
    | Opened(a: ActorId)                 // run_attempt: connect() succeeded and the reader was spawned
    | Publish(a: ActorId)                // run_attempt: logged in, recovery.connected(..)
    | AttemptEnds(a: ActorId, result: Option<Error>)
    | Woken(a: ActorId)                  // sleep elapsed, or changed() returned
    | CancelConn(gen: nat)               // a worker, a failed call or RECONNECT cancels the connection

  // ---- The watch cell ----

  function Set(s: Sup, cell: Cell): Sup {
    s.(version := s.version + 1, cell := cell, history := s.history + [cell])
  }

  /** `shutdown.cancel()` reaches every child token. */
  function CancelAll(s: Sup): Sup {
    s.(shutdown := true, conns := seq(|s.conns|, i requires 0 <= i < |s.conns| => s.conns[i].(cancelled := true)))
  }

  function UpdateConn(s: Sup, gen: nat, conn: Conn): Sup
    requires gen < |s.conns|
  {
    s.(conns := s.conns[gen := conn])
  }

  function To(s: Sup, a: ActorId, actor: Actor): Sup {
    s.(actors := s.actors[a := actor])
  }

  function RunTo(s: Sup, a: ActorId, pc: RunnerPc): Sup {
    To(s, a, Runner(pc))
  }

  // ---- Steps ----

  predicate InitialActor(actor: Actor) {
    actor == Runner(Locking) || actor == Guard(StopCancelling) ||
    actor == Disconnecter(DisconnectStop(StopCancelling)) || actor == Waiter(Subscribing)
  }

  /** The program point refers to an existing connection. */
  predicate GenOk(s: Sup, pc: RunnerPc) {
    match pc
    case Attempting(gen, _) => gen < |s.conns|
    case GoingOffline(gen, _) => gen < |s.conns|
    case Cancelling(gen, _) => gen < |s.conns|
    case Joining(gen, _) => gen < |s.conns|
    case TakingSink(gen, _) => gen < |s.conns|
    case _ => true
  }

  predicate Enabled(s: Sup, l: Label) {
    match l
    case Start(a, actor) => a !in s.actors && InitialActor(actor)
    case CancelConn(gen) => gen < |s.conns|
    case Opened(a) =>
      a in s.actors && s.actors[a].Runner? && s.actors[a].run.Attempting? &&
        s.actors[a].run.stage.Connecting? && GenOk(s, s.actors[a].run)
    case Publish(a) =>
      a in s.actors && s.actors[a].Runner? && s.actors[a].run.Attempting? &&
        s.actors[a].run.stage.Authenticating? && GenOk(s, s.actors[a].run)
    case AttemptEnds(a, result) => a in s.actors && s.actors[a].Runner? && s.actors[a].run.Attempting?
    case Woken(a) =>
      a in s.actors &&
      match s.actors[a] {
        case Runner(pc) => pc.Sleeping?
        case Waiter(pc) => pc.Parked? && pc.seen != s.version
        case _ => false
      }
    case Advance(a) =>
      a in s.actors &&
      match s.actors[a] {
        case Runner(pc) => !pc.Attempting? && !pc.RunOver? && GenOk(s, pc) && (pc.Sleeping? ==> s.shutdown)
        case Guard(pc) => !pc.StopOver?
        case Disconnecter(pc) =>
          match pc {
            case DisconnectStop(stop) => stop.StopOver? ==> s.runLock.None?
            case DisconnectLocked => true
            case DisconnectUnlocking => true
            case DisconnectDone => false
          }
        case Waiter(pc) => pc.Subscribing? || pc.Borrowing? ||
             (pc.Examining? && (pc.value.Ready? ==> pc.value.gen < |s.conns|))
      }
  }

  /** `offline()`: leaves `Stopped` alone. */
  function GoOffline(s: Sup): Sup {
    if s.cell.Stopped? then s else Set(s, Offline)
  }

  /** `Ok(())` and retryable errors go on to the backoff. */
  predicate GivesUp(result: Option<Error>) {
    result.Some? && !ShouldRetryConnection(result.value)
  }

  function AdvanceRunner(s: Sup, a: ActorId, pc: RunnerPc): Sup
    requires GenOk(s, pc) && !pc.Attempting? && !pc.RunOver?
  {
    match pc
    case Locking => if s.runLock.Some? then RunTo(s, a, RunOver) else RunTo(s, a, Checking).(runLock := Some(a))
    case Checking => if s.shutdown then RunTo(s, a, RunOver).(runLock := None) else RunTo(s, a, LoopTop)
    case LoopTop => RunTo(s, a, if s.shutdown then GuardCancelling else Beginning)
    case Beginning => RunTo(s, a, if s.shutdown then GuardCancelling else Creating)
    case Creating =>
      RunTo(s, a, Attempting(|s.conns|, Connecting)).(conns := s.conns + [Conn(s.shutdown, false, false, false)])
    case GoingOffline(gen, result) => RunTo(GoOffline(s), a, Cancelling(gen, result))
    case Cancelling(gen, result) => RunTo(UpdateConn(s, gen, s.conns[gen].(cancelled := true)), a, Joining(gen, result))
    case Joining(gen, result) => RunTo(UpdateConn(s, gen, s.conns[gen].(workers := false)), a, TakingSink(gen, result))
    case TakingSink(gen, result) => RunTo(UpdateConn(s, gen, s.conns[gen].(sink := false)), a, Deciding(result))
    case Deciding(result) => RunTo(s, a, if s.shutdown || GivesUp(result) then GuardCancelling else Sleeping)
    case Sleeping => RunTo(s, a, GuardCancelling)
    case GuardCancelling => RunTo(CancelAll(s), a, GuardReplacing)
    case GuardReplacing => RunTo(Set(s, Stopped), a, DroppingHandlers)
    case DroppingHandlers => RunTo(s, a, Unlocking).(handlerShutdown := true)
    case Unlocking => RunTo(s, a, RunOver).(runLock := None)
  }

  function AdvanceStop(s: Sup, stop: StopPc): (Sup, StopPc)
    requires !stop.StopOver?
  {
    if stop.StopCancelling? then (CancelAll(s), StopReplacing) else (Set(s, Stopped), StopOver)
  }

  function AdvanceDisconnect(s: Sup, a: ActorId, pc: DisconnectPc): Sup
    requires !pc.DisconnectDone?
  {
    match pc
    case DisconnectStop(stop) =>
      if stop.StopOver? then To(s, a, Disconnecter(DisconnectLocked)).(runLock := Some(a))
      else var (s', stop') := AdvanceStop(s, stop); To(s', a, Disconnecter(DisconnectStop(stop')))
    case DisconnectLocked => To(s, a, Disconnecter(DisconnectUnlocking)).(handlerShutdown := true)
    case DisconnectUnlocking => To(s, a, Disconnecter(DisconnectDone)).(runLock := None)
  }

  /** What `current()` does with the value it borrowed. */
  function Examine(s: Sup, seen: nat, value: Cell): WaitPc
    requires value.Ready? ==> value.gen < |s.conns|
  {
    match value
    case Ready(gen) => if !s.conns[gen].cancelled then Resolved(gen) else Parked(seen)
    case Stopped => Refused
    case Offline => Parked(seen)
  }

  function Apply(s: Sup, l: Label): Sup
    requires Enabled(s, l)
  {
    match l
    case Start(a, actor) => To(s, a, actor)
    case CancelConn(gen) => UpdateConn(s, gen, s.conns[gen].(cancelled := true))
    case Opened(a) =>
      var gen := s.actors[a].run.gen;
      RunTo(UpdateConn(s, gen, s.conns[gen].(sink := true, workers := true)), a, Attempting(gen, Authenticating))
    case Publish(a) =>
      var gen := s.actors[a].run.gen;
      if s.cell.Stopped? || s.conns[gen].cancelled then RunTo(s, a, GoingOffline(gen, Some(ConnectionClosed)))
      else RunTo(Set(UpdateConn(s, gen, s.conns[gen].(published := true)), Ready(gen)), a, Attempting(gen, Dispatching))
    case AttemptEnds(a, result) => RunTo(s, a, GoingOffline(s.actors[a].run.gen, result))
    case Woken(a) =>
      if s.actors[a].Runner? then RunTo(s, a, LoopTop) else To(s, a, Waiter(Borrowing))
    case Advance(a) =>
      match s.actors[a] {
        case Runner(pc) => AdvanceRunner(s, a, pc)
        case Guard(pc) => var (s', pc') := AdvanceStop(s, pc); To(s', a, Guard(pc'))
        case Disconnecter(pc) => AdvanceDisconnect(s, a, pc)
        case Waiter(pc) =>
          match pc {
            case Subscribing => To(s, a, Waiter(Borrowing))
            case Borrowing => To(s, a, Waiter(Examining(s.version, s.cell)))
            case Examining(seen, value) => To(s, a, Waiter(Examine(s, seen, value)))
          }
      }
  }
}
