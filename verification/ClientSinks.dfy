/** The socket's sink in the whole client: it is open only while the supervisor's
    attempt owns it, and gone for good when `disconnect` has returned. */
module ClientSinks {
  import opened Protocol
  import opened Client
  import opened ClientInvariant
  import opened ClientTheorems
  import T = Transport
  import TI = TransportInvariant
  import TP = TransportProofs
  import R = Recovery
  import RI = RecoveryInvariant
  import RT = RecoveryTheorems

  // ---- The supervisor's program point ----

  predicate UsesGen(pc: Option<R.RunnerPc>, gen: nat) {
    pc.Some? && RI.CurrentGen(pc.value) == Some(gen)
  }

  predicate ByOwner(rec: R.Sup, r: R.Label) {
    (r.Advance? || r.Opened? || r.AttemptEnds?) && rec.runLock == Some(r.a)
  }

  /** How the supervisor moves on a generation: it takes up new ones only, leaves one only
      from its `close`, and its `connect` only with the answer or with the attempt. */
  predicate SupervisorMoves(rec: R.Sup, r: R.Label, rec': R.Sup, gen: nat) {
    var pc, pc' := Supervisor(rec), Supervisor(rec');
    && (UsesGen(pc, gen) ==> UsesGen(pc', gen) || (Closing(rec, gen) && r.Advance? && ByOwner(rec, r)))
    && (UsesGen(pc', gen) && gen < |rec.conns| ==> UsesGen(pc, gen) && (Closing(rec, gen) ==> Closing(rec', gen)))
    && (Connecting(rec, gen) ==> Connecting(rec', gen) || (!r.Advance? && ByOwner(rec, r)))
  }

  lemma OwnerStep(rec: R.Sup, a: R.ActorId, gen: nat)
    requires RI.Inv(rec) && R.Enabled(rec, R.Advance(a)) && rec.actors[a].Runner?
    ensures SupervisorMoves(rec, R.Advance(a), R.Apply(rec, R.Advance(a)), gen)
  {
    assert RI.ActorOk(rec, a);
  }

  lemma OtherAdvance(rec: R.Sup, a: R.ActorId, gen: nat)
    requires RI.Inv(rec) && R.Enabled(rec, R.Advance(a)) && !rec.actors[a].Runner?
    ensures SupervisorMoves(rec, R.Advance(a), R.Apply(rec, R.Advance(a)), gen)
  {
    assert RI.ActorOk(rec, a);
  }

  lemma AttemptStep(rec: R.Sup, r: R.Label, gen: nat)
    requires RI.Inv(rec) && R.Enabled(rec, r) && (r.Opened? || r.Publish? || r.AttemptEnds?)
    ensures SupervisorMoves(rec, r, R.Apply(rec, r), gen)
  {
    assert RI.ActorOk(rec, r.a);
  }

  lemma IdleStep(rec: R.Sup, r: R.Label, gen: nat)
    requires R.Enabled(rec, r) && (r.Start? || r.Woken? || r.CancelConn?)
    ensures SupervisorMoves(rec, r, R.Apply(rec, r), gen)
  {
  }

  lemma SupervisorStep(rec: R.Sup, r: R.Label, gen: nat)
    requires RI.Inv(rec) && R.Enabled(rec, r)
    ensures SupervisorMoves(rec, r, R.Apply(rec, r), gen)
  {
    hide R.Apply, RI.Inv, SupervisorMoves;
    match r
    case Advance(a) => if rec.actors[a].Runner? { OwnerStep(rec, a, gen); } else { OtherAdvance(rec, a, gen); }
    case Start(_, _) => IdleStep(rec, r, gen);
    case Woken(_) => IdleStep(rec, r, gen);
    case CancelConn(_) => IdleStep(rec, r, gen);
    case _ => AttemptStep(rec, r, gen);
  }

  // ---- The invariant ----

  ghost predicate FutureOk(c: State, gen: nat, t: T.TaskId)
    requires gen < |c.nets| && t in c.nets[gen].tasks
  {
    var task := c.nets[gen].tasks[t];
    && (task.kind.Connect? && T.Unfinished(task) ==> Connecting(c.rec, gen))
    && (task.kind.Close? ==> !UsesGen(Supervisor(c.rec), gen) || Closing(c.rec, gen))
    && (task.kind.Close? && task.phase == T.Finished(T.Returned) ==> !c.nets[gen].sinkOpen)
  }

  ghost predicate SinkOk(c: State, gen: nat)
    requires gen < |c.nets|
  {
    && (c.nets[gen].sinkOpen ==> UsesGen(Supervisor(c.rec), gen))
    && (forall t {:trigger FutureOk(c, gen, t)} | t in c.nets[gen].tasks :: FutureOk(c, gen, t))
  }

  ghost predicate SinkInv(c: State) {
    forall gen: nat {:trigger SinkOk(c, gen)} | gen < |c.nets| :: SinkOk(c, gen)
  }

  /** What one step of a transport can do to its sink and to the futures that own it. */
  ghost predicate SinkStep(m: T.Mux, n: T.Label, m': T.Mux) {
    && (m'.sinkOpen && !m.sinkOpen ==> n.t in m.tasks && m.tasks[n.t].kind.Connect? && T.Unfinished(m.tasks[n.t]))
    && (m'.wire != m.wire ==> m.sinkOpen)
    && n.t in m'.tasks && m'.tasks == m.tasks[n.t := m'.tasks[n.t]]
    && if n.t in m.tasks then
         && m'.tasks[n.t].kind == m.tasks[n.t].kind
         && (T.Unfinished(m'.tasks[n.t]) ==> T.Unfinished(m.tasks[n.t]))
         && (m'.tasks[n.t].kind.Close? && m'.tasks[n.t].phase == T.Finished(T.Returned) ==> !m'.sinkOpen)
       else n.Spawn? && m'.tasks[n.t].kind == n.kind && T.Unfinished(m'.tasks[n.t])
  }

  lemma TableIsSinkStep(m: T.Mux, m': T.Mux, t: T.TaskId)
    requires TP.TableStep(m, m', t) && SinkLeft(m, m', t)
    ensures SinkStep(m, T.Run(t), m')
  {
    hide TP.EntryOk, TP.Settled, TP.NewMail, TP.NewDrop;
  }

  predicate SinkLeft(m: T.Mux, m': T.Mux, t: T.TaskId) {
    m'.sinkOpen == m.sinkOpen && t in m'.tasks && !(m'.tasks[t].kind.Close? && m'.tasks[t].phase.Finished?)
  }

  lemma RegisterLeavesSink(m: T.Mux, t: T.TaskId)
    requires t in m.tasks && m.tasks[t].kind.Invoke?
    ensures SinkLeft(m, T.RegisterWaiter(m, t), t)
  {
  }

  lemma RemoveLeavesSink(m: T.Mux, t: T.TaskId, error: Error)
    requires t in m.tasks && m.tasks[t].kind.Invoke?
    ensures SinkLeft(m, T.RemoveWaiter(m, t, error), t)
  {
  }

  lemma OthersLeaveSink(m: T.Mux, t: T.TaskId)
    requires T.WellFormed(m) && t in m.tasks && m.tasks[t].phase.In? &&
             T.FitsKind(m.tasks[t].kind, m.tasks[t].phase.section)
    requires m.tasks[t].phase.section.Deliver? || m.tasks[t].phase.section.Clear?
    ensures SinkLeft(m, T.RunSection(m, t, m.tasks[t].phase.section), t)
  {
  }

  /** A section that works on the waiter table leaves the sink alone. */
  lemma TableLeavesSink(m: T.Mux, t: T.TaskId)
    requires TI.Inv(m) && T.Enabled(m, T.Run(t)) && TP.TableLabel(m, T.Run(t))
    ensures SinkLeft(m, T.Apply(m, T.Run(t)), t)
  {
    assert T.Fits(m, t);
    match m.tasks[t].phase.section
    case Register => RegisterLeavesSink(m, t);
    case Undo(error) => RemoveLeavesSink(m, t, error);
    case Cleanup(error) => RemoveLeavesSink(m, t, error);
    case _ => OthersLeaveSink(m, t);
  }

  lemma SectionIsSinkStep(m: T.Mux, t: T.TaskId)
    requires TI.Inv(m) && T.Enabled(m, T.Run(t))
    ensures SinkStep(m, T.Run(t), T.Apply(m, T.Run(t)))
  {
    assert T.Fits(m, t);
    if TP.TableLabel(m, T.Run(t)) {
      TP.TableSteps(m, t);
      TableLeavesSink(m, t);
      TableIsSinkStep(m, T.Apply(m, T.Run(t)), t);
    } else if m.tasks[t].phase.section.Alloc? {
    } else {
      TP.PcSteps(m, T.Run(t));
    }
  }

  lemma EveryStepIsSinkStep(m: T.Mux, n: T.Label)
    requires TI.Inv(m) && T.Enabled(m, n)
    ensures SinkStep(m, n, T.Apply(m, n))
  {
    if n.Run? {
      SectionIsSinkStep(m, n.t);
    } else {
      assert n.t in m.tasks ==> T.Fits(m, n.t);
      TP.PcSteps(m, n);
    }
  }

  // ---- Every step keeps it ----

  lemma NetTurnKeepsSink(c: State, c': State, gen: nat, n: T.Label)
    requires gen < |c.nets| && gen < |c'.nets| && SinkOk(c, gen) && SinkCall(c, gen, n) && c'.rec == c.rec
    requires SinkStep(c.nets[gen], n, c'.nets[gen])
    ensures SinkOk(c', gen)
  {
    var m, m' := c.nets[gen], c'.nets[gen];
    assert n.t in m.tasks ==> FutureOk(c, gen, n.t);
    forall t | t in m'.tasks ensures FutureOk(c', gen, t) {
      assert t in m.tasks ==> FutureOk(c, gen, t);
    }
  }

  lemma SupervisorTurnKeepsSink(c: State, c': State, gen: nat, r: R.Label)
    requires gen < |c.nets| == |c.rec.conns| && gen < |c'.nets| && SinkOk(c, gen) && c'.nets[gen] == c.nets[gen]
    requires RI.Inv(c.rec) && R.Enabled(c.rec, r) && SinkWaits(c, r) && c'.rec == R.Apply(c.rec, r)
    ensures SinkOk(c', gen)
  {
    SupervisorStep(c.rec, r, gen);
    if Closing(c.rec, gen) && r.Advance? && ByOwner(c.rec, r) {
      var t :| t in c.nets[gen].tasks && c.nets[gen].tasks[t].kind == T.Close &&
          c.nets[gen].tasks[t].phase == T.Finished(T.Returned);
      assert FutureOk(c, gen, t);
    }
    forall t | t in c'.nets[gen].tasks ensures FutureOk(c', gen, t) {
      assert FutureOk(c, gen, t);
    }
  }

  ghost predicate NetSteps(c: State, gen: nat, n: T.Label, m': T.Mux)
    requires gen < |c.nets|
  {
    SinkCall(c, gen, n) && T.WellFormed(c.nets[gen]) && T.Enabled(c.nets[gen], n) && m' == T.Apply(c.nets[gen], n)
  }

  /** Connection gen turns by a step of its transport, or of the supervisor, or not at all. */
  ghost predicate NetTurn(c: State, c': State, gen: nat)
    requires gen < |c.nets| && gen < |c'.nets|
  {
    c'.rec == c.rec && (c'.nets[gen] == c.nets[gen] || exists n :: NetSteps(c, gen, n, c'.nets[gen]))
  }

  ghost predicate SupervisorTurn(c: State, c': State, gen: nat)
    requires gen < |c.nets| && gen < |c'.nets|
  {
    c'.nets[gen] == c.nets[gen] && exists r :: R.Enabled(c.rec, r) && SinkWaits(c, r) && c'.rec == R.Apply(c.rec, r)
  }

  ghost predicate RecTurn(c: State, c': State) {
    c'.rec == c.rec || exists r :: R.Enabled(c.rec, r) && SinkWaits(c, r) && c'.rec == R.Apply(c.rec, r)
  }

  ghost predicate Turns(c: State, c': State) {
    && RecTurn(c, c')
    && |c.nets| <= |c'.nets| && (forall gen: nat | |c.nets| <= gen < |c'.nets| :: c'.nets[gen] == T.INIT)
    && forall gen: nat | gen < |c.nets| :: NetTurn(c, c', gen) || SupervisorTurn(c, c', gen)
  }

  lemma TurnsKeepSinks(c: State, c': State)
    requires Inv(c) && SinkInv(c) && Turns(c, c')
    ensures SinkInv(c')
  {
    forall gen: nat | gen < |c'.nets| ensures SinkOk(c', gen) {
      if gen < |c.nets| {
        assert SinkOk(c, gen) && NetOk(c, gen);
        TurnKeepsSink(c, c', gen);
      }
    }
  }

  lemma TurnKeepsSink(c: State, c': State, gen: nat)
    requires gen < |c.nets| == |c.rec.conns| && gen < |c'.nets| &&
             SinkOk(c, gen) && RI.Inv(c.rec) && TI.Inv(c.nets[gen])
    requires NetTurn(c, c', gen) || SupervisorTurn(c, c', gen)
    ensures SinkOk(c', gen)
  {
    if SupervisorTurn(c, c', gen) {
      var r :| R.Enabled(c.rec, r) && SinkWaits(c, r) && c'.rec == R.Apply(c.rec, r);
      SupervisorTurnKeepsSink(c, c', gen, r);
    } else if c'.nets[gen] == c.nets[gen] {
      forall t | t in c'.nets[gen].tasks ensures FutureOk(c', gen, t) { assert FutureOk(c, gen, t); }
    } else {
      var n :| NetSteps(c, gen, n, c'.nets[gen]);
      EveryStepIsSinkStep(c.nets[gen], n);
      NetTurnKeepsSink(c, c', gen, n);
    }
  }

  /** One transport takes a step. */
  lemma NetTurns(c: State, c': State, gen: nat, n: T.Label)
    requires Inv(c) && gen < |c.nets| && T.WellFormed(c.nets[gen]) && T.Enabled(c.nets[gen], n) && SinkCall(c, gen, n)
    requires c'.rec == c.rec && c'.nets == c.nets[gen := T.Apply(c.nets[gen], n)]
    ensures Turns(c, c')
  {
    assert NetSteps(c, gen, n, c'.nets[gen]);
    forall g: nat | g < |c.nets| ensures NetTurn(c, c', g) {
    }
  }

  lemma SupervisorTurns(c: State, c': State, r: R.Label)
    requires Inv(c) && R.Enabled(c.rec, r) && SinkWaits(c, r) && c'.rec == R.Apply(c.rec, r)
    requires c'.nets == Supervised(c, c'.rec).nets
    ensures Turns(c, c')
  {
    forall g: nat | g < |c.nets| ensures SupervisorTurn(c, c', g) {
    }
  }

  lemma LeavingTurns(c: State, c': State, pc: Pc)
    requires Inv(c) && WellFormed(c) && (GenOf(pc).Some? ==> Has(c, GenOf(pc).value))
    requires c'.rec == c.rec && c'.nets == LeaveInvoke(c, pc)
    ensures Turns(c, c')
  {
    if pc.Invoking? && T.Enabled(c.nets[pc.gen], T.Cancel(pc.t)) {
      NetTurns(c, c', pc.gen, T.Cancel(pc.t));
    }
  }

  lemma QuietTurns(c: State, c': State)
    requires c'.rec == c.rec && c'.nets == c.nets
    ensures Turns(c, c')
  {
  }

  /** The steps of one send. */
  predicate SendLabel(l: Label) {
    !l.Supervise? && !l.Network? && !l.NoticeAttach?
  }

  lemma CallTurns(c: State, s: SendId, t: T.TaskId)
    requires Inv(c) && WellFormed(c) && Enabled(c, Call(s, t))
    ensures Turns(c, Apply(c, Call(s, t)))
  {
    var gen := c.sends[s].pc.gen;
    if !c.rec.conns[gen].cancelled {
      NetTurns(c, Apply(c, Call(s, t)), gen, T.Spawn(t, CallKind(s, c.sends[s], c.sends[s].pc.req)));
    }
  }

  lemma SendTurns(c: State, l: Label)
    requires Inv(c) && WellFormed(c) && Enabled(c, l) && SendLabel(l)
    ensures Turns(c, Apply(c, l))
  {
    hide T.Apply, T.Enabled, R.Enabled, R.AdvanceRunner, RI.Inv, Foreign;
    var c' := Apply(c, l);
    if l.Call? {
      CallTurns(c, l.s, l.t);
    } else if l.Subscribe? {
      SupervisorTurns(c, c', R.Start(l.a, R.Waiter(R.Subscribing)));
    } else if l.Answer? && c'.rec != c.rec {
      SupervisorTurns(c, c', R.CancelConn(c.sends[l.s].pc.gen));
    } else if l.SeeCancelled? || l.Drop? {
      LeavingTurns(c, c', c.sends[l.s].pc);
    }
  }

  lemma StepTurns(c: State, l: Label)
    requires Inv(c) && WellFormed(c) && Enabled(c, l)
    ensures Turns(c, Apply(c, l))
  {
    hide T.Apply, R.Apply, Inv, Turns;
    match l
    case Supervise(r) => SupervisorTurns(c, Apply(c, l), r);
    case Network(gen, n) => NetTurns(c, Apply(c, l), gen, n);
    case NoticeAttach(_, _) => QuietTurns(c, Apply(c, l));
    case _ => SendTurns(c, l);
  }

  lemma {:induction false} RunKeepsSinks(cs: seq<State>, ls: seq<Label>, i: nat)
    requires IsRun(cs, ls) && i <= |ls|
    ensures SinkInv(cs[i])
  {
    if i > 0 {
      RunKeepsSinks(cs, ls, i - 1);
      RunKeepsInv(cs, ls, i - 1);
      assert IsStep(cs[i - 1], ls[i - 1], cs[i - 1 + 1]);
      StepTurns(cs[i - 1], ls[i - 1]);
      TurnsKeepSinks(cs[i - 1], cs[i]);
    }
  }

  // ---- After `disconnect` ----

  predicate Disconnected(c: State, a: R.ActorId) {
    a in c.rec.actors && c.rec.actors[a] == R.Disconnecter(R.DisconnectDone)
  }

  /** Then no sink is open. */
  lemma DisconnectedIsClosed(c: State, a: R.ActorId)
    requires Inv(c) && SinkInv(c) && Disconnected(c, a)
    ensures forall gen: nat | gen < |c.nets| :: !c.nets[gen].sinkOpen
  {
    assert RI.ActorOk(c.rec, a);
    forall gen: nat | gen < |c.nets| ensures !c.nets[gen].sinkOpen { assert SinkOk(c, gen); }
  }

  lemma DisconnectedStays(c: State, c': State, a: R.ActorId)
    requires Inv(c) && Inv(c') && SinkInv(c) && Turns(c, c') && Disconnected(c, a)
    ensures Disconnected(c', a) && |c'.nets| == |c.nets|
    ensures forall gen: nat | gen < |c.nets| :: c'.nets[gen].wire == c.nets[gen].wire
  {
    DisconnectedIsClosed(c, a);
    if c'.rec != c.rec {
      var r :| R.Enabled(c.rec, r) && SinkWaits(c, r) && c'.rec == R.Apply(c.rec, r);
      RT.DisconnectedStays(c.rec, r, a);
    }
    forall gen: nat | gen < |c.nets| ensures c'.nets[gen].wire == c.nets[gen].wire {
      assert (NetTurn(c, c', gen) || SupervisorTurn(c, c', gen)) && NetOk(c, gen);
      if c'.nets[gen] != c.nets[gen] {
        var n :| NetSteps(c, gen, n, c'.nets[gen]);
        EveryStepIsSinkStep(c.nets[gen], n);
      }
    }
  }

  /** When a `disconnect` has returned, then and ever after: every transport's sink is
      gone, no transport is made, and not one more frame is written on any of them. */
  lemma {:induction false} DisconnectSilences(cs: seq<State>, ls: seq<Label>, i: nat, j: nat, a: R.ActorId)
    requires IsRun(cs, ls) && i <= j <= |ls| && Disconnected(cs[i], a)
    ensures Disconnected(cs[j], a) && |cs[j].nets| == |cs[i].nets|
    ensures forall gen: nat | gen < |cs[i].nets| ::
              !cs[j].nets[gen].sinkOpen && cs[j].nets[gen].wire == cs[i].nets[gen].wire
  {
    hide Inv, SinkInv, Turns, Enabled, Apply;
    RunKeepsInv(cs, ls, j);
    RunKeepsSinks(cs, ls, j);
    if i < j {
      DisconnectSilences(cs, ls, i, j - 1, a);
      RunKeepsInv(cs, ls, j - 1);
      RunKeepsSinks(cs, ls, j - 1);
      assert IsStep(cs[j - 1], ls[j - 1], cs[j - 1 + 1]);
      StepTurns(cs[j - 1], ls[j - 1]);
      DisconnectedStays(cs[j - 1], cs[j], a);
    }
    DisconnectedIsClosed(cs[j], a);
  }
}
