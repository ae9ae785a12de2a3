/** How a call ends: the step that decides it, for every outcome, and that nothing later
    changes it. */
module TransportOutcomes {
  import opened Protocol
  import opened Transport
  import opened TransportInvariant
  import opened TransportProofs
  import opened TransportTheorems
  import opened TransportErrors

  /** The packet in t's one-shot. */
  function Held(s: Mux, t: TaskId): Option<Packet> {
    if t in s.mailbox && s.mailbox[t] in s.tasks && s.tasks[s.mailbox[t]].kind.Respond? then
      Some(s.tasks[s.mailbox[t]].kind.packet)
    else None
  }

  /** Taking the response decides the call: an error response ends it as `Server` with the
      call's own opcode, any other as Ok with exactly that packet. */
  lemma ReplyDecides(ss: seq<Mux>, ls: seq<Label>, i: nat, t: TaskId)
    requires IsRun(ss, ls) && i < |ls| && ls[i] == TakeReply(t)
    ensures t in ss[i].tasks && ss[i].tasks[t].kind.Invoke? && Held(ss[i], t).Some? && t in ss[i + 1].tasks
    ensures ss[i + 1].tasks[t].phase ==
            if Held(ss[i], t).value.cmd == CMD_ERROR then Finished(Outcome.Failed(Server(ss[i].tasks[t].kind.opcode)))
            else Finished(Replied(Held(ss[i], t).value))
  {
    RunKeepsInv(ss, ls, i);
    assert IsStep(ss[i], ls[i], ss[i + 1]);
    assert Fits(ss[i], t) && MailOk(ss[i], t);
  }

  /** Step l, in state s, is where call t starts to fail with this error. */
  predicate FailsAt(s: Mux, l: Label, t: TaskId, error: Error) {
    l.t == t && t in s.tasks && s.tasks[t].kind.Invoke? &&
    var task := s.tasks[t];
    match l
    case TimeOut(_) => error == Timeout(task.kind.opcode)
    case SeeSenderGone(_) => error == ConnectionClosed
    case SendFails(_, e) => error == e
    case TakeReply(_) => Held(s, t).Some? && Held(s, t).value.cmd == CMD_ERROR && error == Server(task.kind.opcode)
    case Run(_) =>
      (task.phase == In(Feed) && !s.sinkOpen && error == ConnectionClosed) ||
      (task.phase == In(Register) && OwnerListens(s, task.seqNo) && error == DuplicateSequence(task.seqNo))
    case _ => false
  }

  predicate Fails(s: Mux, t: TaskId, error: Error) {
    t in s.tasks && s.tasks[t].kind.Invoke? && ErrorOf(s.tasks[t].phase) == Some(error)
  }

  /** A step makes a call fail, or keeps it failing, exactly so. */
  predicate ExactStep(s: Mux, l: Label, s': Mux, t: TaskId, error: Error) {
    Fails(s', t, error) <==> FailsAt(s, l, t, error) || (Fails(s, t, error) && l != Cancel(t))
  }

  lemma OthersFailTheSame(s: Mux, l: Label, t: TaskId, error: Error)
    requires Inv(s) && Enabled(s, l) && t != l.t
    ensures ExactStep(s, l, Apply(s, l), t, error)
  {
    hide Apply, Inv, Enabled;
    StepCausesStay(s, l);
  }

  lemma RemovalStep(s: Mux, t: TaskId, error: Error)
    requires Inv(s) && Enabled(s, Run(t)) && s.tasks[t].kind.Invoke?
    requires s.tasks[t].phase.section.Undo? || s.tasks[t].phase.section.Cleanup?
    ensures ExactStep(s, Run(t), Apply(s, Run(t)), t, error)
  {
    var e := s.tasks[t].phase.section.error;
    assert Apply(s, Run(t)) == RemoveWaiter(s, t, e);
    RemovedFails(s, t, e);
    hide Apply, RemoveWaiter, Inv;
  }

  /** Where a registration of number q leads. */
  function Decided(s: Mux, q: SeqNo): Phase {
    if OwnerListens(s, q) then Finished(Outcome.Failed(DuplicateSequence(q))) else Want(Feed)
  }

  lemma RegisterExact(s: Mux, s': Mux, t: TaskId, error: Error)
    requires t in s.tasks && s.tasks[t].kind.Invoke? && s.tasks[t].phase == In(Register)
    requires var q := s.tasks[t].seqNo;
      s'.tasks == s.tasks[t := s.tasks[t].(phase := Decided(s, q))]
    ensures ExactStep(s, Run(t), s', t, error)
  {
    hide OwnerListens;
  }

  lemma RegisterStep(s: Mux, t: TaskId, error: Error)
    requires Inv(s) && Enabled(s, Run(t)) && s.tasks[t].kind.Invoke? && s.tasks[t].phase == In(Register)
    ensures ExactStep(s, Run(t), Apply(s, Run(t)), t, error)
  {
    hide ExactStep, RegisterWaiter, OwnerListens;
    assert Apply(s, Run(t)) == RegisterWaiter(s, t);
    RefusesListeners(s, t);
    RegisterExact(s, RegisterWaiter(s, t), t, error);
  }

  /** The number is taken exactly when its owner listens. */
  lemma RefusesListeners(s: Mux, t: TaskId)
    requires Inv(s) && t in s.tasks
    ensures var s' := RegisterWaiter(s, t); var q := s.tasks[t].seqNo;
      s'.tasks == s.tasks[t := s.tasks[t].(phase := Decided(s, q))]
  {
  }

  lemma SectionStep(s: Mux, t: TaskId, error: Error)
    requires Inv(s) && Enabled(s, Run(t)) && s.tasks[t].kind.Invoke?
    ensures ExactStep(s, Run(t), Apply(s, Run(t)), t, error)
  {
    assert Fits(s, t);
    match s.tasks[t].phase.section
    case Undo(_) => RemovalStep(s, t, error);
    case Cleanup(_) => RemovalStep(s, t, error);
    case Register => RegisterStep(s, t, error);
    case Feed => FeedStep(s, t, error);
    case Alloc => AllocStep(s, t, error);
    case Order =>
  }

  lemma FeedStep(s: Mux, t: TaskId, error: Error)
    requires Inv(s) && Enabled(s, Run(t)) && s.tasks[t].kind.Invoke? && s.tasks[t].phase == In(Feed)
    ensures ExactStep(s, Run(t), Apply(s, Run(t)), t, error)
  {
    assert Apply(s, Run(t)) == FeedFrame(s, t);
    hide Apply, Inv;
  }

  lemma AllocStep(s: Mux, t: TaskId, error: Error)
    requires Inv(s) && Enabled(s, Run(t)) && s.tasks[t].kind.Invoke? && s.tasks[t].phase == In(Alloc)
    ensures ExactStep(s, Run(t), Apply(s, Run(t)), t, error)
  {
    assert Apply(s, Run(t)) == Allocate(s, t);
    hide Apply, Inv;
  }

  lemma WriteFailureStep(s: Mux, t: TaskId, e: Error, error: Error)
    requires Inv(s) && Enabled(s, SendFails(t, e)) && s.tasks[t].kind.Invoke?
    ensures ExactStep(s, SendFails(t, e), Apply(s, SendFails(t, e)), t, error)
  {
    assert Apply(s, SendFails(t, e)) == AfterSendFailure(s, t, e);
    hide Apply, Inv;
  }

  lemma ListeningStep(s: Mux, l: Label, error: Error)
    requires Inv(s) && Enabled(s, l) && (l.TakeReply? || l.SeeSenderGone? || l.TimeOut?) && s.tasks[l.t].kind.Invoke?
    ensures ExactStep(s, l, Apply(s, l), l.t, error)
  {
    assert l.TakeReply? ==> MailOk(s, l.t);
    hide Inv, RunSection, AfterSendFailure, LocksOf;
  }

  lemma QuietStep(s: Mux, l: Label, error: Error)
    requires Inv(s) && Enabled(s, l) && (l.Acquire? || l.Flushed? || l.Cancel?) && s.tasks[l.t].kind.Invoke?
    ensures ExactStep(s, l, Apply(s, l), l.t, error)
  {
    assert Fits(s, l.t);
  }

  lemma OwnStep(s: Mux, l: Label, error: Error)
    requires Inv(s) && Enabled(s, l) && l.t in s.tasks && s.tasks[l.t].kind.Invoke?
    ensures ExactStep(s, l, Apply(s, l), l.t, error)
  {
    hide Inv, Apply, ExactStep;
    if l.Run? {
      SectionStep(s, l.t, error);
    } else if l.SendFails? {
      WriteFailureStep(s, l.t, l.error, error);
    } else if l.TakeReply? || l.SeeSenderGone? || l.TimeOut? {
      ListeningStep(s, l, error);
    } else {
      QuietStep(s, l, error);
    }
  }

  lemma EveryStepIsExact(s: Mux, l: Label, t: TaskId, error: Error)
    requires Inv(s) && Enabled(s, l)
    ensures ExactStep(s, l, Apply(s, l), t, error)
  {
    if t != l.t {
      OthersFailTheSame(s, l, t, error);
    } else if t in s.tasks && s.tasks[t].kind.Invoke? {
      OwnStep(s, l, error);
    } else {
      StepCausesStay(s, l);
    }
  }

  /** The step at which call t started to fail with this error, and no cancellation since. */
  ghost predicate FailedSince(ss: seq<Mux>, ls: seq<Label>, j: nat, i: nat, t: TaskId, error: Error)
    requires |ls| < |ss| && j < i <= |ls|
  {
    FailsAt(ss[j], ls[j], t, error) && forall k | j < k < i :: ls[k] != Cancel(t)
  }

  /** A call is failing, or has failed, with this error exactly when some step made it: a
      timeout with its own opcode; the loss of its sender, or a missing sink, as
      `ConnectionClosed`; a failed write with the write's error; an error response as
      `Server`; a number that a listening call owns as `DuplicateSequence`. */
  lemma {:induction false} FailureHasStep(ss: seq<Mux>, ls: seq<Label>, i: nat, t: TaskId, error: Error)
    requires IsRun(ss, ls) && i <= |ls|
    ensures Fails(ss[i], t, error) <==> exists j: nat :: j < i && FailedSince(ss, ls, j, i, t, error)
  {
    hide FailsAt, Inv, Apply, Enabled;
    if i > 0 {
      FailureHasStep(ss, ls, i - 1, t, error);
      ExactAt(ss, ls, i - 1, t, error);
      LastStep(ss, ls, i - 1, i, t, error);
    }
  }

  lemma ExactAt(ss: seq<Mux>, ls: seq<Label>, i: nat, t: TaskId, error: Error)
    requires IsRun(ss, ls) && i < |ls|
    ensures ExactStep(ss[i], ls[i], ss[i + 1], t, error)
  {
    RunKeepsInv(ss, ls, i);
    assert IsStep(ss[i], ls[i], ss[i + 1]);
    EveryStepIsExact(ss[i], ls[i], t, error);
  }

  lemma LastStep(ss: seq<Mux>, ls: seq<Label>, m: nat, i: nat, t: TaskId, error: Error)
    requires i == m + 1 <= |ls| < |ss|
    ensures (exists j: nat :: j < i && FailedSince(ss, ls, j, i, t, error)) <==>
            FailsAt(ss[m], ls[m], t, error) ||
            (ls[m] != Cancel(t) && exists j: nat :: j < m && FailedSince(ss, ls, j, m, t, error))
  {
    hide FailsAt;
    if j: nat :| j < m && FailedSince(ss, ls, j, m, t, error) {
      assert ls[m] != Cancel(t) ==> FailedSince(ss, ls, j, i, t, error);
    }
    if j: nat :| j < i && FailedSince(ss, ls, j, i, t, error) {
      assert j < m ==> FailedSince(ss, ls, j, m, t, error);
    }
    assert FailsAt(ss[m], ls[m], t, error) ==> FailedSince(ss, ls, m, i, t, error);
  }

  /** A socket error comes only from a write that failed, before the call listened. */
  lemma SocketErrorsAreWrites(ss: seq<Mux>, ls: seq<Label>, i: nat, t: TaskId) returns (j: nat)
    requires IsRun(ss, ls) && i <= |ls| && Fails(ss[i], t, WebSocket)
    ensures j < i && ls[j] == SendFails(t, WebSocket) && t in ss[j].tasks
    ensures ss[j].tasks[t].phase == In(Feed) || ss[j].tasks[t].phase == Flushing
  {
    FailureHasStep(ss, ls, i, t, WebSocket);
    j :| j < i && FailedSince(ss, ls, j, i, t, WebSocket);
    assert IsStep(ss[j], ls[j], ss[j + 1]);
  }

  /** A write under way may fail, with the socket's error or with the timeout of its own
      request, and a call that listens may time out, whatever else is going on; and then
      the call fails with that error. */
  lemma WritesAndWaitsMayFail(ss: seq<Mux>, ls: seq<Label>, i: nat, t: TaskId, error: Error)
    requires IsRun(ss, ls) && i <= |ls| && t in ss[i].tasks && ss[i].tasks[t].kind.Invoke?
    requires error == Timeout(ss[i].tasks[t].kind.opcode) || (error == WebSocket && !ss[i].tasks[t].phase.Awaiting?)
    requires ss[i].tasks[t].phase.Flushing? || ss[i].tasks[t].phase.Awaiting? ||
             (ss[i].tasks[t].phase == In(Feed) && ss[i].sinkOpen)
    ensures var l := if ss[i].tasks[t].phase.Awaiting? then TimeOut(t) else SendFails(t, error);
      WellFormed(ss[i]) && Enabled(ss[i], l) && Fails(Apply(ss[i], l), t, error)
  {
    hide Apply;
    RunKeepsInv(ss, ls, i);
    var l := if ss[i].tasks[t].phase.Awaiting? then TimeOut(t) else SendFails(t, error);
    EveryStepIsExact(ss[i], l, t, error);
  }
}
