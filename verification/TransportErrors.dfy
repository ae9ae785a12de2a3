/** Why a call failed: every error the multiplexer returns has its cause in the run. */
module TransportErrors {
  import opened Protocol
  import opened Transport
  import opened TransportInvariant
  import opened TransportProofs
  import opened TransportTheorems

  /** The write of its frame failed, timed out, or found no sink. */
  ghost predicate WriteFailed(s: Mux, t: TaskId, error: Error)
    requires t in s.tasks
  {
    error.WebSocket? || error == Timeout(OpcodeOf(s.tasks[t])) || (error.ConnectionClosed? && !OnWire(s, t))
  }

  /** It listened in vain: it timed out, or its one-shot lost the sender. */
  predicate WaitFailed(s: Mux, t: TaskId, error: Error)
    requires t in s.tasks
  {
    error == Timeout(OpcodeOf(s.tasks[t])) || (error.ConnectionClosed? && t in s.dropped)
  }

  /** A response to it says so. */
  predicate ServerRefused(s: Mux, t: TaskId, error: Error)
    requires t in s.tasks
  {
    error == Server(OpcodeOf(s.tasks[t])) && t in s.mailbox && s.mailbox[t] in s.tasks &&
    s.tasks[s.mailbox[t]].kind.Respond? && s.tasks[s.mailbox[t]].kind.packet.cmd == CMD_ERROR
  }

  ghost predicate HasCause(s: Mux, t: TaskId, error: Error)
    requires t in s.tasks
  {
    WriteFailed(s, t, error) || WaitFailed(s, t, error) || ServerRefused(s, t, error) ||
    error == DuplicateSequence(s.tasks[t].seqNo)
  }

  /** The error an invoke has returned or is going to return. */
  function ErrorOf(phase: Phase): Option<Error> {
    match phase
    case Finished(outcome) => if outcome.Failed? then Some(outcome.error) else None
    case Want(section) => PendingError(section)
    case In(section) => PendingError(section)
    case _ => None
  }

  function PendingError(section: Section): Option<Error> {
    match section
    case Undo(error) => Some(error)
    case Cleanup(error) => Some(error)
    case _ => None
  }

  ghost predicate CauseOk(s: Mux, t: TaskId)
    requires t in s.tasks
  {
    var error := ErrorOf(s.tasks[t].phase);
    s.tasks[t].kind.Invoke? && error.Some? ==> HasCause(s, t, error.value)
  }

  ghost predicate CauseInv(s: Mux) {
    forall t {:trigger CauseOk(s, t)} | t in s.tasks :: CauseOk(s, t)
  }

  /** What a cause of a failure rests on stays, when t moves. */
  ghost predicate CausesStay(s: Mux, s': Mux, t: TaskId) {
    && t in s'.tasks && s'.tasks == s.tasks[t := s'.tasks[t]] && (t in s.tasks ==> s'.tasks[t].kind == s.tasks[t].kind)
    && s.dropped.Keys <= s'.dropped.Keys
    && (forall u | u in s.mailbox :: u in s'.mailbox && s'.mailbox[u] == s.mailbox[u])
    && (s'.wire == s.wire || (t in s.tasks && s.tasks[t].phase == In(Feed) && exists p ::
                                s'.wire == s.wire + [Frame(t, p)]))
  }

  lemma StepCausesStay(s: Mux, l: Label)
    requires Inv(s) && Enabled(s, l)
    ensures CausesStay(s, Apply(s, l), l.t)
  {
    var s' := Apply(s, l);
    StepShape(s, l);
    if TableStep(s, s', l.t) {
      forall u | u in s.mailbox ensures u in s'.mailbox && s'.mailbox[u] == s.mailbox[u] {
        assert u in s'.mailbox;
        assert NewMail(s, s', l.t, u);
      }
    }
  }

  lemma CauseStays(s: Mux, s': Mux, t: TaskId, u: TaskId, error: Error)
    requires CausesStay(s, s', t) && u in s.tasks && HasCause(s, u, error)
    requires u != t || (s'.wire == s.wire && s'.tasks[t].seqNo == s.tasks[t].seqNo)
    ensures u in s'.tasks && HasCause(s', u, error)
  {
    assert OnWire(s', u) ==> OnWire(s, u);
  }

  /** The step of an invoke that fails, or was already failing. */
  lemma ActorHasCause(s: Mux, l: Label)
    requires Inv(s) && CauseInv(s) && Enabled(s, l)
    ensures l.t in Apply(s, l).tasks && CauseOk(Apply(s, l), l.t)
  {
    var s', t := Apply(s, l), l.t;
    StepCausesStay(s, l);
    if t in s.tasks && s.tasks[t].kind.Invoke? {
      assert Fits(s, t) && CauseOk(s, t);
      match l
      case Run(_) => SectionHasCause(s, t);
      case Acquire(_) =>
        if ErrorOf(s.tasks[t].phase).Some? {
          CauseStays(s, s', t, t, ErrorOf(s.tasks[t].phase).value);
        }
      case TakeReply(_) => assert MailOk(s, t);
      case _ =>
    }
  }

  lemma RemovedFails(s: Mux, t: TaskId, error: Error)
    requires t in s.tasks
    ensures RemoveWaiter(s, t, error).tasks == s.tasks[t := s.tasks[t].(phase := Finished(Outcome.Failed(error)))]
    ensures RemoveWaiter(s, t, error).wire == s.wire
  {
  }

  lemma RemoveHasCause(s: Mux, t: TaskId, error: Error)
    requires t in s.tasks && HasCause(s, t, error) && CausesStay(s, RemoveWaiter(s, t, error), t)
    ensures t in RemoveWaiter(s, t, error).tasks && CauseOk(RemoveWaiter(s, t, error), t)
  {
    RemovedFails(s, t, error);
    CauseStays(s, RemoveWaiter(s, t, error), t, t, error);
  }

  lemma FeedHasCause(s: Mux, t: TaskId)
    requires WireInv(s) && t in s.tasks && s.tasks[t].kind.Invoke? && s.tasks[t].phase == In(Feed)
    ensures t in FeedFrame(s, t).tasks && CauseOk(FeedFrame(s, t), t)
  {
    forall k: nat | k < |s.wire| ensures s.wire[k].from != t { assert FrameOk(s, k); }
  }

  lemma RegisterHasCause(s: Mux, t: TaskId)
    requires t in s.tasks && s.tasks[t].kind.Invoke?
    ensures t in RegisterWaiter(s, t).tasks && CauseOk(RegisterWaiter(s, t), t)
  {
  }

  lemma SectionHasCause(s: Mux, t: TaskId)
    requires Inv(s) && Enabled(s, Run(t)) && CauseOk(s, t) && s.tasks[t].kind.Invoke?
    ensures var s' := Apply(s, Run(t)); t in s'.tasks && CauseOk(s', t)
  {
    assert Fits(s, t);
    StepCausesStay(s, Run(t));
    match s.tasks[t].phase.section
    case Undo(error) => RemoveHasCause(s, t, error);
    case Cleanup(error) => RemoveHasCause(s, t, error);
    case Feed => FeedHasCause(s, t);
    case Register => RegisterHasCause(s, t);
    case Alloc =>
    case Order =>
  }

  lemma StepKeepsCauses(s: Mux, l: Label)
    requires Inv(s) && CauseInv(s) && Enabled(s, l)
    ensures CauseInv(Apply(s, l))
  {
    var s' := Apply(s, l);
    StepCausesStay(s, l);
    ActorHasCause(s, l);
    forall u | u in s'.tasks ensures CauseOk(s', u) {
      if u != l.t {
        assert CauseOk(s, u);
        if s.tasks[u].kind.Invoke? && ErrorOf(s.tasks[u].phase).Some? {
          CauseStays(s, s', l.t, u, ErrorOf(s.tasks[u].phase).value);
        }
      }
    }
  }

  lemma {:induction false} RunKeepsCauses(ss: seq<Mux>, ls: seq<Label>, i: nat)
    requires IsRun(ss, ls) && i <= |ls|
    ensures CauseInv(ss[i])
  {
    if i > 0 {
      RunKeepsCauses(ss, ls, i - 1);
      RunKeepsInv(ss, ls, i - 1);
      assert IsStep(ss[i - 1], ls[i - 1], ss[i - 1 + 1]);
      StepKeepsCauses(ss[i - 1], ls[i - 1]);
    }
  }

  /** Every error has its cause: `Server` an error response with the call's number,
      `ConnectionClosed` a sender that was dropped or a frame that never went out,
      `Timeout` carries the call's own opcode and `DuplicateSequence` its own number,
      and there is no other error but a failed write. */
  lemma ErrorsHaveCauses(ss: seq<Mux>, ls: seq<Label>, i: nat, t: TaskId, error: Error)
    requires IsRun(ss, ls) && i <= |ls| && t in ss[i].tasks && ss[i].tasks[t].kind.Invoke?
    requires ss[i].tasks[t].phase == Finished(Outcome.Failed(error))
    ensures match error
      case Server(opcode) =>
        opcode == ss[i].tasks[t].kind.opcode && t in ss[i].mailbox && ss[i].mailbox[t] in ss[i].tasks &&
        var reply := ss[i].tasks[ss[i].mailbox[t]].kind;
        reply.Respond? && reply.packet.cmd == CMD_ERROR && reply.packet.seqNo == ss[i].tasks[t].seqNo
      case ConnectionClosed => t in ss[i].dropped || !OnWire(ss[i], t)
      case Timeout(opcode) => opcode == ss[i].tasks[t].kind.opcode
      case DuplicateSequence(q) => q == ss[i].tasks[t].seqNo
      case _ => error.WebSocket?
  {
    RunKeepsCauses(ss, ls, i);
    RunKeepsInv(ss, ls, i);
    assert CauseOk(ss[i], t);
    assert t in ss[i].mailbox ==> MailOk(ss[i], t);
  }
}
