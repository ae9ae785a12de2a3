/** Which errors end a send, and which send it to the next connection. */
module ClientErrors {
  import opened Protocol
  import opened Client
  import opened ClientInvariant
  import opened ClientTheorems
  import opened ClientSinks
  import T = Transport
  import TI = TransportInvariant
  import TP = TransportProofs
  import TE = TransportErrors
  import R = Recovery
  import RI = RecoveryInvariant
  import RT = RecoveryTheorems
  import ST = SendTraces

  // ---- The errors of calls ----

  ghost predicate CausesOk(c: State, gen: nat)
    requires gen < |c.nets|
  {
    TE.CauseInv(c.nets[gen])
  }

  ghost predicate Causes(c: State) {
    forall gen: nat {:trigger CausesOk(c, gen)} | gen < |c.nets| :: CausesOk(c, gen)
  }

  lemma TurnsKeepCauses(c: State, c': State)
    requires Inv(c) && Causes(c) && Turns(c, c')
    ensures Causes(c')
  {
    hide TE.CauseInv, T.Apply, T.Enabled;
    forall gen: nat | gen < |c'.nets| ensures CausesOk(c', gen) {
      if gen < |c.nets| {
        assert CausesOk(c, gen) && NetOk(c, gen);
        TurnKeepsCauses(c, c', gen);
      } else {
        NoCausesYet();
      }
    }
  }

  lemma NoCausesYet()
    ensures TE.CauseInv(T.INIT)
  {
  }

  lemma TurnKeepsCauses(c: State, c': State, gen: nat)
    requires gen < |c.nets| && gen < |c'.nets| && TI.Inv(c.nets[gen]) && TE.CauseInv(c.nets[gen])
    requires NetTurn(c, c', gen) || SupervisorTurn(c, c', gen)
    ensures TE.CauseInv(c'.nets[gen])
  {
    hide TE.CauseInv, T.Apply, T.Enabled, TI.Inv;
    if c'.nets[gen] != c.nets[gen] {
      var n :| NetSteps(c, gen, n, c'.nets[gen]);
      TE.StepKeepsCauses(c.nets[gen], n);
    }
  }

  lemma {:induction false} RunKeepsCauses(cs: seq<State>, ls: seq<Label>, i: nat)
    requires IsRun(cs, ls) && i <= |ls|
    ensures Causes(cs[i])
  {
    if i > 0 {
      RunKeepsCauses(cs, ls, i - 1);
      RunKeepsInv(cs, ls, i - 1);
      assert IsStep(cs[i - 1], ls[i - 1], cs[i - 1 + 1]);
      StepTurns(cs[i - 1], ls[i - 1]);
      TurnsKeepCauses(cs[i - 1], cs[i]);
    }
  }

  // ---- The answer to a call ----

  /** What the call of a send has come to, when it is over. */
  function Outcome(c: State, s: SendId): T.Outcome
    requires SendAt(c, s) && c.sends[s].pc.Invoking?
  {
    var Invoking(gen, _, t) := c.sends[s].pc;
    if t in c.nets[gen].tasks && c.nets[gen].tasks[t].phase.Finished?
      then c.nets[gen].tasks[t].phase.outcome else T.Returned
  }

  /** What an answer does to a send: a fault of the connection cancels it and sends the
      call round again; any other error is final; a response to MSG_SEND delivers the
      message, and one to FILE_UPLOAD gives the file id or is unexpected. */
  lemma AnswerDecides(cs: seq<State>, ls: seq<Label>, i: nat, s: SendId)
    requires IsRun(cs, ls) && i < |ls| && ls[i] == Answer(s)
    ensures SendAt(cs[i], s) && cs[i].sends[s].pc.Invoking? && s in cs[i + 1].sends
    ensures var gen, req := cs[i].sends[s].pc.gen, cs[i].sends[s].pc.req;
            var pc := cs[i + 1].sends[s].pc;
      match Outcome(cs[i], s)
      case Failed(error) =>
        if ConnectionFault(error) then pc == Resolving && Dead(cs[i + 1], gen) else pc == Failed(error)
      case Replied(packet) =>
        if req.Post? then pc == Delivered(gen, cs[i].sends[s].pc.t)
        else (match packet.payload
              case UploadSlot(Some(fileId)) => pc == Registering(gen, fileId)
              case _ => pc == Failed(UnexpectedResponse))
      case Returned => false
  {
    assert IsStep(cs[i], ls[i], cs[i + 1]);
  }

  // ---- The errors of sends ----

  /** The errors a send can end with. */
  predicate FinalError(c: State, send: Send, error: Error) {
    match error
    case Server(opcode) => opcode == MSG_SEND || (opcode == FILE_UPLOAD && send.body.File?)
    case UnexpectedResponse | Http(_) | FileProcessingTimeout(_) => send.body.File?
    case ConnectionClosed => c.rec.cell == R.Stopped
    case _ => false
  }

  predicate FinalOk(c: State, s: SendId)
    requires s in c.sends
  {
    c.sends[s].pc.Failed? ==> FinalError(c, c.sends[s], c.sends[s].pc.error)
  }

  ghost predicate FinalInv(c: State) {
    forall s {:trigger FinalOk(c, s)} | s in c.sends :: FinalOk(c, s)
  }

  /** A call that did not fail with its connection failed with the server's rejection. */
  lemma OnlyRejections(c: State, s: SendId, error: Error)
    requires Inv(c) && Causes(c) && SendAt(c, s) && c.sends[s].pc.Invoking? && Outcome(c, s) == T.Failed(error)
    requires !IsTransportFailure(error)
    ensures error == Server(OpcodeOf(c.sends[s].pc.req))
    ensures c.sends[s].body.Text? ==> c.sends[s].pc.req.Post?
  {
    var Invoking(gen, req, t) := c.sends[s].pc;
    assert SendOk(c, s) && CausesOk(c, gen);
    assert TE.CauseOk(c.nets[gen], t);
  }

  lemma StoppedStays(c: State, c': State)
    requires Inv(c) && Turns(c, c') && c.rec.cell == R.Stopped
    ensures c'.rec.cell == R.Stopped
  {
    if c'.rec != c.rec {
      var r :| R.Enabled(c.rec, r) && SinkWaits(c, r) && c'.rec == R.Apply(c.rec, r);
      RT.StepGrows(c.rec, r);
    }
  }

  lemma AnswerFinal(c: State, s: SendId)
    requires Inv(c) && WellFormed(c) && Causes(c) && Enabled(c, Answer(s))
    ensures s in Apply(c, Answer(s)).sends && FinalOk(Apply(c, Answer(s)), s)
  {
    assert SendOk(c, s);
    if Outcome(c, s).Failed? && !IsTransportFailure(Outcome(c, s).error) {
      OnlyRejections(c, s, Outcome(c, s).error);
    }
  }

  lemma ObtainFinal(c: State, s: SendId)
    requires Inv(c) && WellFormed(c) && Enabled(c, Obtain(s))
    ensures s in Apply(c, Obtain(s)).sends && FinalOk(Apply(c, Obtain(s)), s)
  {
    assert RI.ActorOk(c.rec, c.sends[s].pc.a);
  }

  lemma FileFinal(c: State, l: Label)
    requires Inv(c) && WellFormed(c) && Enabled(c, l) && (l.Register? || l.UploadEnds? || l.ProcessingTimeout?)
    ensures l.s in Apply(c, l).sends && FinalOk(Apply(c, l), l.s)
  {
    assert SendOk(c, l.s);
  }

  lemma QuietFinal(c: State, l: Label, s: SendId)
    requires WellFormed(c) && Enabled(c, l) && ST.IsOwn(l, s)
    requires !l.Answer? && !l.Obtain? && !l.Register? && !l.UploadEnds? && !l.ProcessingTimeout?
    ensures s in Apply(c, l).sends && FinalOk(Apply(c, l), s)
  {
  }

  lemma OwnFinal(c: State, l: Label, s: SendId)
    requires Inv(c) && WellFormed(c) && Causes(c) && Enabled(c, l) && ST.IsOwn(l, s)
    ensures s in Apply(c, l).sends && FinalOk(Apply(c, l), s)
  {
    hide Inv, Apply, FinalOk, Causes;
    if l.Answer? {
      AnswerFinal(c, s);
    } else if l.Obtain? {
      ObtainFinal(c, s);
    } else if l.Register? || l.UploadEnds? || l.ProcessingTimeout? {
      FileFinal(c, l);
    } else {
      QuietFinal(c, l, s);
    }
  }

  /** Sends appear only at their own Begin. */
  lemma OthersWereThere(c: State, l: Label, s: SendId)
    requires WellFormed(c) && Enabled(c, l) && !ST.IsOwn(l, s) && s in Apply(c, l).sends
    ensures s in c.sends
  {
  }

  lemma StepKeepsFinal(c: State, l: Label)
    requires Inv(c) && WellFormed(c) && Causes(c) && FinalInv(c) && Enabled(c, l)
    ensures FinalInv(Apply(c, l))
  {
    hide Inv, Apply, Causes, Turns;
    var c' := Apply(c, l);
    StepTurns(c, l);
    if c.rec.cell == R.Stopped { StoppedStays(c, c'); }
    forall s | s in c'.sends ensures FinalOk(c', s) {
      if ST.IsOwn(l, s) {
        OwnFinal(c, l, s);
      } else {
        OthersWereThere(c, l, s);
        ST.OthersStep(c, l, s);
        assert FinalOk(c, s);
      }
    }
  }

  lemma {:induction false} RunKeepsFinal(cs: seq<State>, ls: seq<Label>, i: nat)
    requires IsRun(cs, ls) && i <= |ls|
    ensures FinalInv(cs[i])
  {
    hide Inv, Causes, Apply, Enabled, FinalOk, WellFormed;
    if i > 0 {
      RunKeepsFinal(cs, ls, i - 1);
      RunKeepsInv(cs, ls, i - 1);
      RunKeepsCauses(cs, ls, i - 1);
      assert IsStep(cs[i - 1], ls[i - 1], cs[i - 1 + 1]);
      StepKeepsFinal(cs[i - 1], ls[i - 1]);
    }
  }

  /** A text send ends with the server's rejection of MSG_SEND, or because the client has
      stopped; a file send also with that of FILE_UPLOAD, an unusable slot, a failed upload
      or a notice that did not come. There is no other error. */
  lemma FinalErrors(cs: seq<State>, ls: seq<Label>, i: nat, s: SendId)
    requires IsRun(cs, ls) && i <= |ls| && s in cs[i].sends && cs[i].sends[s].pc.Failed?
    ensures match cs[i].sends[s].pc.error
      case Server(opcode) => opcode == MSG_SEND || (opcode == FILE_UPLOAD && cs[i].sends[s].body.File?)
      case UnexpectedResponse | Http(_) | FileProcessingTimeout(_) => cs[i].sends[s].body.File?
      case ConnectionClosed => cs[i].rec.cell == R.Stopped
      case _ => false
  {
    RunKeepsFinal(cs, ls, i);
    assert FinalOk(cs[i], s);
  }

  // ---- A rejection ends the send ----

  /** Call t of connection gen is over with this outcome. */
  predicate Over(c: State, gen: nat, t: T.TaskId, outcome: T.Outcome) {
    gen < |c.nets| && t in c.nets[gen].tasks && c.nets[gen].tasks[t].phase == T.Finished(outcome)
  }

  lemma OverStays(c: State, c': State, gen: nat, t: T.TaskId, outcome: T.Outcome)
    requires Inv(c) && Turns(c, c') && Over(c, gen, t, outcome)
    ensures Over(c', gen, t, outcome)
  {
    hide T.Apply;
    assert NetOk(c, gen) && (NetTurn(c, c', gen) || SupervisorTurn(c, c', gen));
    if c'.nets[gen] != c.nets[gen] {
      var n :| NetSteps(c, gen, n, c'.nets[gen]);
      TP.StepShape(c.nets[gen], n);
    }
  }

  lemma RunTurns(cs: seq<State>, ls: seq<Label>, i: nat)
    requires IsRun(cs, ls) && i < |ls|
    ensures i + 1 < |cs| && Inv(cs[i]) && Turns(cs[i], cs[i + 1])
  {
    hide Inv, Turns;
    RunKeepsInv(cs, ls, i);
    assert IsStep(cs[i], ls[i], cs[i + 1]);
    StepTurns(cs[i], ls[i]);
  }

  lemma {:induction false} OverForGood(
      cs: seq<State>, ls: seq<Label>, i: nat, k: nat, gen: nat, t: T.TaskId, outcome: T.Outcome)
    requires IsRun(cs, ls) && i <= k <= |ls| < |cs| && Over(cs[i], gen, t, outcome)
    ensures Over(cs[k], gen, t, outcome)
  {
    hide Inv, Turns, Over, IsRun;
    if i < k {
      OverForGood(cs, ls, i, k - 1, gen, t, outcome);
      RunTurns(cs, ls, k - 1);
      OverStays(cs[k - 1], cs[k], gen, t, outcome);
    }
  }

  /** The packet in the one-shot of call t. */
  predicate Rejected(c: State, gen: nat, t: T.TaskId) {
    gen < |c.nets| && t in c.nets[gen].mailbox && c.nets[gen].mailbox[t] in c.nets[gen].tasks &&
    var kind := c.nets[gen].tasks[c.nets[gen].mailbox[t]].kind;
    kind.Respond? && kind.packet.cmd == CMD_ERROR
  }

  lemma TakesRejection(c: State, gen: nat, t: T.TaskId)
    requires Inv(c) && WellFormed(c) && Enabled(c, Network(gen, T.TakeReply(t))) && Rejected(c, gen, t)
    ensures t in c.nets[gen].tasks && c.nets[gen].tasks[t].kind.Invoke?
    ensures Over(Apply(c, Network(gen, T.TakeReply(t))), gen, t, T.Failed(Server(c.nets[gen].tasks[t].kind.opcode)))
  {
    assert NetOk(c, gen) && T.Fits(c.nets[gen], t);
  }

  /** Once the rejection of its request is taken, the next answer a send sees ends it with
      `Server` and the request's opcode: it is not replayed. */
  lemma RejectionEndsSend(cs: seq<State>, ls: seq<Label>, i: nat, k: nat, s: SendId)
    requires IsRun(cs, ls) && i < k < |ls| && s in cs[i].sends && cs[i].sends[s].pc.Invoking?
    requires var Invoking(gen, req, t) := cs[i].sends[s].pc;
             Rejected(cs[i], gen, t) && ls[i] == Network(gen, T.TakeReply(t))
    requires ls[k] == Answer(s) && s in cs[k].sends && cs[k].sends[s].pc == cs[i].sends[s].pc
    ensures s in cs[k + 1].sends && cs[k + 1].sends[s].pc == Failed(Server(OpcodeOf(cs[i].sends[s].pc.req)))
  {
    var Invoking(gen, req, t) := cs[i].sends[s].pc;
    assert IsStep(cs[i], ls[i], cs[i + 1]);
    SendOkAt(cs, ls, i, s);
    RunKeepsInv(cs, ls, i);
    TakesRejection(cs[i], gen, t);
    OverForGood(cs, ls, i + 1, k, gen, t, T.Failed(Server(OpcodeOf(req))));
    AnswerDecides(cs, ls, k, s);
  }
}
