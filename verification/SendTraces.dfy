/** The sends of the whole client behave as the replay loops do: in every run, what one
    send has done so far is what its loop does on some turns, the last perhaps unfinished. */
module SendTraces {
  import opened Protocol
  import opened Client
  import opened ClientInvariant
  import opened ClientTheorems
  import opened S = Senders
  import T = Transport
  import R = Recovery
  import A = Attachments

  // ---- What a send does in a run ----

  /** The file of registration w. */
  function FileAt(c: State, gen: nat, w: nat): int {
    if gen < |c.files| && A.IsRegistration(c.files[gen], w) then c.files[gen][w].fileId else 0
  }

  function InvokeOf(send: Send, gen: nat, req: Request): Act {
    S.Invoke(gen, OpcodeOf(req), if send.cid.Some? then PayloadOf(send, req) else Other)
  }

  /** The waiter leaves its scope, if there is one. */
  function LeaveActs(c: State, pc: Pc): seq<Act> {
    match pc
    case Uploading(gen, w) => [S.Release(gen, FileAt(c, gen, w))]
    case Processing(gen, w) => [S.Release(gen, FileAt(c, gen, w))]
    case _ => []
  }

  predicate IsOwn(l: Label, s: SendId) {
    !l.Supervise? && !l.Network? && !l.NoticeAttach? && l.s == s
  }

  /** What step l makes send s do. */
  function StepActs(c: State, l: Label, s: SendId): seq<Act> {
    if !IsOwn(l, s) || s !in c.sends then []
    else
      var pc := c.sends[s].pc;
      match l
      case Call(_, _) => if pc.Calling? then [InvokeOf(c.sends[s], pc.gen, pc.req)] else []
      case Register(_) =>
        if pc.Registering? && pc.gen < |c.files| then
          if pc.fileId in A.Table(c.files[pc.gen]) then [S.Register(pc.gen, pc.fileId)]
          else [S.Register(pc.gen, pc.fileId), S.Upload(pc.gen)]
        else []
      case UploadEnds(_, failure) =>
        if failure.Some? then LeaveActs(c, pc)
        else if pc.Uploading? then [S.Await(pc.gen, FileAt(c, pc.gen, pc.w))]
        else []
      case SeeProcessed(_) => LeaveActs(c, pc)
      case ProcessingTimeout(_) => LeaveActs(c, pc)
      case SeeCancelled(_) => LeaveActs(c, pc)
      case Drop(_) => LeaveActs(c, pc)
      case _ => []
  }

  /** What send s has done in the first n steps of a run. */
  function ActsOf(cs: seq<State>, ls: seq<Label>, n: nat, s: SendId): seq<Act>
    requires n <= |ls| && |ls| < |cs|
  {
    if n == 0 then [] else ActsOf(cs, ls, n - 1, s) + StepActs(cs[n - 1], ls[n - 1], s)
  }

  // ---- What it does on turns of its loop ----

  function FirstActs(gen: nat, f: int): seq<Act> {
    [S.Invoke(gen, FILE_UPLOAD, Other), S.Register(gen, f), S.Upload(gen)]
  }

  /** What a send has done of the turn it is in. */
  function Begun(c: State, send: Send): seq<Act> {
    var cid := if send.cid.Some? then send.cid.value else 0;
    match send.pc
    case Invoking(gen, req, _) =>
      if req.Upload? then [S.Invoke(gen, FILE_UPLOAD, Other)]
      else if req.fileId.None? then [S.Post(gen, send.body.chatId, cid, None)]
      else
        var f := req.fileId.value;
        FirstActs(gen, f) + [S.Await(gen, f), S.Release(gen, f), S.Post(gen, send.body.chatId, cid, Some(f))]
    case Registering(gen, _) => [S.Invoke(gen, FILE_UPLOAD, Other)]
    case Uploading(gen, w) => FirstActs(gen, FileAt(c, gen, w))
    case Processing(gen, w) => FirstActs(gen, FileAt(c, gen, w)) + [S.Await(gen, FileAt(c, gen, w))]
    case Calling(gen, req) =>
      if req.Post? && req.fileId.Some? then
        FirstActs(gen, req.fileId.value) + [S.Await(gen, req.fileId.value), S.Release(gen, req.fileId.value)]
      else []
    case _ => []
  }

  /** These turns account for what the send has done, and for how it has ended. */
  ghost predicate Accounts(c: State, send: Send, acts: seq<Act>, turns: seq<Turn>) {
    var file := send.body.File?;
    var cid := if send.cid.Some? then send.cid.value else 0;
    && Connected(turns)
    && (send.cid.None? ==> turns == [])
    && var all := Acts(turns, send.body.chatId, cid, file);
       match send.pc
       case Delivered(_, _) => acts == all && Ends(Sent, turns, |turns|, file) && AllReplay(turns[..|turns| - 1], file)
       case Failed(error) =>
         acts == all &&
         (if turns != [] && !Replays(turns[|turns| - 1], file) then
            ErrorOf(turns[|turns| - 1], file) == Some(error) && AllReplay(turns[..|turns| - 1], file)
          else error == ConnectionClosed && AllReplay(turns, file))
       case Gone => acts <= all && (turns == [] || AllReplay(turns[..|turns| - 1], file))
       case _ => acts == all + Begun(c, send) && AllReplay(turns, file)
  }

  // ---- One step, on the turns ----

  predicate Running(pc: Pc) {
    !Over(pc)
  }

  /** The same send, further on. */
  predicate SameSend(a: Send, b: Send) {
    a.body == b.body && a.cid == b.cid
  }

  function CidOf(send: Send): int {
    if send.cid.Some? then send.cid.value else 0
  }

  function ActsOn(t: Turn, send: Send): seq<Act>
    requires t.connection.Some?
  {
    TurnActs(t, send.body.chatId, CidOf(send), send.body.File?)
  }

  /** The turn goes on. */
  lemma GoesOn(c: State, c': State, a: Send, b: Send, acts: seq<Act>, more: seq<Act>, turns: seq<Turn>)
    requires Accounts(c, a, acts, turns) && SameSend(a, b) && Running(a.pc) && Running(b.pc)
    requires Begun(c', b) == Begun(c, a) + more
    ensures Accounts(c', b, acts + more, turns)
  {
    assert acts + more == Acts(turns, a.body.chatId, CidOf(a), a.body.File?) + (Begun(c, a) + more);
  }

  /** The turn is over, and t is what it met. */
  lemma TurnEnds(c: State, c': State, a: Send, b: Send, acts: seq<Act>, more: seq<Act>, turns: seq<Turn>, t: Turn)
    requires Accounts(c, a, acts, turns) && SameSend(a, b) && a.cid.Some? && Running(a.pc)
    requires t.connection.Some? && ActsOn(t, a) == Begun(c, a) + more
    requires b.pc.Resolving? || b.pc.Delivered? || b.pc.Failed?
    requires b.pc.Resolving? ==> Replays(t, a.body.File?)
    requires b.pc.Delivered? ==> Sends(t, a.body.File?)
    requires b.pc.Failed? ==> ErrorOf(t, a.body.File?) == Some(b.pc.error) && !IsTransportFailure(b.pc.error)
    ensures Accounts(c', b, acts + more, turns + [t])
  {
    ActsGrow(turns, t, a.body.chatId, CidOf(a), a.body.File?);
    Joins(acts, more, Acts(turns, a.body.chatId, CidOf(a), a.body.File?), Begun(c, a), ActsOn(t, a));
    OneLess(turns, t);
    assert AllReplay(turns, a.body.File?);
    EndedAccounts(c', b, acts + more, turns, t);
  }

  lemma Joins(acts: seq<Act>, more: seq<Act>, all: seq<Act>, begun: seq<Act>, turn: seq<Act>)
    requires acts == all + begun && turn == begun + more
    ensures acts + more == all + turn
  {
  }

  /** All that is to be known of a send whose last turn is over. */
  lemma EndedAccounts(c: State, b: Send, acts: seq<Act>, turns: seq<Turn>, t: Turn)
    requires Connected(turns + [t]) && b.cid.Some? && AllReplay(turns, b.body.File?)
    requires acts == Acts(turns + [t], b.body.chatId, CidOf(b), b.body.File?)
    requires b.pc.Resolving? || b.pc.Delivered? || b.pc.Failed?
    requires b.pc.Resolving? ==> Replays(t, b.body.File?)
    requires b.pc.Delivered? ==> Sends(t, b.body.File?)
    requires b.pc.Failed? ==> ErrorOf(t, b.body.File?) == Some(b.pc.error) && !IsTransportFailure(b.pc.error)
    ensures Accounts(c, b, acts, turns + [t])
  {
    hide Acts, Sends, ErrorOf;
    ReplaysAreFaults(t, b.body.File?);
    hide Replays, IsTransportFailure;
    OneLess(turns, t);
    assert acts + [] == acts;
  }

  lemma PrefixJoins(acts: seq<Act>, more: seq<Act>, all: seq<Act>, begun: seq<Act>, rest: seq<Act>)
    requires acts == all + begun && begun + more <= rest
    ensures acts + more <= all + rest
  {
    assert acts + more == all + (begun + more);
  }

  /** The send is dropped in a turn that could have been t. */
  lemma TurnIsDropped(c: State, c': State, a: Send, b: Send, acts: seq<Act>, more: seq<Act>, turns: seq<Turn>, t: Turn)
    requires Accounts(c, a, acts, turns) && SameSend(a, b) && a.cid.Some? && Running(a.pc) && b.pc.Gone?
    requires t.connection.Some? && Begun(c, a) + more <= ActsOn(t, a)
    ensures Accounts(c', b, acts + more, turns + [t])
  {
    ActsGrow(turns, t, a.body.chatId, CidOf(a), a.body.File?);
    PrefixJoins(acts, more, Acts(turns, a.body.chatId, CidOf(a), a.body.File?), Begun(c, a), ActsOn(t, a));
    OneLess(turns, t);
  }

  lemma OneLess(turns: seq<Turn>, t: Turn)
    ensures (turns + [t])[..|turns + [t]| - 1] == turns
  {
  }

  /** A turn on this connection in which all went well, with file f. */
  function Smooth(gen: nat, f: int): Turn {
    Turn(Some(gen), Good(UploadSlot(Some(f))), true, Done, Done, Good(Other))
  }

  /** The turn that ends with this answer to the request it is at. */
  function Answered(gen: nat, req: Request, reply: Reply): Turn {
    if req.Upload? then Smooth(gen, 0).(slot := reply)
    else Smooth(gen, if req.fileId.Some? then req.fileId.value else 0).(post := reply)
  }

  /** What a send may be asking. */
  predicate Proper(send: Send, req: Request) {
    match req
    case Upload => send.body.File?
    case Post(fileId) => send.body.File? <==> fileId.Some?
  }

  lemma AnswerEndsTurn(c: State, send: Send, gen: nat, req: Request, reply: Reply)
    requires Proper(send, req) && send.cid.Some? && (req.Upload? ==> SlotOf(reply).None?)
    requires send.pc == Calling(gen, req) || exists t :: send.pc == Invoking(gen, req, t)
    ensures ActsOn(Answered(gen, req, reply), send) ==
            Begun(c, send) + (if send.pc.Calling? then [InvokeOf(send, gen, req)] else [])
    ensures reply.Bad? ==> ErrorOf(Answered(gen, req, reply), send.body.File?) == Some(reply.error)
    ensures req.Upload? && reply.Good? ==>
              ErrorOf(Answered(gen, req, reply), send.body.File?) == Some(UnexpectedResponse)
    ensures req.Post? && reply.Good? ==> Sends(Answered(gen, req, reply), send.body.File?)
  {
  }

  lemma AsksProperly(c: State, s: SendId)
    requires Inv(c) && s in c.sends
    ensures var pc := c.sends[s].pc;
      && (pc.Calling? || pc.Invoking? ==> Proper(c.sends[s], pc.req))
      && (pc.Registering? || pc.Uploading? || pc.Processing? ==> c.sends[s].body.File?)
      && (pc.Resolving? || pc.InCurrent? || GenOf(pc).Some? ==> c.sends[s].cid.Some?)
  {
    assert SendOk(c, s);
  }

  // ---- The steps of one send ----

  /** Before its turn has begun anything. */
  lemma NumberStep(c: State, s: SendId, now: int, acts: seq<Act>, turns: seq<Turn>)
    requires WellFormed(c) && Enabled(c, Number(s, now)) && c.sends[s].cid.None? && Accounts(c, c.sends[s], acts, turns)
    ensures var c' := Apply(c, Number(s, now)); s in c'.sends && Accounts(c', c'.sends[s], acts + [], turns)
  {
    assert Acts([], c.sends[s].body.chatId, 0, c.sends[s].body.File?) + [] == [];
    assert acts + [] == acts == [];
  }

  lemma SubscribeStep(c: State, s: SendId, a: R.ActorId, acts: seq<Act>, turns: seq<Turn>)
    requires WellFormed(c) && Enabled(c, Subscribe(s, a)) && Accounts(c, c.sends[s], acts, turns)
    ensures var c' := Apply(c, Subscribe(s, a)); s in c'.sends && Accounts(c', c'.sends[s], acts + [], turns)
  {
    assert acts + [] == acts;
  }

  /** `current()` returned. */
  lemma ObtainStep(c: State, s: SendId, acts: seq<Act>, turns: seq<Turn>)
    requires WellFormed(c) && Enabled(c, Obtain(s)) && Accounts(c, c.sends[s], acts, turns)
    ensures var c' := Apply(c, Obtain(s)); s in c'.sends && Accounts(c', c'.sends[s], acts + [], turns)
  {
    var all := Acts(turns, c.sends[s].body.chatId, CidOf(c.sends[s]), c.sends[s].body.File?);
    assert acts + [] == acts == all + [] == all;
  }

  lemma CallStep(c: State, s: SendId, t: T.TaskId, acts: seq<Act>, turns: seq<Turn>) returns (turns': seq<Turn>)
    requires Inv(c) && WellFormed(c) && Enabled(c, Call(s, t)) && Accounts(c, c.sends[s], acts, turns)
    ensures var c' := Apply(c, Call(s, t));
      s in c'.sends && Accounts(c', c'.sends[s], acts + StepActs(c, Call(s, t), s), turns')
  {
    hide T.Apply, T.Enabled, TI.Inv, A.Completed, WellFormed, Accounts;
    var c' := Apply(c, Call(s, t));
    var Calling(gen, req) := c.sends[s].pc;
    AsksProperly(c, s);
    if c.rec.conns[gen].cancelled {
      var turn := Answered(gen, req, Bad(ConnectionClosed));
      AnswerEndsTurn(c, c.sends[s], gen, req, Bad(ConnectionClosed));
      TurnEnds(c, c', c.sends[s], c'.sends[s], acts, [InvokeOf(c.sends[s], gen, req)], turns, turn);
      turns' := turns + [turn];
    } else {
      GoesOn(c, c', c.sends[s], c'.sends[s], acts, [InvokeOf(c.sends[s], gen, req)], turns);
      turns' := turns;
    }
  }

  lemma CancelledStep(c: State, s: SendId, acts: seq<Act>, turns: seq<Turn>) returns (turns': seq<Turn>)
    requires Inv(c) && WellFormed(c) && Enabled(c, SeeCancelled(s)) && Accounts(c, c.sends[s], acts, turns)
    ensures var c' := Apply(c, SeeCancelled(s));
      s in c'.sends && Accounts(c', c'.sends[s], acts + LeaveActs(c, c.sends[s].pc), turns')
  {
    hide T.Apply, T.WellFormed, TI.Inv, RI.Inv, SendOk, PartsOk, Acts;
    var c' := Apply(c, SeeCancelled(s));
    var pc := c.sends[s].pc;
    var turn;
    AsksProperly(c, s);
    if pc.Invoking? {
      turn := Answered(pc.gen, pc.req, Bad(ConnectionClosed));
      AnswerEndsTurn(c, c.sends[s], pc.gen, pc.req, Bad(ConnectionClosed));
    } else {
      turn := Smooth(pc.gen, FileAt(c, pc.gen, pc.w));
      turn := if pc.Uploading? then turn.(upload := ConnectionLost) else turn.(notice := ConnectionLost);
    }
    TurnEnds(c, c', c.sends[s], c'.sends[s], acts, LeaveActs(c, pc), turns, turn);
    turns' := turns + [turn];
  }

  lemma AnswerTurn(c: State, s: SendId, acts: seq<Act>, turns: seq<Turn>) returns (turns': seq<Turn>)
    requires Inv(c) && WellFormed(c) && Enabled(c, Answer(s)) && Accounts(c, c.sends[s], acts, turns)
    ensures var c' := Apply(c, Answer(s)); s in c'.sends && Accounts(c', c'.sends[s], acts + [], turns')
  {
    hide Accounts;
    var c' := Apply(c, Answer(s));
    var Invoking(gen, req, t) := c.sends[s].pc;
    var outcome := c.nets[gen].tasks[t].phase.outcome;
    AsksProperly(c, s);
    if c'.sends[s].pc.Registering? {
      GoesOn(c, c', c.sends[s], c'.sends[s], acts, [], turns);
      turns' := turns;
    } else {
      var reply := if outcome.Failed? then Bad(outcome.error) else Good(outcome.packet.payload);
      AnswerEndsTurn(c, c.sends[s], gen, req, reply);
      TurnEnds(c, c', c.sends[s], c'.sends[s], acts, [], turns, Answered(gen, req, reply));
      turns' := turns + [Answered(gen, req, reply)];
    }
  }

  lemma RegisterStep(c: State, s: SendId, acts: seq<Act>, turns: seq<Turn>) returns (turns': seq<Turn>)
    requires Inv(c) && WellFormed(c) && Enabled(c, Label.Register(s)) && Accounts(c, c.sends[s], acts, turns)
    ensures var c' := Apply(c, Label.Register(s));
      s in c'.sends && Accounts(c', c'.sends[s], acts + StepActs(c, Label.Register(s), s), turns')
  {
    hide T.Apply, R.Apply, TI.Inv, RI.Inv, SendOk, RequestOf, Acts;
    var c' := Apply(c, Label.Register(s));
    var Registering(gen, f) := c.sends[s].pc;
    AsksProperly(c, s);
    if f in A.Table(c.files[gen]) {
      var turn := Smooth(gen, f).(free := false);
      TurnEnds(c, c', c.sends[s], c'.sends[s], acts, [S.Register(gen, f)], turns, turn);
      turns' := turns + [turn];
    } else {
      GoesOn(c, c', c.sends[s], c'.sends[s], acts, [S.Register(gen, f), S.Upload(gen)], turns);
      turns' := turns;
    }
  }

  lemma UploadStep(c: State, s: SendId, failure: Option<Error>, acts: seq<Act>, turns: seq<Turn>)
    returns (turns': seq<Turn>)
    requires Inv(c) && WellFormed(c) && Enabled(c, UploadEnds(s, failure)) && Accounts(c, c.sends[s], acts, turns)
    ensures var c' := Apply(c, UploadEnds(s, failure));
      s in c'.sends && Accounts(c', c'.sends[s], acts + StepActs(c, UploadEnds(s, failure), s), turns')
  {
    hide T.Apply, T.Enabled, R.Apply, RI.Inv, Accounts;
    var c' := Apply(c, UploadEnds(s, failure));
    var Uploading(gen, w) := c.sends[s].pc;
    AsksProperly(c, s);
    if failure.Some? {
      var turn := Smooth(gen, FileAt(c, gen, w)).(upload := GaveUp(failure.value.transient));
      TurnEnds(c, c', c.sends[s], c'.sends[s], acts, LeaveActs(c, c.sends[s].pc), turns, turn);
      turns' := turns + [turn];
    } else {
      GoesOn(c, c', c.sends[s], c'.sends[s], acts, [S.Await(gen, FileAt(c, gen, w))], turns);
      turns' := turns;
    }
  }

  lemma ProcessedStep(c: State, s: SendId, acts: seq<Act>, turns: seq<Turn>)
    requires Inv(c) && WellFormed(c) && Enabled(c, SeeProcessed(s)) && Accounts(c, c.sends[s], acts, turns)
    ensures var c' := Apply(c, SeeProcessed(s));
      s in c'.sends && Accounts(c', c'.sends[s], acts + LeaveActs(c, c.sends[s].pc), turns)
  {
    hide T.Apply, T.Enabled, Inv, WellFormed;
    var c' := Apply(c, SeeProcessed(s));
    GoesOn(c, c', c.sends[s], c'.sends[s], acts, LeaveActs(c, c.sends[s].pc), turns);
  }

  lemma TimeoutStep(c: State, s: SendId, acts: seq<Act>, turns: seq<Turn>) returns (turns': seq<Turn>)
    requires Inv(c) && WellFormed(c) && Enabled(c, ProcessingTimeout(s)) && Accounts(c, c.sends[s], acts, turns)
    ensures var c' := Apply(c, ProcessingTimeout(s));
      s in c'.sends && Accounts(c', c'.sends[s], acts + LeaveActs(c, c.sends[s].pc), turns')
  {
    hide T.Apply, T.WellFormed, TI.Inv, RI.Inv, SendOk, Accounts;
    var c' := Apply(c, ProcessingTimeout(s));
    var Processing(gen, w) := c.sends[s].pc;
    AsksProperly(c, s);
    var turn := Smooth(gen, FileAt(c, gen, w)).(notice := GaveUp(false));
    TurnEnds(c, c', c.sends[s], c'.sends[s], acts, LeaveActs(c, c.sends[s].pc), turns, turn);
    turns' := turns + [turn];
  }

  /** A turn that a dropped send could have been in. */
  function DroppedTurn(c: State, pc: Pc): Turn {
    match pc
    case Invoking(gen, req, _) => Answered(gen, req, Bad(ConnectionClosed))
    case Registering(gen, _) => Smooth(gen, 0).(slot := Bad(ConnectionClosed))
    case Uploading(gen, w) => Smooth(gen, FileAt(c, gen, w)).(upload := ConnectionLost)
    case Processing(gen, w) => Smooth(gen, FileAt(c, gen, w)).(notice := ConnectionLost)
    case Calling(gen, req) => Smooth(gen, if req.Post? && req.fileId.Some? then req.fileId.value else 0)
    case _ => Smooth(0, 0)
  }

  lemma DroppedFits(c: State, send: Send)
    requires Running(send.pc) && send.cid.Some?
    requires send.pc.Calling? || send.pc.Invoking? ==> Proper(send, send.pc.req)
    requires send.pc.Registering? || send.pc.Uploading? || send.pc.Processing? ==> send.body.File?
    ensures Begun(c, send) + LeaveActs(c, send.pc) <= ActsOn(DroppedTurn(c, send.pc), send)
  {
    if send.pc.Invoking? {
      AnswerEndsTurn(c, send, send.pc.gen, send.pc.req, Bad(ConnectionClosed));
    }
  }

  lemma DropStep(c: State, s: SendId, acts: seq<Act>, turns: seq<Turn>) returns (turns': seq<Turn>)
    requires Inv(c) && WellFormed(c) && Enabled(c, Drop(s)) && Accounts(c, c.sends[s], acts, turns)
    ensures var c' := Apply(c, Drop(s));
      s in c'.sends && Accounts(c', c'.sends[s], acts + LeaveActs(c, c.sends[s].pc), turns')
  {
    hide T.Enabled, R.Apply, TI.Inv;
    var c' := Apply(c, Drop(s));
    var send := c.sends[s];
    AsksProperly(c, s);
    if send.pc.Numbering? {
      assert SendOk(c, s);
      assert Acts([], send.body.chatId, 0, send.body.File?) + [] == [] && acts + [] == acts;
      turns' := turns;
    } else {
      DroppedFits(c, send);
      TurnIsDropped(c, c', send, c'.sends[s], acts, LeaveActs(c, send.pc), turns, DroppedTurn(c, send.pc));
      turns' := turns + [DroppedTurn(c, send.pc)];
    }
  }

  // ---- Every step of every run ----

  lemma OwnFileStep(c: State, l: Label, s: SendId, acts: seq<Act>, turns: seq<Turn>) returns (turns': seq<Turn>)
    requires Inv(c) && WellFormed(c) && Enabled(c, l) && IsOwn(l, s) &&
             s in c.sends && Accounts(c, c.sends[s], acts, turns)
    requires l.Register? || l.UploadEnds? || l.SeeProcessed? || l.ProcessingTimeout?
    ensures var c' := Apply(c, l); s in c'.sends && Accounts(c', c'.sends[s], acts + StepActs(c, l, s), turns')
  {
    turns' := turns;
    match l
    case Register(_) => turns' := RegisterStep(c, s, acts, turns);
    case UploadEnds(_, failure) => turns' := UploadStep(c, s, failure, acts, turns);
    case SeeProcessed(_) => ProcessedStep(c, s, acts, turns);
    case ProcessingTimeout(_) => turns' := TimeoutStep(c, s, acts, turns);
  }

  lemma OwnStep(c: State, l: Label, s: SendId, acts: seq<Act>, turns: seq<Turn>) returns (turns': seq<Turn>)
    requires Inv(c) && WellFormed(c) && Enabled(c, l) && IsOwn(l, s) &&
             s in c.sends && Accounts(c, c.sends[s], acts, turns)
    ensures var c' := Apply(c, l); s in c'.sends && Accounts(c', c'.sends[s], acts + StepActs(c, l, s), turns')
  {
    hide Accounts, Apply, WellFormed;
    turns' := turns;
    if l.Register? || l.UploadEnds? || l.SeeProcessed? || l.ProcessingTimeout? {
      turns' := OwnFileStep(c, l, s, acts, turns);
    } else if l.Number? {
      assert SendOk(c, s);
      NumberStep(c, s, l.now, acts, turns);
    } else if l.Subscribe? {
      SubscribeStep(c, s, l.a, acts, turns);
    } else if l.Obtain? {
      ObtainStep(c, s, acts, turns);
    } else if l.Call? {
      turns' := CallStep(c, s, l.t, acts, turns);
    } else if l.SeeCancelled? {
      turns' := CancelledStep(c, s, acts, turns);
    } else if l.Answer? {
      turns' := AnswerTurn(c, s, acts, turns);
    } else {
      turns' := DropStep(c, s, acts, turns);
    }
  }

  /** The steps of others leave a send where it is, and only add to the registries. */
  lemma OthersStep(c: State, l: Label, s: SendId)
    requires WellFormed(c) && Enabled(c, l) && !IsOwn(l, s) && s in c.sends
    ensures s in Apply(c, l).sends && Apply(c, l).sends[s] == c.sends[s]
  {
  }

  lemma FilesGrow(c: State, l: Label, gen: nat)
    requires WellFormed(c) && Enabled(c, l) && gen < |c.files|
    ensures gen < |Apply(c, l).files| && c.files[gen] <= Apply(c, l).files[gen]
  {
  }

  lemma BegunStays(c: State, c': State, s: SendId)
    requires Inv(c) && s in c.sends
    requires forall gen: nat | gen < |c.files| :: gen < |c'.files| && c.files[gen] <= c'.files[gen]
    ensures Begun(c', c.sends[s]) == Begun(c, c.sends[s])
  {
    assert SendOk(c, s);
    var pc := c.sends[s].pc;
    if pc.Uploading? || pc.Processing? {
      assert RegistrationOk(c, pc.gen, pc.w);
    }
  }

  lemma OtherStep(c: State, l: Label, s: SendId, acts: seq<Act>, turns: seq<Turn>)
    requires Inv(c) && WellFormed(c) && Enabled(c, l) && !IsOwn(l, s) &&
             s in c.sends && Accounts(c, c.sends[s], acts, turns)
    ensures var c' := Apply(c, l); s in c'.sends && Accounts(c', c'.sends[s], acts + StepActs(c, l, s), turns)
  {
    OthersStep(c, l, s);
    forall gen: nat | gen < |c.files| ensures gen < |Apply(c, l).files| && c.files[gen] <= Apply(c, l).files[gen] {
      FilesGrow(c, l, gen);
    }
    BegunStays(c, Apply(c, l), s);
    assert acts + [] == acts;
  }

  /** A send appears at its Begin, having done nothing. */
  lemma Appears(c: State, l: Label, s: SendId)
    requires WellFormed(c) && Enabled(c, l) && s !in c.sends && s in Apply(c, l).sends
    ensures Apply(c, l).sends[s].pc.Numbering? && Apply(c, l).sends[s].cid.None?
  {
  }

  lemma {:induction false} NothingBefore(cs: seq<State>, ls: seq<Label>, n: nat, s: SendId)
    requires IsRun(cs, ls) && n <= |ls| && s !in cs[n].sends
    ensures ActsOf(cs, ls, n, s) == []
  {
    if n > 0 {
      assert IsStep(cs[n - 1], ls[n - 1], cs[n - 1 + 1]);
      RunKeepsInv(cs, ls, n - 1);
      if s in cs[n - 1].sends {
        Remains(cs[n - 1], ls[n - 1], s);
      }
      NothingBefore(cs, ls, n - 1, s);
    }
  }

  lemma Remains(c: State, l: Label, s: SendId)
    requires WellFormed(c) && Enabled(c, l) && s in c.sends
    ensures s in Apply(c, l).sends
  {
  }

  /** The sends refine their loops: after any number of steps of any run there are turns on
      which the loop of send s does what s has done. While s runs all of them are replayed
      and one more may have begun; a send that returned Ok ended as the loop does on them
      when it is `Sent`, and one that failed as it does when it is `Failed`. */
  lemma {:induction false} SendsAreLoops(cs: seq<State>, ls: seq<Label>, n: nat, s: SendId) returns (turns: seq<Turn>)
    requires IsRun(cs, ls) && n <= |ls| && s in cs[n].sends
    ensures Accounts(cs[n], cs[n].sends[s], ActsOf(cs, ls, n, s), turns)
  {
    hide Enabled, Apply;
    var c, l := cs[n - 1], ls[n - 1];
    assert IsStep(c, l, cs[n - 1 + 1]);
    RunKeepsInv(cs, ls, n - 1);
    if s in c.sends {
      turns := SendsAreLoops(cs, ls, n - 1, s);
      if IsOwn(l, s) {
        turns := OwnStep(c, l, s, ActsOf(cs, ls, n - 1, s), turns);
      } else {
        OtherStep(c, l, s, ActsOf(cs, ls, n - 1, s), turns);
      }
    } else {
      turns := [];
      NothingBefore(cs, ls, n - 1, s);
      Appears(c, l, s);
    }
  }
}
