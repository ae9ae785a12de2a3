/** The invariant of the whole client. */
module ClientInvariant {
  import opened Protocol
  import opened Client
  import T = Transport
  import TI = TransportInvariant
  import R = Recovery
  import RI = RecoveryInvariant
  import RT = RecoveryTheorems
  import A = Attachments

  // ---- Parts ----

  ghost predicate NetOk(c: State, gen: nat)
    requires gen < |c.nets| && gen < |c.files|
  {
    TI.Inv(c.nets[gen]) && A.Legal(c.files[gen])
  }

  ghost predicate PartsOk(c: State) {
    && RI.Inv(c.rec) && |c.nets| == |c.rec.conns| && |c.files| == |c.rec.conns|
    && (forall gen: nat {:trigger NetOk(c, gen)} | gen < |c.nets| :: NetOk(c, gen))
  }

  // ---- Client ids ----

  predicate CidOk(c: State, s: SendId)
    requires s in c.sends
  {
    c.sends[s].cid.Some? ==> c.lastCid <= c.sends[s].cid.value
  }

  predicate CidsDiffer(c: State, s: SendId, u: SendId)
    requires s in c.sends && u in c.sends
  {
    s != u && c.sends[s].cid.Some? ==> c.sends[s].cid != c.sends[u].cid
  }

  ghost predicate CidInv(c: State) {
    && (forall s {:trigger CidOk(c, s)} | s in c.sends :: CidOk(c, s))
    && (forall s, u {:trigger CidsDiffer(c, s, u)} | s in c.sends && u in c.sends :: CidsDiffer(c, s, u))
  }

  // ---- Requests of sends ----

  /** On this connection, after s registered the file, its completion was processed. */
  ghost predicate Attached(c: State, gen: nat, s: SendId, fileId: int) {
    gen < |c.files| &&
    exists w: nat :: A.Completed(c.files[gen], w) && c.files[gen][w] == A.Registered(fileId) &&
                     (gen, w) in c.registrations && c.registrations[(gen, w)] == s
  }

  /** What s may ask of the connection: a text without attachment, or its own completed file. */
  ghost predicate MayPost(c: State, gen: nat, s: SendId, req: Request)
    requires s in c.sends
  {
    match req
    case Upload => c.sends[s].body.File?
    case Post(fileId) =>
      if c.sends[s].body.Text? then fileId.None? else fileId.Some? && Attached(c, gen, s, fileId.value)
  }

  ghost predicate RequestOf(c: State, gen: nat, s: SendId, kind: T.Kind) {
    s in c.sends && c.sends[s].cid.Some? &&
    ((kind == CallKind(s, c.sends[s], Upload) && MayPost(c, gen, s, Upload)) ||
     (exists fileId :: kind == CallKind(s, c.sends[s], Post(fileId)) && MayPost(c, gen, s, Post(fileId))))
  }

  ghost predicate TaskOk(c: State, gen: nat, t: T.TaskId)
    requires gen < |c.nets| && t in c.nets[gen].tasks
  {
    var kind := c.nets[gen].tasks[t].kind;
    kind.Invoke? && (kind.opcode == MSG_SEND || kind.origin.Some?) ==>
      kind.origin.Some? && RequestOf(c, gen, kind.origin.value, kind)
  }

  ghost predicate TaskInv(c: State) {
    forall gen: nat, t {:trigger TaskOk(c, gen, t)} | gen < |c.nets| && t in c.nets[gen].tasks :: TaskOk(c, gen, t)
  }

  // ---- Sends ----

  predicate Dead(c: State, gen: nat) {
    gen < |c.rec.conns| && c.rec.conns[gen].cancelled
  }

  ghost predicate UsedOk(c: State, used: seq<nat>) {
    && (forall i, j {:trigger used[i], used[j]} | 0 <= i < j < |used| :: used[i] < used[j])
    && (forall i {:trigger used[i]} | 0 <= i < |used| :: used[i] < |c.rec.conns| && c.rec.conns[used[i]].published)
    && (forall i {:trigger used[i]} | 0 <= i < |used| - 1 :: Dead(c, used[i]))
  }

  /** A connection newly resolved by `current()` is newer than all that this call has used. */
  ghost predicate ResolvesForward(c: State, used: seq<nat>, a: R.ActorId) {
    a in c.rec.actors && c.rec.actors[a].Waiter? &&
    (c.rec.actors[a].wait.Resolved? ==> used == [] || used[|used| - 1] < c.rec.actors[a].wait.gen)
  }

  ghost predicate SendOk(c: State, s: SendId)
    requires s in c.sends
  {
    var send := c.sends[s];
    var pc := send.pc;
    && UsedOk(c, send.used)
    && (pc.Numbering? ==> send.used == [] && send.cid.None?)
    && (pc.Resolving? || pc.InCurrent? ==> send.cid.Some? && (send.used != [] ==> Dead(c, send.used[|send.used| - 1])))
    && (pc.InCurrent? ==> ResolvesForward(c, send.used, pc.a))
    && (GenOf(pc).Some? ==> send.cid.Some? && send.used != [] && send.used[|send.used| - 1] == GenOf(pc).value)
    && match pc
       case Calling(gen, req) => MayPost(c, gen, s, req)
       case Invoking(gen, req, t) =>
         MayPost(c, gen, s, req) && gen < |c.nets| && t in c.nets[gen].tasks &&
           c.nets[gen].tasks[t].kind == CallKind(s, send, req)
       case Registering(gen, fileId) => send.body.File?
       case Uploading(gen, w) => send.body.File? && (gen, w) in c.registrations && c.registrations[(gen, w)] == s
       case Processing(gen, w) => send.body.File? && (gen, w) in c.registrations && c.registrations[(gen, w)] == s
       case Delivered(gen, t) =>
         gen < |c.nets| && t in c.nets[gen].tasks && TI.Answered(c.nets[gen].tasks[t]) &&
         c.nets[gen].tasks[t].kind.Invoke? && c.nets[gen].tasks[t].kind.opcode == MSG_SEND &&
           c.nets[gen].tasks[t].kind.origin == Some(s)
       case Failed(error) => FailureOk(c, error)
       case _ => true
  }

  /** A send fails for good only on an error that is not the connection's, or because the
      client has stopped. */
  predicate FailureOk(c: State, error: Error) {
    IsTransportFailure(error) ==> error == ConnectionClosed && c.rec.cell.Stopped?
  }

  ghost predicate SendInv(c: State) {
    forall s {:trigger SendOk(c, s)} | s in c.sends :: SendOk(c, s)
  }

  /** Registrations point at registration events. */
  predicate RegistrationOk(c: State, gen: nat, w: nat) {
    (gen, w) in c.registrations ==> gen < |c.files| && A.IsRegistration(c.files[gen], w)
  }

  ghost predicate Inv(c: State) {
    && PartsOk(c) && CidInv(c) && TaskInv(c) && SendInv(c)
    && (forall gen: nat, w: nat {:trigger RegistrationOk(c, gen, w)} :: RegistrationOk(c, gen, w))
  }

  lemma InitialInv(cid: int)
    ensures Inv(InitialState(cid))
  {
    RI.NewInv();
  }

  // ---- What a step leaves to the others ----

  ghost predicate NetGrows(m: T.Mux, m': T.Mux) {
    forall t {:trigger m.tasks[t]} {:trigger m'.tasks[t]} | t in m.tasks ::
      t in m'.tasks && m'.tasks[t].kind == m.tasks[t].kind && (TI.Answered(m.tasks[t]) ==> TI.Answered(m'.tasks[t]))
  }

  predicate SendGrows(c: State, c': State, s: SendId)
    requires s in c.sends
  {
    s in c'.sends && c'.sends[s].body == c.sends[s].body && (c.sends[s].cid.Some? ==> c'.sends[s].cid == c.sends[s].cid)
  }

  ghost predicate Grows(c: State, c': State) {
    && RT.Grows(c.rec, c'.rec) && |c.nets| <= |c'.nets| && |c.files| <= |c'.files|
    && (forall gen: nat {:trigger c'.nets[gen]} | gen < |c.nets| :: NetGrows(c.nets[gen], c'.nets[gen]))
    && (forall gen: nat {:trigger c'.files[gen]} | gen < |c.files| :: c.files[gen] <= c'.files[gen])
    && (forall s {:trigger SendGrows(c, c', s)} | s in c.sends :: SendGrows(c, c', s))
    && (forall k | k in c.registrations :: k in c'.registrations && c'.registrations[k] == c.registrations[k])
  }

  lemma AttachedGrows(c: State, c': State, gen: nat, s: SendId, fileId: int)
    requires Grows(c, c') && Attached(c, gen, s, fileId)
    ensures Attached(c', gen, s, fileId)
  {
    var w: nat :| A.Completed(c.files[gen], w) && c.files[gen][w] == A.Registered(fileId) &&
                  (gen, w) in c.registrations && c.registrations[(gen, w)] == s;
    CompletedGrows(c.files[gen], c'.files[gen], w);
  }

  lemma CompletedGrows(log: A.Log, log': A.Log, w: nat)
    requires log <= log' && A.Completed(log, w)
    ensures A.Completed(log', w)
  {
    var j :| w < j < |log| && log[j] == A.Notified(log[w].fileId) && forall k | w < k < j :: log[k] != A.Dropped(w);
    assert log'[j] == log[j];
  }

  lemma MayPostGrows(c: State, c': State, gen: nat, s: SendId, req: Request)
    requires Grows(c, c') && s in c.sends && MayPost(c, gen, s, req)
    ensures s in c'.sends && MayPost(c', gen, s, req)
  {
    assert SendGrows(c, c', s);
    if req.Post? && req.fileId.Some? {
      AttachedGrows(c, c', gen, s, req.fileId.value);
    }
  }

  lemma RequestGrows(c: State, c': State, gen: nat, s: SendId, kind: T.Kind)
    requires Grows(c, c') && RequestOf(c, gen, s, kind)
    ensures RequestOf(c', gen, s, kind)
  {
    assert SendGrows(c, c', s);
    if kind == CallKind(s, c.sends[s], Upload) && MayPost(c, gen, s, Upload) {
      assert kind == CallKind(s, c'.sends[s], Upload);
    } else {
      var fileId :| kind == CallKind(s, c.sends[s], Post(fileId)) && MayPost(c, gen, s, Post(fileId));
      MayPostGrows(c, c', gen, s, Post(fileId));
      assert kind == CallKind(s, c'.sends[s], Post(fileId));
    }
  }

  /** An old task still serves its send. */
  lemma TaskStaysOk(c: State, c': State, gen: nat, t: T.TaskId)
    requires Grows(c, c') && TaskInv(c) && gen < |c.nets| && t in c.nets[gen].tasks
    ensures t in c'.nets[gen].tasks && TaskOk(c', gen, t)
  {
    assert TaskOk(c, gen, t);
    var kind := c.nets[gen].tasks[t].kind;
    assert NetGrows(c.nets[gen], c'.nets[gen]);
    if kind.Invoke? && (kind.opcode == MSG_SEND || kind.origin.Some?) {
      RequestGrows(c, c', gen, kind.origin.value, kind);
    }
  }

  /** A send that the step does not move stays well. */
  lemma SendStaysOk(c: State, c': State, s: SendId)
    requires Grows(c, c') && s in c.sends && SendOk(c, s) && s in c'.sends && c'.sends[s] == c.sends[s]
    requires c.sends[s].pc.InCurrent? ==> ResolvesForward(c', c.sends[s].used, c.sends[s].pc.a)
    ensures SendOk(c', s)
  {
    var pc := c.sends[s].pc;
    UsedStaysOk(c, c', c.sends[s].used);
    if pc.Calling? || pc.Invoking? {
      MayPostGrows(c, c', pc.gen, s, pc.req);
    }
    if pc.Invoking? || pc.Delivered? {
      assert NetGrows(c.nets[pc.gen], c'.nets[pc.gen]);
    }
  }

  lemma UsedStaysOk(c: State, c': State, used: seq<nat>)
    requires Grows(c, c') && UsedOk(c, used)
    ensures UsedOk(c', used)
    ensures used != [] && Dead(c, used[|used| - 1]) ==> Dead(c', used[|used| - 1])
  {
    forall i | 0 <= i < |used| ensures used[i] < |c'.rec.conns| && c'.rec.conns[used[i]].published {
      assert c.rec.conns[used[i]].published;
    }
    forall i | 0 <= i < |used| && Dead(c, used[i]) ensures Dead(c', used[i]) {
      assert c.rec.conns[used[i]].cancelled;
    }
  }
}
