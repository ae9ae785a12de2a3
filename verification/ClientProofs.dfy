/** Every step of the client keeps its invariant. */
module ClientProofs {
  import opened Protocol
  import opened Client
  import opened ClientInvariant
  import T = Transport
  import TI = TransportInvariant
  import TP = TransportProofs
  import R = Recovery
  import RI = RecoveryInvariant
  import RT = RecoveryTheorems
  import A = Attachments

  // ---- Facts about the parts ----

  lemma NetStepGrows(m: T.Mux, l: T.Label)
    requires TI.Inv(m) && T.Enabled(m, l)
    ensures NetGrows(m, T.Apply(m, l))
    ensures forall t | t in T.Apply(m, l).tasks && t !in m.tasks ::
              l.Spawn? && t == l.t && T.Apply(m, l).tasks[t].kind == l.kind
  {
    TP.StepShape(m, l);
  }

  /** A waiter of `current()` resolves only to a connection that is live at that moment. */
  lemma WaiterStays(rec: R.Sup, r: R.Label, a: R.ActorId)
    requires RI.Inv(rec) && R.Enabled(rec, r) && a in rec.actors && rec.actors[a].Waiter?
    ensures var rec' := R.Apply(rec, r);
      && a in rec'.actors && rec'.actors[a].Waiter?
      && (rec'.actors[a].wait.Resolved? ==>
            rec'.actors[a] == rec.actors[a] ||
            (rec'.conns == rec.conns && rec'.actors[a].wait.gen < |rec.conns| &&
             !rec.conns[rec'.actors[a].wait.gen].cancelled))
  {
    match r
    case Advance(b) => if rec.actors[b].Runner? { RunnerLeavesWaiter(rec, b, a); }
    case _ =>
  }

  lemma RunnerLeavesWaiter(rec: R.Sup, b: R.ActorId, a: R.ActorId)
    requires R.Enabled(rec, R.Advance(b)) && rec.actors[b].Runner? && a in rec.actors && a != b
    ensures var rec' := R.AdvanceRunner(rec, b, rec.actors[b].run); a in rec'.actors && rec'.actors[a] == rec.actors[a]
  {
  }

  lemma OneConnAtATime(rec: R.Sup, r: R.Label)
    requires R.Enabled(rec, r)
    ensures |R.Apply(rec, r).conns| <= |rec.conns| + 1
  {
    if r.Advance? && rec.actors[r.a].Runner? {
      RunnerAddsOne(rec, r.a);
    }
  }

  lemma RunnerAddsOne(rec: R.Sup, b: R.ActorId)
    requires R.Enabled(rec, R.Advance(b)) && rec.actors[b].Runner?
    ensures |R.AdvanceRunner(rec, b, rec.actors[b].run).conns| <= |rec.conns| + 1
  {
  }

  /** The newest connection is the only one that can be live, so resolving moves forward. */
  lemma ResolvesNewer(c: State, used: seq<nat>, gen: nat)
    requires RI.Inv(c.rec) && UsedOk(c, used) && gen < |c.rec.conns| && !c.rec.conns[gen].cancelled
    requires used != [] ==> Dead(c, used[|used| - 1])
    ensures used == [] || used[|used| - 1] < gen
  {
    RT.Live(c.rec);
  }

  // ---- Steps of the parts ----

  lemma SuperviseKeepsSend(c: State, r: R.Label, s: SendId)
    requires Inv(c) && R.Enabled(c.rec, r) && s in c.sends && c.sends[s].pc.InCurrent?
    ensures ResolvesForward(Supervised(c, R.Apply(c.rec, r)), c.sends[s].used, c.sends[s].pc.a)
  {
    assert SendOk(c, s);
    var a := c.sends[s].pc.a;
    WaiterStays(c.rec, r, a);
    var rec' := R.Apply(c.rec, r);
    if rec'.actors[a].wait.Resolved? && rec'.actors[a] != c.rec.actors[a] {
      ResolvesNewer(c, c.sends[s].used, rec'.actors[a].wait.gen);
    }
  }

  lemma SuperviseGrows(c: State, r: R.Label)
    requires Inv(c) && R.Enabled(c.rec, r)
    ensures Grows(c, Supervised(c, R.Apply(c.rec, r))) && PartsOk(Supervised(c, R.Apply(c.rec, r)))
  {
    hide T.Apply, T.WellFormed, R.Apply, SendOk, TaskOk;
    var c' := Supervised(c, R.Apply(c.rec, r));
    RI.StepKeepsInv(c.rec, r);
    RT.StepGrows(c.rec, r);
    OneConnAtATime(c.rec, r);
    TI.InitInv();
    forall gen: nat | gen < |c'.nets| ensures NetOk(c', gen) {
      assert gen < |c.nets| ==> NetOk(c, gen);
    }
  }

  lemma SuperviseKeepsInv(c: State, r: R.Label)
    requires Inv(c) && R.Enabled(c.rec, r)
    ensures Inv(Supervised(c, R.Apply(c.rec, r)))
  {
    var c' := Supervised(c, R.Apply(c.rec, r));
    SuperviseGrows(c, r);
    forall gen: nat, t | gen < |c'.nets| && t in c'.nets[gen].tasks ensures TaskOk(c', gen, t) {
      TaskStaysOk(c, c', gen, t);
    }
    forall s | s in c'.sends ensures SendOk(c', s) {
      assert SendOk(c, s);
      if c.sends[s].pc.InCurrent? { SuperviseKeepsSend(c, r, s); }
      SendStaysOk(c, c', s);
    }
    KeepsCids(c, c');
    KeepsRegistrations(c, c');
  }

  lemma KeepsCids(c: State, c': State)
    requires CidInv(c) && c'.lastCid == c.lastCid && c'.sends.Keys == c.sends.Keys
    requires forall s | s in c.sends :: c'.sends[s].cid == c.sends[s].cid
    ensures CidInv(c')
  {
    forall s | s in c'.sends ensures CidOk(c', s) { assert CidOk(c, s); }
    forall s, u | s in c'.sends && u in c'.sends ensures CidsDiffer(c', s, u) { assert CidsDiffer(c, s, u); }
  }

  lemma KeepsRegistrations(c: State, c': State)
    requires Inv(c) && Grows(c, c') && c'.registrations == c.registrations
    ensures forall gen: nat, w: nat {:trigger RegistrationOk(c', gen, w)} :: RegistrationOk(c', gen, w)
  {
    forall gen: nat, w: nat ensures RegistrationOk(c', gen, w) {
      assert RegistrationOk(c, gen, w);
      if (gen, w) in c.registrations {
        assert c.files[gen] <= c'.files[gen];
      }
    }
  }

  /** A step that leaves the sends and the supervisor alone. */
  lemma QuietKeepsInv(c: State, c': State)
    requires Inv(c) && Grows(c, c') && PartsOk(c') && c'.rec == c.rec && c'.sends == c.sends && c'.lastCid == c.lastCid
    requires c'.registrations == c.registrations
    requires forall gen: nat, t | gen < |c'.nets| && t in c'.nets[gen].tasks &&
             t !in c.nets[gen].tasks :: TaskOk(c', gen, t)
    ensures Inv(c')
  {
    forall gen: nat, t | gen < |c'.nets| && t in c'.nets[gen].tasks ensures TaskOk(c', gen, t) {
      if t in c.nets[gen].tasks { TaskStaysOk(c, c', gen, t); }
    }
    forall s | s in c'.sends ensures SendOk(c', s) {
      assert SendOk(c, s);
      SendStaysOk(c, c', s);
    }
    KeepsCids(c, c');
    KeepsRegistrations(c, c');
  }

  lemma NetworkKeepsInv(c: State, gen: nat, n: T.Label)
    requires Inv(c) && Has(c, gen) && T.WellFormed(c.nets[gen]) && T.Enabled(c.nets[gen], n) && Foreign(c, gen, n)
    ensures Inv(c.(nets := c.nets[gen := T.Apply(c.nets[gen], n)]))
  {
    hide T.Apply, T.Enabled, T.WellFormed, TI.Inv, RI.Inv;
    var c' := c.(nets := c.nets[gen := T.Apply(c.nets[gen], n)]);
    assert NetOk(c, gen);
    NetStepGrows(c.nets[gen], n);
    TP.StepKeepsInv(c.nets[gen], n);
    forall g: nat | g < |c'.nets| ensures NetOk(c', g) { assert NetOk(c, g); }
    QuietKeepsInv(c, c');
  }

  lemma NoticeKeepsInv(c: State, gen: nat, fileId: int)
    requires Inv(c) && Has(c, gen)
    ensures Inv(c.(files := c.files[gen := c.files[gen] + [A.Notified(fileId)]]))
  {
    var c' := c.(files := c.files[gen := c.files[gen] + [A.Notified(fileId)]]);
    assert NetOk(c, gen);
    A.AppendedIsLegal(c.files[gen], A.Notified(fileId));
    forall g: nat | g < |c'.nets| ensures NetOk(c', g) { assert NetOk(c, g); }
    QuietKeepsInv(c, c');
  }

  // ---- Polls of one send ----

  /** What has to be shown of a poll of s. */
  ghost predicate PollOk(c: State, c': State, s: SendId) {
    && Grows(c, c') && PartsOk(c') && CidInv(c') && |c'.nets| == |c.nets|
    && s in c'.sends && c'.sends == c.sends[s := c'.sends[s]] && SendOk(c', s)
    && (forall a | a in c.rec.actors :: a in c'.rec.actors && c'.rec.actors[a] == c.rec.actors[a])
    && (forall gen: nat, t | gen < |c'.nets| && t in c'.nets[gen].tasks && t !in c.nets[gen].tasks ::
          TaskOk(c', gen, t))
    && (forall gen: nat, w: nat {:trigger RegistrationOk(c', gen, w)} :: RegistrationOk(c', gen, w))
  }

  lemma PollKeepsInv(c: State, c': State, s: SendId)
    requires Inv(c) && PollOk(c, c', s)
    ensures Inv(c')
  {
    forall gen: nat, t | gen < |c'.nets| && t in c'.nets[gen].tasks ensures TaskOk(c', gen, t) {
      if t in c.nets[gen].tasks { TaskStaysOk(c, c', gen, t); }
    }
    forall u | u in c'.sends ensures SendOk(c', u) {
      if u != s {
        assert SendOk(c, u);
        SendStaysOk(c, c', u);
      }
    }
  }

  /** A poll that only moves s, with the parts as in c1. */
  lemma MoveKeepsInv(c: State, c1: State, s: SendId, pc: Pc)
    requires Inv(c) && Grows(c, c1) && PartsOk(c1) && s in c.sends
    requires c1.sends == c.sends && c1.lastCid == c.lastCid &&
             c1.registrations == c.registrations && |c1.nets| == |c.nets|
    requires forall a | a in c.rec.actors :: a in c1.rec.actors && c1.rec.actors[a] == c.rec.actors[a]
    requires forall gen: nat, t | gen < |c1.nets| && t in c1.nets[gen].tasks &&
             t !in c.nets[gen].tasks :: TaskOk(Move(c1, s, pc), gen, t)
    requires SendOk(Move(c1, s, pc), s)
    ensures Inv(Move(c1, s, pc))
  {
    var c' := Move(c1, s, pc);
    KeepsCids(c, c');
    forall gen: nat | gen < |c'.nets| ensures NetOk(c', gen) { assert NetOk(c1, gen); }
    forall u | u in c.sends ensures SendGrows(c, c', u) { assert SendGrows(c, c1, u); }
    KeepsRegistrations(c, c');
    PollKeepsInv(c, c', s);
  }

  lemma SelfGrows(c: State)
    ensures Grows(c, c)
  {
  }

  lemma BeginKeepsInv(c: State, s: SendId, body: Body)
    requires Inv(c) && s !in c.sends
    ensures Inv(c.(sends := c.sends[s := Send(body, None, Numbering, [])]))
  {
    var c' := c.(sends := c.sends[s := Send(body, None, Numbering, [])]);
    forall u | u in c'.sends ensures CidOk(c', u) { assert u in c.sends ==> CidOk(c, u); }
    forall u, v | u in c'.sends && v in c'.sends ensures CidsDiffer(c', u, v) {
      assert u in c.sends && v in c.sends ==> CidsDiffer(c, u, v);
    }
    forall gen: nat | gen < |c'.nets| ensures NetOk(c', gen) { assert NetOk(c, gen); }
    KeepsRegistrations(c, c');
    PollKeepsInv(c, c', s);
  }

  /** The new id is less than all before it. */
  lemma NumberKeepsInv(c: State, s: SendId, now: int)
    requires Inv(c) && s in c.sends && c.sends[s].pc.Numbering? && now >= 0 && c.lastCid > I64_MIN
    ensures var cid := NextCid(c.lastCid, -now);
      Inv(c.(lastCid := cid, sends := c.sends[s := c.sends[s].(cid := Some(cid), pc := Resolving)]))
  {
    var cid := NextCid(c.lastCid, -now);
    var c' := c.(lastCid := cid, sends := c.sends[s := c.sends[s].(cid := Some(cid), pc := Resolving)]);
    assert SendOk(c, s);
    forall u | u in c'.sends ensures CidOk(c', u) { assert CidOk(c, u); }
    forall u, v | u in c'.sends && v in c'.sends ensures CidsDiffer(c', u, v) {
      assert CidsDiffer(c, u, v) && CidOk(c, u) && CidOk(c, v);
    }
    forall gen: nat | gen < |c'.nets| ensures NetOk(c', gen) { assert NetOk(c, gen); }
    KeepsRegistrations(c, c');
    PollKeepsInv(c, c', s);
  }

  lemma SubscribeKeepsInv(c: State, s: SendId, a: R.ActorId)
    requires Inv(c) && s in c.sends && c.sends[s].pc.Resolving? && a !in c.rec.actors
    ensures Inv(Move(c, s, InCurrent(a)).(rec := R.Apply(c.rec, R.Start(a, R.Waiter(R.Subscribing)))))
  {
    hide TI.Inv, RI.Inv, UsedOk, RequestOf;
    var c1 := c.(rec := R.Apply(c.rec, R.Start(a, R.Waiter(R.Subscribing))));
    RI.StepKeepsInv(c.rec, R.Start(a, R.Waiter(R.Subscribing)));
    forall gen: nat | gen < |c1.nets| ensures NetOk(c1, gen) { assert NetOk(c, gen); }
    assert SendOk(c, s);
    UsedStaysOk(c, Move(c1, s, InCurrent(a)), c.sends[s].used);
    MoveKeepsInv(c, c1, s, InCurrent(a));
  }

  /** The state after s obtained this connection. */
  function Obtained(c: State, s: SendId, gen: nat): State
    requires s in c.sends
  {
    c.(sends := c.sends[s := c.sends[s].(pc := Calling(gen, FirstRequest(c.sends[s].body)), 
                                         used := c.sends[s].used + [gen])])
  }

  lemma UsesNewer(c: State, used: seq<nat>, gen: nat)
    requires UsedOk(c, used) && gen < |c.rec.conns| && c.rec.conns[gen].published
    requires used != [] ==> Dead(c, used[|used| - 1]) && used[|used| - 1] < gen
    ensures UsedOk(c, used + [gen])
  {
    var used' := used + [gen];
    forall i | 0 <= i < |used'| - 1 ensures Dead(c, used'[i]) {
      assert used'[i] == used[i];
    }
  }

  lemma ObtainedIsOk(c: State, s: SendId, gen: nat)
    requires Inv(c) && s in c.sends && c.sends[s].pc.InCurrent?
    requires c.sends[s].pc.a in c.rec.actors && c.rec.actors[c.sends[s].pc.a] == R.Waiter(R.Resolved(gen))
    ensures SendOk(Obtained(c, s, gen), s)
  {
    assert SendOk(c, s) && RI.ActorOk(c.rec, c.sends[s].pc.a);
    UsesNewer(c, c.sends[s].used, gen);
    assert UsedOk(Obtained(c, s, gen), c.sends[s].used + [gen]);
  }

  lemma ObtainedKeepsInv(c: State, s: SendId, gen: nat)
    requires Inv(c) && s in c.sends && c.sends[s].pc.InCurrent?
    requires c.sends[s].pc.a in c.rec.actors && c.rec.actors[c.sends[s].pc.a] == R.Waiter(R.Resolved(gen))
    ensures Inv(Obtained(c, s, gen))
  {
    var c' := Obtained(c, s, gen);
    ObtainedIsOk(c, s, gen);
    KeepsCids(c, c');
    forall g: nat | g < |c'.nets| ensures NetOk(c', g) { assert NetOk(c, g); }
    KeepsRegistrations(c, c');
    PollKeepsInv(c, c', s);
  }

  /** `current()` returned. */
  lemma ObtainKeepsInv(c: State, s: SendId)
    requires Inv(c) && WellFormed(c) && Enabled(c, Obtain(s))
    ensures Inv(Apply(c, Obtain(s)))
  {
    hide T.Apply, T.Enabled;
    var wait := c.rec.actors[c.sends[s].pc.a].wait;
    if wait.Refused? {
      assert SendOk(c, s) && RI.ActorOk(c.rec, c.sends[s].pc.a);
      SelfGrows(c);
      MoveKeepsInv(c, c, s, Failed(ConnectionClosed));
    } else {
      ObtainedKeepsInv(c, s, wait.gen);
    }
  }

  /** The transports after s started its invoke. */
  ghost function Spawned(c: State, s: SendId, t: T.TaskId, gen: nat, req: Request): State
    requires s in c.sends && c.sends[s].cid.Some? && gen < |c.nets| && T.WellFormed(c.nets[gen])
    requires t !in c.nets[gen].tasks
  {
    c.(nets := c.nets[gen := T.Apply(c.nets[gen], T.Spawn(t, CallKind(s, c.sends[s], req)))])
  }

  lemma SpawnedGrows(c: State, s: SendId, t: T.TaskId, gen: nat, req: Request)
    requires Inv(c) && s in c.sends && c.sends[s].cid.Some? && gen < |c.nets| && T.WellFormed(c.nets[gen])
    requires t !in c.nets[gen].tasks
    ensures var c1 := Spawned(c, s, t, gen, req); Grows(c, c1) && PartsOk(c1)
    ensures var c1 := Spawned(c, s, t, gen, req);
      t in c1.nets[gen].tasks && c1.nets[gen].tasks[t].kind == CallKind(s, c.sends[s], req) &&
      forall g: nat, u | g < |c1.nets| && u in c1.nets[g].tasks && u !in c.nets[g].tasks :: g == gen && u == t
  {
    var spawn := T.Spawn(t, CallKind(s, c.sends[s], req));
    assert NetOk(c, gen);
    NetStepGrows(c.nets[gen], spawn);
    TP.StepKeepsInv(c.nets[gen], spawn);
    var c1 := Spawned(c, s, t, gen, req);
    forall g: nat | g < |c1.nets| ensures NetOk(c1, g) { assert NetOk(c, g); }
  }

  lemma SpawnForSend(c: State, s: SendId, t: T.TaskId, gen: nat, req: Request)
    requires Inv(c) && s in c.sends && c.sends[s].cid.Some? && gen < |c.nets| && T.WellFormed(c.nets[gen])
    requires c.sends[s].pc == Calling(gen, req) && t !in c.nets[gen].tasks
    ensures Inv(Move(Spawned(c, s, t, gen, req), s, Invoking(gen, req, t)))
  {
    var c1 := Spawned(c, s, t, gen, req);
    SpawnedGrows(c, s, t, gen, req);
    var c' := Move(c1, s, Invoking(gen, req, t));
    SpawnedIsOk(c, c1, s, t, gen, req);
    MoveKeepsInv(c, c1, s, Invoking(gen, req, t));
  }

  lemma SpawnedIsOk(c: State, c1: State, s: SendId, t: T.TaskId, gen: nat, req: Request)
    requires Grows(c, c1) && c1.sends == c.sends && s in c.sends && SendOk(c, s) && c.sends[s].pc == Calling(gen, req)
    requires c.sends[s].cid.Some? && gen < |c1.nets| && t in c1.nets[gen].tasks &&
             c1.nets[gen].tasks[t].kind == CallKind(s, c.sends[s], req)
    ensures var c' := Move(c1, s, Invoking(gen, req, t)); SendOk(c', s) && TaskOk(c', gen, t)
  {
    var c' := Move(c1, s, Invoking(gen, req, t));
    UsedStaysOk(c, c1, c.sends[s].used);
    MayPostGrows(c, c1, gen, s, req);
    assert UsedOk(c', c.sends[s].used) && MayPost(c', gen, s, req);
    assert req == Upload || req == Post(req.fileId);
    assert CallKind(s, c.sends[s], req) == CallKind(s, c'.sends[s], req);
  }

  lemma CallKeepsInv(c: State, s: SendId, t: T.TaskId)
    requires Inv(c) && WellFormed(c) && Enabled(c, Call(s, t))
    ensures Inv(Apply(c, Call(s, t)))
  {
    hide T.Apply, R.Apply, TI.Inv, RI.Inv, Grows;
    if c.rec.conns[c.sends[s].pc.gen].cancelled {
      assert SendOk(c, s);
      SelfGrows(c);
      MoveKeepsInv(c, c, s, Resolving);
    } else {
      assert T.WellFormed(c.nets[c.sends[s].pc.gen]);
      SpawnForSend(c, s, t, c.sends[s].pc.gen, c.sends[s].pc.req);
    }
  }

  lemma InvokeLeftGrows(c: State, pc: Pc)
    requires Inv(c) && WellFormed(c) && pc.Invoking? && Has(c, pc.gen)
    ensures var c1 := c.(nets := LeaveInvoke(c, pc));
      Grows(c, c1) && PartsOk(c1) && |c1.nets| == |c.nets| &&
      forall gen: nat, t | gen < |c1.nets| && t in c1.nets[gen].tasks :: t in c.nets[gen].tasks
  {
    hide T.Apply, T.Enabled, T.WellFormed, TI.Inv;
    var c1 := c.(nets := LeaveInvoke(c, pc));
    assert NetOk(c, pc.gen);
    if T.Enabled(c.nets[pc.gen], T.Cancel(pc.t)) {
      NetStepGrows(c.nets[pc.gen], T.Cancel(pc.t));
      TP.StepKeepsInv(c.nets[pc.gen], T.Cancel(pc.t));
    }
    forall g: nat | g < |c1.nets| ensures NetOk(c1, g) { assert NetOk(c, g); }
  }

  lemma WaiterLeftGrows(c: State, pc: Pc)
    requires Inv(c) && (pc.Uploading? || pc.Processing?) && Has(c, pc.gen)
    ensures var c1 := c.(files := LeaveWaiter(c, pc)); Grows(c, c1) && PartsOk(c1) && |c1.files| == |c.files|
  {
    var c1 := c.(files := LeaveWaiter(c, pc));
    assert NetOk(c, pc.gen);
    A.AppendedIsLegal(c.files[pc.gen], A.Dropped(pc.w));
    forall g: nat | g < |c1.nets| ensures NetOk(c1, g) { assert NetOk(c, g); }
  }

  /** The waiter and the running invoke, if any, are dropped. */
  lemma LeaveGrows(c: State, s: SendId)
    requires Inv(c) && WellFormed(c) && SendAt(c, s)
    ensures var c1 := c.(nets := LeaveInvoke(c, c.sends[s].pc), files := LeaveWaiter(c, c.sends[s].pc));
      Grows(c, c1) && PartsOk(c1) && |c1.nets| == |c.nets| && |c1.files| == |c.files| &&
      forall gen: nat, t | gen < |c1.nets| && t in c1.nets[gen].tasks :: t in c.nets[gen].tasks
  {
    var pc := c.sends[s].pc;
    var c1 := c.(nets := LeaveInvoke(c, pc), files := LeaveWaiter(c, pc));
    if pc.Invoking? {
      InvokeLeftGrows(c, pc);
      assert c1 == c.(nets := LeaveInvoke(c, pc));
    } else if pc.Uploading? || pc.Processing? {
      WaiterLeftGrows(c, pc);
      assert c1 == c.(files := LeaveWaiter(c, pc));
    } else {
      assert c1 == c;
    }
  }

  /** Where a send that leaves its connection may go. */
  predicate MayLeaveFor(c: State, send: Send, pc: Pc) {
    || pc.Gone?
    || (pc.Failed? && !IsTransportFailure(pc.error))
    || (pc.Resolving? && GenOf(send.pc).Some? && Dead(c, GenOf(send.pc).value))
  }

  lemma LeftIsOk(c: State, c1: State, s: SendId, pc: Pc)
    requires Grows(c, c1) && c1.sends == c.sends && s in c.sends && SendOk(c, s) && MayLeaveFor(c, c.sends[s], pc)
    ensures SendOk(Move(c1, s, pc), s)
  {
    UsedStaysOk(c, c1, c.sends[s].used);
    assert UsedOk(Move(c1, s, pc), c.sends[s].used);
  }

  lemma LeaveKeepsInv(c: State, s: SendId, pc: Pc)
    requires Inv(c) && WellFormed(c) && SendAt(c, s) && MayLeaveFor(c, c.sends[s], pc)
    ensures var c1 := c.(nets := LeaveInvoke(c, c.sends[s].pc), files := LeaveWaiter(c, c.sends[s].pc));
      Inv(Move(c1, s, pc))
  {
    hide T.Apply, RI.Inv, A.Table;
    var c1 := c.(nets := LeaveInvoke(c, c.sends[s].pc), files := LeaveWaiter(c, c.sends[s].pc));
    LeaveGrows(c, s);
    assert SendOk(c, s);
    LeftIsOk(c, c1, s, pc);
    MoveKeepsInv(c, c1, s, pc);
  }

  lemma SeeCancelledKeepsInv(c: State, s: SendId)
    requires Inv(c) && WellFormed(c) && Enabled(c, SeeCancelled(s))
    ensures Inv(Apply(c, SeeCancelled(s)))
  {
    LeaveKeepsInv(c, s, Resolving);
  }

  lemma DropKeepsInv(c: State, s: SendId)
    requires Inv(c) && WellFormed(c) && Enabled(c, Drop(s))
    ensures Inv(Apply(c, Drop(s)))
  {
    LeaveKeepsInv(c, s, Gone);
  }

  lemma CancelGrows(c: State, gen: nat)
    requires Inv(c) && gen < |c.rec.conns|
    ensures var c1 := c.(rec := R.Apply(c.rec, R.CancelConn(gen)));
      Grows(c, c1) && PartsOk(c1) && Dead(c1, gen)
  {
    var c1 := c.(rec := R.Apply(c.rec, R.CancelConn(gen)));
    RI.StepKeepsInv(c.rec, R.CancelConn(gen));
    RT.StepGrows(c.rec, R.CancelConn(gen));
    forall g: nat | g < |c1.nets| ensures NetOk(c1, g) { assert NetOk(c, g); }
  }

  /** A transport failure cancels the connection before the call returns. */
  lemma FailoverKeepsInv(c: State, s: SendId, gen: nat)
    requires Inv(c) && s in c.sends && GenOf(c.sends[s].pc) == Some(gen) && gen < |c.rec.conns|
    ensures Inv(Move(c.(rec := R.Apply(c.rec, R.CancelConn(gen))), s, Resolving))
  {
    hide T.Apply, T.WellFormed, TI.Inv, RI.Inv;
    var c1 := c.(rec := R.Apply(c.rec, R.CancelConn(gen)));
    CancelGrows(c, gen);
    assert SendOk(c, s);
    UsedStaysOk(c, c1, c.sends[s].used);
    assert UsedOk(Move(c1, s, Resolving), c.sends[s].used);
    MoveKeepsInv(c, c1, s, Resolving);
  }

  lemma AnswerKeepsInv(c: State, s: SendId)
    requires Inv(c) && WellFormed(c) && Enabled(c, Answer(s))
    ensures Inv(Apply(c, Answer(s)))
  {
    var Invoking(gen, req, t) := c.sends[s].pc;
    var outcome := c.nets[gen].tasks[t].phase.outcome;
    assert SendOk(c, s);
    if outcome.Failed? && IsTransportFailure(outcome.error) {
      FailoverKeepsInv(c, s, gen);
    } else {
      SelfGrows(c);
      AnsweredIsOk(c, s);
      var pc := if outcome.Failed? then Failed(outcome.error)
        else if req.Upload? then AfterUploadSlot(gen, outcome.packet.payload) else Delivered(gen, t);
      MoveKeepsInv(c, c, s, pc);
    }
  }

  lemma AnsweredIsOk(c: State, s: SendId)
    requires SendOkIn(c, s) && c.sends[s].pc.Invoking?
    ensures var Invoking(gen, req, t) := c.sends[s].pc;
      t in c.nets[gen].tasks &&
      (forall error | !IsTransportFailure(error) :: SendOk(Move(c, s, Failed(error)), s)) &&
      (forall payload :: req.Upload? ==> SendOk(Move(c, s, AfterUploadSlot(gen, payload)), s)) &&
      (req.Post? && TI.Answered(c.nets[gen].tasks[t]) ==> SendOk(Move(c, s, Delivered(gen, t)), s))
  {
    forall pc ensures UsedOk(Move(c, s, pc), c.sends[s].used) {
    }
  }

  ghost predicate SendOkIn(c: State, s: SendId) {
    s in c.sends && SendOk(c, s)
  }

  lemma RegisterKeepsInv(c: State, s: SendId)
    requires Inv(c) && WellFormed(c) && Enabled(c, Register(s))
    ensures Inv(Apply(c, Register(s)))
  {
    hide T.Apply, R.Apply, TI.Inv, RI.Inv, NetGrows;
    var Registering(gen, fileId) := c.sends[s].pc;
    assert SendOk(c, s);
    if fileId in A.Table(c.files[gen]) {
      SelfGrows(c);
      assert UsedOk(Move(c, s, Failed(UnexpectedResponse)), c.sends[s].used);
      MoveKeepsInv(c, c, s, Failed(UnexpectedResponse));
    } else {
      RegisteredKeepsInv(c, s, gen, fileId);
    }
  }

  /** The state after s registered the file. */
  function RegisteredFile(c: State, s: SendId, gen: nat, fileId: int): State
    requires s in c.sends && gen < |c.files|
  {
    var w := |c.files[gen]|;
    Move(c, s, Uploading(gen, w)).(
      files := c.files[gen := c.files[gen] + [A.Registered(fileId)]], registrations := c.registrations[(gen, w) := s])
  }

  lemma RegisteredGrows(c: State, s: SendId, gen: nat, fileId: int)
    requires Inv(c) && s in c.sends && gen < |c.files| && fileId !in A.Table(c.files[gen])
    ensures var c' := RegisteredFile(c, s, gen, fileId);
      Grows(c, c') && PartsOk(c') && forall g: nat, v: nat {:trigger RegistrationOk(c', g, v)} ::
          RegistrationOk(c', g, v)
  {
    hide T.Apply, T.WellFormed, TI.Inv, RI.Inv, A.Table, A.Completed, SendOk, TaskOk, CidInv;
    var c' := RegisteredFile(c, s, gen, fileId);
    assert NetOk(c, gen) && RegistrationOk(c, gen, |c.files[gen]|);
    A.AppendedIsLegal(c.files[gen], A.Registered(fileId));
    forall g: nat | g < |c'.nets| ensures NetOk(c', g) { assert NetOk(c, g); }
    forall g: nat, v: nat ensures RegistrationOk(c', g, v) { assert RegistrationOk(c, g, v); }
  }

  lemma RegisteredKeepsInv(c: State, s: SendId, gen: nat, fileId: int)
    requires Inv(c) && s in c.sends && c.sends[s].pc == Registering(gen, fileId) && gen < |c.files| &&
             fileId !in A.Table(c.files[gen])
    ensures Inv(RegisteredFile(c, s, gen, fileId))
  {
    var c' := RegisteredFile(c, s, gen, fileId);
    assert SendOk(c, s);
    RegisteredGrows(c, s, gen, fileId);
    KeepsCids(c, c');
    UsedStaysOk(c, c', c.sends[s].used);
    PollKeepsInv(c, c', s);
  }

  lemma UploadEndsKeepsInv(c: State, s: SendId, failure: Option<Error>)
    requires Inv(c) && WellFormed(c) && Enabled(c, UploadEnds(s, failure))
    ensures Inv(Apply(c, UploadEnds(s, failure)))
  {
    hide T.Apply, T.WellFormed, R.Apply, TI.Inv, RI.Inv, A.Legal;
    if failure.Some? {
      LeaveKeepsInv(c, s, Failed(failure.value));
    } else {
      var pc := Processing(c.sends[s].pc.gen, c.sends[s].pc.w);
      SelfGrows(c);
      assert SendOk(c, s);
      assert UsedOk(Move(c, s, pc), c.sends[s].used);
      MoveKeepsInv(c, c, s, pc);
    }
  }

  lemma ProcessedIsOk(c: State, c1: State, s: SendId, gen: nat, w: nat)
    requires Inv(c) && Grows(c, c1) && c1.sends == c.sends && s in c.sends && c.sends[s].pc == Processing(gen, w)
    requires gen < |c.files| && A.Completed(c.files[gen], w)
    ensures SendOk(Move(c1, s, Calling(gen, Post(Some(c.files[gen][w].fileId)))), s)
  {
    hide T.Apply, TI.Inv;
    var fileId := c.files[gen][w].fileId;
    var c' := Move(c1, s, Calling(gen, Post(Some(fileId))));
    assert SendOk(c, s);
    UsedStaysOk(c, c1, c.sends[s].used);
    assert Attached(c, gen, s, fileId);
    AttachedGrows(c, c1, gen, s, fileId);
    assert UsedOk(c', c.sends[s].used) && Attached(c', gen, s, fileId);
  }

  lemma SeeProcessedKeepsInv(c: State, s: SendId)
    requires Inv(c) && WellFormed(c) && Enabled(c, SeeProcessed(s))
    ensures Inv(Apply(c, SeeProcessed(s)))
  {
    var Processing(gen, w) := c.sends[s].pc;
    var c1 := c.(nets := LeaveInvoke(c, c.sends[s].pc), files := LeaveWaiter(c, c.sends[s].pc));
    LeaveGrows(c, s);
    ProcessedIsOk(c, c1, s, gen, w);
    MoveKeepsInv(c, c1, s, Calling(gen, Post(Some(c.files[gen][w].fileId))));
  }

  lemma ProcessingTimeoutKeepsInv(c: State, s: SendId)
    requires Inv(c) && WellFormed(c) && Enabled(c, ProcessingTimeout(s))
    ensures Inv(Apply(c, ProcessingTimeout(s)))
  {
    LeaveKeepsInv(c, s, Failed(FileProcessingTimeout(c.files[c.sends[s].pc.gen][c.sends[s].pc.w].fileId)));
  }

  // ---- Every step ----

  lemma InvIsWellFormed(c: State)
    requires Inv(c)
    ensures WellFormed(c)
  {
    forall gen: nat | gen < |c.nets| ensures T.WellFormed(c.nets[gen]) { assert NetOk(c, gen); }
  }

  /** The steps of a send that waits for its file. */
  predicate FileLabel(l: Label) {
    l.Register? || l.UploadEnds? || l.SeeProcessed? || l.ProcessingTimeout?
  }

  lemma FileStepKeepsInv(c: State, l: Label)
    requires Inv(c) && WellFormed(c) && Enabled(c, l) && FileLabel(l)
    ensures Inv(Apply(c, l))
  {
    if l.Register? {
      RegisterKeepsInv(c, l.s);
    } else if l.UploadEnds? {
      UploadEndsKeepsInv(c, l.s, l.failure);
    } else if l.SeeProcessed? {
      SeeProcessedKeepsInv(c, l.s);
    } else {
      ProcessingTimeoutKeepsInv(c, l.s);
    }
  }

  lemma StepKeepsInv(c: State, l: Label)
    requires Inv(c) && WellFormed(c) && Enabled(c, l)
    ensures Inv(Apply(c, l))
  {
    if FileLabel(l) {
      FileStepKeepsInv(c, l);
    } else {
      OtherStepKeepsInv(c, l);
    }
  }

  lemma OtherStepKeepsInv(c: State, l: Label)
    requires Inv(c) && WellFormed(c) && Enabled(c, l) && !FileLabel(l)
    ensures Inv(Apply(c, l))
  {
    hide T.Apply, R.Apply, TI.Inv, RI.Inv, Inv;
    match l
    case Supervise(r) => SuperviseKeepsInv(c, r);
    case Network(gen, n) => NetworkKeepsInv(c, gen, n);
    case NoticeAttach(gen, fileId) => NoticeKeepsInv(c, gen, fileId);
    case Begin(s, body) => BeginKeepsInv(c, s, body);
    case Number(s, now) => NumberKeepsInv(c, s, now);
    case Subscribe(s, a) => SubscribeKeepsInv(c, s, a);
    case Obtain(s) => ObtainKeepsInv(c, s);
    case Call(s, t) => CallKeepsInv(c, s, t);
    case SeeCancelled(s) => SeeCancelledKeepsInv(c, s);
    case Answer(s) => AnswerKeepsInv(c, s);
    case Drop(s) => DropKeepsInv(c, s);
  }
}
