/** What the sends leave behind, and that they can always go on: waiters are released, calls
    do not outlive their send, no send is stuck, and after a stop all of them end soon. */
module ClientProgress {
  import opened Protocol
  import opened Client
  import opened ClientInvariant
  import opened ClientTheorems
  import opened ClientSinks
  import T = Transport
  import R = Recovery
  import RI = RecoveryInvariant
  import RT = RecoveryTheorems
  import RP = RecoveryProgress
  import A = Attachments
  import ST = SendTraces
  import CE = ClientErrors
  import CP = ClientProofs

  // ---- Waiters are released ----

  /** The waiter whose scope a send is in. */
  function ScopeOf(pc: Pc): Option<(nat, nat)> {
    match pc
    case Uploading(gen, w) => Some((gen, w))
    case Processing(gen, w) => Some((gen, w))
    case _ => None
  }

  predicate InScope(c: State, s: SendId, gen: nat, w: nat) {
    s in c.sends && ScopeOf(c.sends[s].pc) == Some((gen, w))
  }

  ghost predicate Released(log: A.Log, w: nat) {
    exists j :: w < j < |log| && log[j] == A.Dropped(w)
  }

  ghost predicate LeakOk(c: State, gen: nat, w: nat) {
    (gen, w) in c.registrations ==>
      gen < |c.files| && w < |c.files[gen]| &&
        (Released(c.files[gen], w) <==> !InScope(c, c.registrations[(gen, w)], gen, w))
  }

  ghost predicate LeakInv(c: State) {
    forall gen: nat, w: nat {:trigger LeakOk(c, gen, w)} :: LeakOk(c, gen, w)
  }

  lemma ReleasedGrows(log: A.Log, event: A.Event, w: nat)
    requires w < |log|
    ensures Released(log + [event], w) <==> Released(log, w) || event == A.Dropped(w)
  {
    var log' := log + [event];
    if j :| w < j < |log| && log[j] == A.Dropped(w) { assert log'[j] == A.Dropped(w); }
    if event == A.Dropped(w) { assert log'[|log|] == A.Dropped(w); }
  }

  /** A step of send s registers one waiter and enters its scope, or leaves the scope it is in
      and drops that waiter, or does neither. */
  ghost predicate ScopeStep(c: State, c': State, s: SendId) {
    s in c.sends && s in c'.sends &&
    match (ScopeOf(c.sends[s].pc), ScopeOf(c'.sends[s].pc))
    case (None, None) => c'.files == c.files && c'.registrations == c.registrations
    case (None, Some((gen, w))) =>
      gen < |c.files| && w == |c.files[gen]| && c'.registrations == c.registrations[(gen, w) := s] &&
        exists f :: c'.files == c.files[gen := c.files[gen] + [A.Registered(f)]]
    case (Some((gen, w)), None) =>
      gen < |c.files| && c'.files == c.files[gen := c.files[gen] + [A.Dropped(w)]] &&
        c'.registrations == c.registrations
    case (Some(here), Some(there)) => here == there && c'.files == c.files && c'.registrations == c.registrations
  }

  lemma OwnScopeStep(c: State, l: Label, s: SendId)
    requires Inv(c) && WellFormed(c) && Enabled(c, l) && ST.IsOwn(l, s) && !l.Begin?
    ensures s in c.sends && ScopeStep(c, Apply(c, l), s)
  {
    hide T.Apply, T.Enabled, R.Apply, R.Enabled, Inv, PayloadOf, CallKind, NextCid, LeaveInvoke;
    hide A.Completed, FirstRequest;
    if l.Register? {
      var Registering(gen, f) := c.sends[s].pc;
      assert f !in A.Table(c.files[gen]) ==>
               Apply(c, l).files == c.files[gen := c.files[gen] + [A.Registered(f)]];
    }
  }

  /** All other steps leave the registries alone, but for the notices they bring. */
  ghost predicate NoticeStep(c: State, c': State) {
    c'.registrations == c.registrations && |c.files| <= |c'.files| &&
    forall gen: nat {:trigger c'.files[gen]} | gen < |c.files| ::
      c'.files[gen] == c.files[gen] || exists f :: c'.files[gen] == c.files[gen] + [A.Notified(f)]
  }

  lemma OtherFilesStep(c: State, l: Label)
    requires WellFormed(c) && Enabled(c, l) && (l.Supervise? || l.Network? || l.NoticeAttach? || l.Begin?)
    ensures NoticeStep(c, Apply(c, l))
  {
    hide T.Apply, T.Enabled, R.Apply, R.Enabled;
  }

  lemma NoticesLeak(c: State, c': State, gen: nat, w: nat)
    requires LeakOk(c, gen, w) && NoticeStep(c, c')
    requires (gen, w) in c.registrations ==>
               (InScope(c', c.registrations[(gen, w)], gen, w) <==> InScope(c, c.registrations[(gen, w)], gen, w))
    ensures LeakOk(c', gen, w)
  {
    if (gen, w) in c.registrations && c'.files[gen] != c.files[gen] {
      var f :| c'.files[gen] == c.files[gen] + [A.Notified(f)];
      ReleasedGrows(c.files[gen], A.Notified(f), w);
    }
  }

  /** The waiter that a send drops is its own. */
  lemma OwnsScope(c: State, s: SendId)
    requires Inv(c) && s in c.sends && ScopeOf(c.sends[s].pc).Some?
    ensures ScopeOf(c.sends[s].pc).value in c.registrations && c.registrations[ScopeOf(c.sends[s].pc).value] == s
  {
    assert SendOk(c, s);
  }

  lemma SendsLeak(c: State, c': State, s: SendId, gen: nat, w: nat)
    requires LeakOk(c, gen, w) && ScopeStep(c, c', s)
    requires forall u | u in c'.sends && u != s :: u in c.sends && c'.sends[u] == c.sends[u]
    requires forall u | u in c.sends && u != s :: u in c'.sends
    requires ScopeOf(c.sends[s].pc).Some? ==>
               ScopeOf(c.sends[s].pc).value in c.registrations && c.registrations[ScopeOf(c.sends[s].pc).value] == s
    requires forall v: nat {:trigger (gen, v) in c.registrations} | (gen, v) in c.registrations ::
               gen < |c.files| && v < |c.files[gen]|
    ensures LeakOk(c', gen, w)
  {
    if (gen, w) in c.registrations && c'.files[gen] != c.files[gen] {
      var event := c'.files[gen][|c.files[gen]|];
      assert c'.files[gen] == c.files[gen] + [event];
      ReleasedGrows(c.files[gen], event, w);
    }
  }

  lemma OthersScopes(c: State, l: Label)
    requires WellFormed(c) && Enabled(c, l) && (l.Supervise? || l.Network? || l.NoticeAttach? || l.Begin?)
    ensures forall s: SendId, gen: nat, w: nat :: InScope(Apply(c, l), s, gen, w) <==> InScope(c, s, gen, w)
  {
    hide T.Apply, T.Enabled, R.Apply, R.Enabled;
  }

  lemma OthersStay(c: State, l: Label, s: SendId)
    requires WellFormed(c) && Enabled(c, l) && ST.IsOwn(l, s) && !l.Begin?
    ensures forall u | u in Apply(c, l).sends && u != s :: u in c.sends && Apply(c, l).sends[u] == c.sends[u]
    ensures forall u | u in c.sends && u != s :: u in Apply(c, l).sends
  {
    hide T.Apply, T.Enabled, R.Apply, R.Enabled;
  }

  lemma RegistrationsAreOld(c: State, gen: nat)
    requires Inv(c)
    ensures forall v: nat {:trigger (gen, v) in c.registrations} | (gen, v) in c.registrations ::
              gen < |c.files| && v < |c.files[gen]|
  {
    forall v: nat | (gen, v) in c.registrations ensures gen < |c.files| && v < |c.files[gen]| {
      assert RegistrationOk(c, gen, v);
    }
  }

  lemma StepKeepsLeaks(c: State, l: Label)
    requires Inv(c) && WellFormed(c) && Enabled(c, l) && LeakInv(c)
    ensures LeakInv(Apply(c, l))
  {
    hide Inv, WellFormed, Enabled, Apply, LeakOk, ScopeStep, NoticeStep;
    var c' := Apply(c, l);
    forall gen: nat, w: nat ensures LeakOk(c', gen, w) {
      assert LeakOk(c, gen, w);
      if l.Supervise? || l.Network? || l.NoticeAttach? || l.Begin? {
        OtherFilesStep(c, l);
        OthersScopes(c, l);
        NoticesLeak(c, c', gen, w);
      } else {
        OwnScopeStep(c, l, l.s);
        OthersStay(c, l, l.s);
        RegistrationsAreOld(c, gen);
        if ScopeOf(c.sends[l.s].pc).Some? { OwnsScope(c, l.s); }
        SendsLeak(c, c', l.s, gen, w);
      }
    }
  }

  lemma {:induction false} RunKeepsLeaks(cs: seq<State>, ls: seq<Label>, i: nat)
    requires IsRun(cs, ls) && i <= |ls|
    ensures LeakInv(cs[i])
  {
    if i > 0 {
      RunKeepsLeaks(cs, ls, i - 1);
      RunKeepsInv(cs, ls, i - 1);
      assert IsStep(cs[i - 1], ls[i - 1], cs[i - 1 + 1]);
      StepKeepsLeaks(cs[i - 1], ls[i - 1]);
    }
  }

  /** No waiter leaks: in every run, the waiter of a registration has been dropped exactly
      when its send is no longer between registration and notice, however it left: with the
      notice, a timeout, a failed upload, a lost connection, or because it was dropped. */
  lemma NoWaiterLeaks(cs: seq<State>, ls: seq<Label>, i: nat, gen: nat, w: nat)
    requires IsRun(cs, ls) && i <= |ls| && (gen, w) in cs[i].registrations
    ensures gen < |cs[i].files|
    ensures var s := cs[i].registrations[(gen, w)];
      (exists j :: w < j < |cs[i].files[gen]| && cs[i].files[gen][j] == A.Dropped(w)) <==>
      !(s in cs[i].sends && (cs[i].sends[s].pc == Uploading(gen, w) || cs[i].sends[s].pc == Processing(gen, w)))
  {
    RunKeepsLeaks(cs, ls, i);
    assert LeakOk(cs[i], gen, w);
  }

  lemma NoticeCompletes(log: A.Log, w: nat, fileId: int)
    requires A.IsRegistration(log, w) && log[w].fileId == fileId && !Released(log, w)
    ensures A.Completed(log + [A.Notified(fileId)], w)
  {
    var log' := log + [A.Notified(fileId)];
    assert log'[|log|] == A.Notified(log'[w].fileId);
    forall k | w < k < |log| ensures log'[k] != A.Dropped(w) {
      assert log'[k] == log[k];
    }
  }

  /** The next step of s takes it to its message with this file. */
  ghost predicate MayPostFile(c: State, s: SendId, gen: nat, fileId: int) {
    WellFormed(c) && Enabled(c, SeeProcessed(s)) && s in Apply(c, SeeProcessed(s)).sends &&
    Apply(c, SeeProcessed(s)).sends[s].pc == Calling(gen, Post(Some(fileId)))
  }

  lemma CompletedMayPost(c: State, s: SendId, gen: nat, w: nat, fileId: int)
    requires WellFormed(c) && SendAt(c, s) && c.sends[s].pc == Processing(gen, w) && A.Completed(c.files[gen], w)
    requires c.files[gen][w].fileId == fileId
    ensures MayPostFile(c, s, gen, fileId)
  {
    hide T.Apply, T.Enabled, R.Apply, R.Enabled;
  }

  /** A send that uploads or waits is served by the next notice for its file: the notice may
      come in any such state, early or late, and completes the send's own registration; a
      send that waits can then post the message with the file. */
  lemma NoticeServesSend(cs: seq<State>, ls: seq<Label>, i: nat, s: SendId, gen: nat, w: nat)
    requires IsRun(cs, ls) && i <= |ls| && InScope(cs[i], s, gen, w)
    ensures gen < |cs[i].files| && A.IsRegistration(cs[i].files[gen], w)
    ensures var fileId := cs[i].files[gen][w].fileId; var l := NoticeAttach(gen, fileId);
      && WellFormed(cs[i]) && Enabled(cs[i], l) && A.Completed(Apply(cs[i], l).files[gen], w)
      && (cs[i].sends[s].pc.Processing? ==> MayPostFile(Apply(cs[i], l), s, gen, fileId))
  {
    hide T.Apply, T.Enabled, R.Apply, R.Enabled, RI.Inv;
    RunKeepsInv(cs, ls, i);
    RunKeepsLeaks(cs, ls, i);
    assert SendOk(cs[i], s);
    OwnsScope(cs[i], s);
    assert LeakOk(cs[i], gen, w) && RegistrationOk(cs[i], gen, w);
    CP.InvIsWellFormed(cs[i]);
    var fileId := cs[i].files[gen][w].fileId;
    NoticeCompletes(cs[i].files[gen], w, fileId);
    var c' := Apply(cs[i], NoticeAttach(gen, fileId));
    assert c'.files[gen] == cs[i].files[gen] + [A.Notified(fileId)];
    if cs[i].sends[s].pc.Processing? {
      CompletedMayPost(c', s, gen, w, fileId);
    }
  }

  // ---- Calls do not outlive their send ----

  /** A call that serves a send runs only while the send waits for it. */
  predicate CallOk(c: State, gen: nat, t: T.TaskId)
    requires gen < |c.nets| && t in c.nets[gen].tasks
  {
    var task := c.nets[gen].tasks[t];
    task.kind.Invoke? && task.kind.origin.Some? && T.Unfinished(task) ==>
      var s := task.kind.origin.value;
      s in c.sends && c.sends[s].pc.Invoking? && c.sends[s].pc.gen == gen && c.sends[s].pc.t == t
  }

  ghost predicate CallInv(c: State) {
    forall gen: nat, t {:trigger CallOk(c, gen, t)} | gen < |c.nets| && t in c.nets[gen].tasks :: CallOk(c, gen, t)
  }

  lemma NetworkKeepsCalls(c: State, gen: nat, n: T.Label)
    requires Inv(c) && WellFormed(c) && Enabled(c, Network(gen, n)) && CallInv(c)
    ensures CallInv(Apply(c, Network(gen, n)))
  {
    var c' := Apply(c, Network(gen, n));
    assert NetOk(c, gen);
    EveryStepIsSinkStep(c.nets[gen], n);
    hide T.Apply, T.Enabled, Inv, R.Apply;
    forall g: nat, t | g < |c'.nets| && t in c'.nets[g].tasks ensures CallOk(c', g, t) {
      assert t in c.nets[g].tasks ==> CallOk(c, g, t);
    }
  }

  lemma SupervisorKeepsCalls(c: State, l: Label)
    requires WellFormed(c) && Enabled(c, l) && CallInv(c) && (l.Supervise? || l.NoticeAttach? || l.Begin?)
    ensures CallInv(Apply(c, l))
  {
    var c' := Apply(c, l);
    hide T.Apply, T.Enabled, R.Apply, R.Enabled;
    forall g: nat, t | g < |c'.nets| && t in c'.nets[g].tasks ensures CallOk(c', g, t) {
      assert g < |c.nets| && CallOk(c, g, t);
    }
  }

  /** A send leaves a call by its answer, or by dropping it; it starts one when it goes to wait for it. */
  ghost predicate OwnCallStep(c: State, c': State, s: SendId) {
    && s in c'.sends && |c'.nets| == |c.nets|
    && (forall gen: nat, t {:trigger c'.nets[gen].tasks[t]} | gen < |c.nets| && t in c'.nets[gen].tasks ::
          (t in c.nets[gen].tasks && c'.nets[gen].tasks[t] == c.nets[gen].tasks[t]) ||
          !T.Unfinished(c'.nets[gen].tasks[t]) ||
          (c'.sends[s].pc.Invoking? && c'.sends[s].pc.gen == gen && c'.sends[s].pc.t == t &&
           c'.nets[gen].tasks[t].kind.Invoke? && c'.nets[gen].tasks[t].kind.origin == Some(s)))
    && (s in c.sends && c.sends[s].pc.Invoking? && c.sends[s].pc.gen < |c.nets| &&
        c.sends[s].pc.t in c'.nets[c.sends[s].pc.gen].tasks ==>
          !T.Unfinished(c'.nets[c.sends[s].pc.gen].tasks[c.sends[s].pc.t]))
  }

  lemma QuietCallStep(c: State, l: Label, s: SendId)
    requires Inv(c) && WellFormed(c) && Enabled(c, l) && ST.IsOwn(l, s) && !l.Begin?
    requires !l.Call? && !l.SeeCancelled? && !l.Drop?
    ensures OwnCallStep(c, Apply(c, l), s)
  {
    hide T.Apply, T.Enabled, R.Apply, R.Enabled, Inv, T.WellFormed;
  }

  lemma CallCallStep(c: State, s: SendId, t: T.TaskId)
    requires Inv(c) && WellFormed(c) && Enabled(c, Call(s, t))
    ensures OwnCallStep(c, Apply(c, Call(s, t)), s)
  {
    hide R.Apply, R.Enabled, Inv, T.RunSection;
  }

  lemma LeavingCallStep(c: State, l: Label, s: SendId)
    requires Inv(c) && WellFormed(c) && Enabled(c, l) && ST.IsOwn(l, s) && (l.SeeCancelled? || l.Drop?)
    ensures OwnCallStep(c, Apply(c, l), s)
  {
    hide R.Apply, R.Enabled, Inv, T.RunSection;
  }

  lemma OwnKeepsCalls(c: State, c': State, s: SendId)
    requires CallInv(c) && OwnCallStep(c, c', s) && s in c.sends
    requires forall u | u in c'.sends && u != s :: u in c.sends && c'.sends[u] == c.sends[u]
    requires forall u | u in c.sends && u != s :: u in c'.sends
    ensures CallInv(c')
  {
    forall g: nat, t | g < |c'.nets| && t in c'.nets[g].tasks ensures CallOk(c', g, t) {
      assert t in c.nets[g].tasks ==> CallOk(c, g, t);
      assert t in c'.nets[g].tasks && c'.nets[g].tasks[t] == c'.nets[g].tasks[t];
    }
  }

  lemma StepKeepsCalls(c: State, l: Label)
    requires Inv(c) && WellFormed(c) && Enabled(c, l) && CallInv(c)
    ensures CallInv(Apply(c, l))
  {
    hide Inv, WellFormed, Enabled, Apply, CallInv, OwnCallStep;
    if l.Network? {
      NetworkKeepsCalls(c, l.gen, l.l);
    } else if l.Supervise? || l.NoticeAttach? || l.Begin? {
      SupervisorKeepsCalls(c, l);
    } else {
      OwnScopeStep(c, l, l.s);
      OthersStay(c, l, l.s);
      if l.Call? {
        CallCallStep(c, l.s, l.t);
      } else if l.SeeCancelled? || l.Drop? {
        LeavingCallStep(c, l, l.s);
      } else {
        QuietCallStep(c, l, l.s);
      }
      OwnKeepsCalls(c, Apply(c, l), l.s);
    }
  }

  lemma {:induction false} RunKeepsCalls(cs: seq<State>, ls: seq<Label>, i: nat)
    requires IsRun(cs, ls) && i <= |ls|
    ensures CallInv(cs[i])
  {
    if i > 0 {
      RunKeepsCalls(cs, ls, i - 1);
      RunKeepsInv(cs, ls, i - 1);
      assert IsStep(cs[i - 1], ls[i - 1], cs[i - 1 + 1]);
      StepKeepsCalls(cs[i - 1], ls[i - 1]);
    }
  }

  /** A call made for a send that is still under way is the one its send waits for: a send
      has at most one, on the connection it uses, and leaves none behind. */
  lemma OneCallInFlight(cs: seq<State>, ls: seq<Label>, i: nat, gen: nat, t: T.TaskId)
    requires IsRun(cs, ls) && i <= |ls| && gen < |cs[i].nets| && t in cs[i].nets[gen].tasks
    requires var task := cs[i].nets[gen].tasks[t]; task.kind.Invoke? && task.kind.origin.Some? && T.Unfinished(task)
    ensures var s := cs[i].nets[gen].tasks[t].kind.origin.value;
      s in cs[i].sends && cs[i].sends[s].pc.Invoking? && cs[i].sends[s].pc.gen == gen && cs[i].sends[s].pc.t == t
  {
    RunKeepsCalls(cs, ls, i);
    assert CallOk(cs[i], gen, t);
  }

  // ---- No send is stuck ----

  /** What a send can do at this point, whatever the others do. */
  ghost predicate CanMove(c: State, s: SendId)
    requires s in c.sends
  {
    match c.sends[s].pc
    case Numbering => c.lastCid > I64_MIN ==> Enabled(c, Number(s, 0))
    case Resolving =>
      forall a {:trigger Enabled(c, Subscribe(s, a))} | a !in c.rec.actors :: Enabled(c, Subscribe(s, a))
    case InCurrent(a) =>
      a in c.rec.actors && c.rec.actors[a].Waiter? &&
      (Enabled(c, Obtain(s)) || c.rec.actors[a].wait.Parked? ||
       (R.Enabled(c.rec, R.Advance(a)) && Enabled(c, Supervise(R.Advance(a)))))
    case Calling(gen, _) =>
      gen < |c.nets| && forall t {:trigger Enabled(c, Call(s, t))} | t !in c.nets[gen].tasks :: Enabled(c, Call(s, t))
    case Invoking(gen, _, t) =>
      && gen < |c.nets| && t in c.nets[gen].tasks
      && (Dead(c, gen) ==> Enabled(c, SeeCancelled(s)))
      && (c.nets[gen].tasks[t].phase.Finished? && !c.nets[gen].tasks[t].phase.outcome.Returned? ==>
            Enabled(c, Answer(s)))
    case Registering(_, _) => Enabled(c, Register(s))
    case Uploading(gen, _) =>
      && (Dead(c, gen) ==> Enabled(c, SeeCancelled(s)))
      && Enabled(c, UploadEnds(s, None)) && Enabled(c, UploadEnds(s, Some(Http(true)))) &&
         Enabled(c, UploadEnds(s, Some(Http(false))))
    case Processing(gen, w) =>
      && gen < |c.files| && Enabled(c, ProcessingTimeout(s)) && (Dead(c, gen) ==> Enabled(c, SeeCancelled(s)))
      && (A.Completed(c.files[gen], w) ==> Enabled(c, SeeProcessed(s)))
    case Delivered(_, _) => true
    case Failed(_) => true
    case Gone => true
  }

  lemma FileSendCanMove(c: State, s: SendId)
    requires Inv(c) && s in c.sends
    requires c.sends[s].pc.Registering? || c.sends[s].pc.Uploading? || c.sends[s].pc.Processing?
    ensures CanMove(c, s) && Enabled(c, Drop(s))
  {
    hide T.Apply, T.Enabled, R.Apply, R.Enabled, RI.Inv, TaskInv, CidInv;
    assert SendOk(c, s);
    var pc := c.sends[s].pc;
    assert pc.Uploading? || pc.Processing? ==> RegistrationOk(c, pc.gen, pc.w);
  }

  lemma CallCanMove(c: State, s: SendId)
    requires Inv(c) && s in c.sends && (c.sends[s].pc.Calling? || c.sends[s].pc.Invoking?)
    ensures CanMove(c, s) && Enabled(c, Drop(s))
  {
    hide T.Apply, T.Enabled, R.Apply, R.Enabled, RI.Inv, TaskInv, CidInv;
    assert SendOk(c, s);
  }

  lemma IdleCanMove(c: State, s: SendId)
    requires Inv(c) && s in c.sends && (GenOf(c.sends[s].pc).None? || c.sends[s].pc.Delivered?)
    ensures CanMove(c, s) && (!Over(c.sends[s].pc) ==> Enabled(c, Drop(s)))
  {
    hide T.Apply, T.Enabled, R.Apply, RI.ConnOk, TaskInv, CidInv;
    assert SendOk(c, s);
    assert c.sends[s].pc.InCurrent? ==> RI.ActorOk(c.rec, c.sends[s].pc.a);
  }

  /** In every reached state each send that is not over can take its next step, or waits for
      its call, or in `current()` for a connection (RecoveryTheorems.NoLostWakeUp); a wait
      that is raced against the connection ends when the connection is cancelled. */
  lemma SendsCanMove(cs: seq<State>, ls: seq<Label>, i: nat, s: SendId)
    requires IsRun(cs, ls) && i <= |ls| && s in cs[i].sends
    ensures CanMove(cs[i], s)
    ensures !Over(cs[i].sends[s].pc) ==> Enabled(cs[i], Drop(s))
  {
    hide Inv, CanMove, Enabled;
    RunKeepsInv(cs, ls, i);
    var pc := cs[i].sends[s].pc;
    if pc.Registering? || pc.Uploading? || pc.Processing? {
      FileSendCanMove(cs[i], s);
    } else if pc.Calling? || pc.Invoking? {
      CallCanMove(cs[i], s);
    } else {
      IdleCanMove(cs[i], s);
    }
  }

  // ---- After a stop ----

  /** The client has stopped: shutdown is cancelled and the state is `Stopped`. */
  predicate Stopped(c: State) {
    c.rec.shutdown && c.rec.cell.Stopped?
  }

  predicate HasConnection(c: State, a: R.ActorId) {
    a in c.rec.actors && c.rec.actors[a].Waiter? && c.rec.actors[a].wait.Resolved?
  }

  /** How many more steps a send can take once the client has stopped. */
  function StepsLeft(c: State, s: SendId): nat {
    if s !in c.sends then 7
    else match c.sends[s].pc
      case Numbering => 3
      case Resolving => 2
      case InCurrent(a) => if HasConnection(c, a) then 4 else 1
      case Calling(_, _) => 3
      case Invoking(_, _, _) => 7
      case Registering(_, _) => 6
      case Uploading(_, _) => 5
      case Processing(_, _) => 4
      case _ => 0
  }

  lemma StoppedIsDead(c: State, gen: nat)
    requires Inv(c) && Stopped(c) && gen < |c.rec.conns|
    ensures Dead(c, gen)
  {
    assert RI.ConnOk(c.rec, gen);
  }

  lemma OwnStepsDown(c: State, l: Label, s: SendId)
    requires Inv(c) && WellFormed(c) && Enabled(c, l) && Stopped(c) && ST.IsOwn(l, s)
    ensures StepsLeft(Apply(c, l), s) < StepsLeft(c, s)
  {
    hide T.Apply, T.Enabled, Inv, A.Table, A.Completed, PayloadOf, LeaveWaiter, LeaveInvoke;
    if l.Call? { StoppedIsDead(c, c.sends[s].pc.gen); }
  }

  predicate Waits(rec: R.Sup, a: R.ActorId) {
    a in rec.actors && !(rec.actors[a].Waiter? && rec.actors[a].wait.Resolved?)
  }

  lemma OwnWaitGoesOn(c: State, a: R.ActorId)
    requires Inv(c) && Stopped(c) && R.Enabled(c.rec, R.Advance(a)) && Waits(c.rec, a) && c.rec.actors[a].Waiter?
    ensures Waits(R.Apply(c.rec, R.Advance(a)), a)
  {
    if c.rec.actors[a].wait.Examining? && c.rec.actors[a].wait.value.Ready? {
      StoppedIsDead(c, c.rec.actors[a].wait.value.gen);
    }
    hide Inv;
  }

  lemma OtherWaitsGoOn(rec: R.Sup, r: R.Label, a: R.ActorId)
    requires R.Enabled(rec, r) && Waits(rec, a) && (r.Advance? && r.a == a ==> !rec.actors[a].Waiter?)
    ensures Waits(R.Apply(rec, r), a)
  {
    if r.Advance? && r.a != a && rec.actors[r.a].Runner? {
      RP.RunnerMovesItself(rec, r.a, a);
    }
  }

  /** A waiter finds no connection any more. */
  lemma NoneIsFound(c: State, r: R.Label, a: R.ActorId)
    requires Inv(c) && Stopped(c) && R.Enabled(c.rec, r) && Waits(c.rec, a)
    ensures Waits(R.Apply(c.rec, r), a)
  {
    hide Inv, R.Apply, R.Enabled;
    if r == R.Advance(a) && c.rec.actors[a].Waiter? {
      OwnWaitGoesOn(c, a);
    } else {
      OtherWaitsGoOn(c.rec, r, a);
    }
  }

  lemma OthersDoNotDelay(c: State, l: Label, s: SendId)
    requires Inv(c) && WellFormed(c) && Enabled(c, l) && Stopped(c) && !ST.IsOwn(l, s)
    ensures StepsLeft(Apply(c, l), s) <= StepsLeft(c, s)
  {
    hide Apply, Enabled, R.Apply, R.Enabled, Inv, SinkWaits;
    var c' := Apply(c, l);
    if s in c'.sends {
      CE.OthersWereThere(c, l, s);
    }
    if s in c.sends {
      ST.OthersStep(c, l, s);
      StepTurns(c, l);
      if c.sends[s].pc.InCurrent? && c'.rec != c.rec {
        IsWaiting(c, s);
        var r :| R.Enabled(c.rec, r) && SinkWaits(c, r) && c'.rec == R.Apply(c.rec, r);
        if Waits(c.rec, c.sends[s].pc.a) { NoneIsFound(c, r, c.sends[s].pc.a); }
      }
    }
  }

  lemma IsWaiting(c: State, s: SendId)
    requires Inv(c) && s in c.sends && c.sends[s].pc.InCurrent?
    ensures c.sends[s].pc.a in c.rec.actors
  {
    assert SendOk(c, s);
  }

  /** How many of the steps from i to j are steps of send s. */
  function OwnSteps(ls: seq<Label>, i: nat, j: nat, s: SendId): nat
    requires i <= j <= |ls|
  {
    if i == j then 0 else OwnSteps(ls, i, j - 1, s) + (if ST.IsOwn(ls[j - 1], s) then 1 else 0)
  }

  lemma StoppedStays(c: State, l: Label)
    requires Inv(c) && WellFormed(c) && Enabled(c, l) && Stopped(c)
    ensures Stopped(Apply(c, l))
  {
    hide Inv, Apply, R.Apply, R.Enabled, SinkWaits, Turns, RecTurn;
    StepTurns(c, l);
    RecStaysStopped(c, Apply(c, l));
  }

  lemma RecStaysStopped(c: State, c': State)
    requires Inv(c) && Turns(c, c') && Stopped(c)
    ensures Stopped(c')
  {
    hide R.Apply, R.Enabled, SinkWaits;
    if c'.rec != c.rec {
      var r :| R.Enabled(c.rec, r) && SinkWaits(c, r) && c'.rec == R.Apply(c.rec, r);
      RT.StepGrows(c.rec, r);
    }
  }

  /** Once the client has stopped, a send takes at most seven more steps of its own, with
      whatever the others do in between: it does not go round the replay loop for ever. */
  lemma {:induction false} StoppedSendsEnd(cs: seq<State>, ls: seq<Label>, i: nat, j: nat, s: SendId)
    requires IsRun(cs, ls) && i <= j <= |ls| && Stopped(cs[i])
    ensures Stopped(cs[j]) && OwnSteps(ls, i, j, s) + StepsLeft(cs[j], s) <= StepsLeft(cs[i], s) <= 7
  {
    hide Inv, Apply, Enabled, StepsLeft, Stopped;
    if i < j {
      StoppedSendsEnd(cs, ls, i, j - 1, s);
      RunKeepsInv(cs, ls, j - 1);
      assert IsStep(cs[j - 1], ls[j - 1], cs[j - 1 + 1]);
      StoppedStays(cs[j - 1], ls[j - 1]);
      if ST.IsOwn(ls[j - 1], s) {
        OwnStepsDown(cs[j - 1], ls[j - 1], s);
      } else {
        OthersDoNotDelay(cs[j - 1], ls[j - 1], s);
      }
    } else {
      AtMostSeven(cs[i], s);
    }
  }

  lemma AtMostSeven(c: State, s: SendId)
    ensures StepsLeft(c, s) <= 7
  {
  }
}
