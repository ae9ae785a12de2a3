/** The in-place state follows the multiplexer through every run. */
module TransportRefinement {
  import opened Protocol
  import opened Transport
  import opened TransportInvariant
  import TransportProofs
  import opened TransportTheorems
  import opened TransportStates

  /** What the calls in flight hold: the receiver of each channel. */
  type Receivers = map<TaskId, OneShot>

  ghost predicate AllHeld(s: Mux, held: Receivers) {
    forall t {:trigger s.tasks[t]} | t in s.tasks && Registered(s.tasks[t]) :: t in held
  }

  predicate OnTable(task: Task) {
    task.phase.In? && (task.phase.section.Alloc? || task.phase.section.Register? || task.phase.section.Undo? ||
                       task.phase.section.Cleanup? || task.phase.section.Deliver? || task.phase.section.Clear?)
  }

  /** The section of one future runs on the shared state. */
  method RunOnTable(st: TransportState, s: Mux, ghost s': Mux, t: TaskId, held: Receivers) returns (held': Receivers)
    requires WellFormed(s) && PendingInv(s) && MailInv(s) && DropInv(s)
    requires t in s.tasks && OnTable(s.tasks[t]) && Fits(s, t) && s' == RunSection(s, t, s.tasks[t].phase.section)
    requires st.Represents(s) && held == st.issued && (Registered(s.tasks[t]) ==> t in held)
    modifies st, st.pending.Values, held.Values
    ensures st.Represents(s') && held' == st.issued
    ensures held' == held || (t in held' && fresh(held'[t]) && held' == held[t := held'[t]])
    ensures s.tasks[t].phase.section.Register? && s.tasks[t].seqNo !in Retained(s.pending, OpenWaiters(s)) ==>
              t in held'
  {
    held' := held;
    match s.tasks[t].phase.section
    case Alloc =>
      var _ := st.Allocate(s, t);
    case Register =>
      assert t in s.mailbox ==> MailOk(s, t);
      assert t in s.dropped ==> DropOk(s, t);
      var waiter := st.Register(s, t, s.tasks[t].seqNo);
      if waiter != null {
        held' := held[t := waiter];
      }
    case Undo(error) =>
      st.Remove(s, t, error, s.tasks[t].seqNo, held[t]);
    case Cleanup(error) =>
      st.Remove(s, t, error, s.tasks[t].seqNo, held[t]);
    case Deliver =>
      assert s.tasks[t].kind.packet.seqNo in s.pending ==> WaiterOk(s, s.tasks[t].kind.packet.seqNo);
      st.Receive(s, t, s.tasks[t].kind.packet);
    case Clear =>
      st.Clear(s, t);
  }

  lemma AfterRegister(s: Mux, t: TaskId)
    requires t in s.tasks
    ensures var s' := RegisterWaiter(s, t);
      t in s'.tasks && (Registered(s'.tasks[t]) ==> s.tasks[t].seqNo !in Retained(s.pending, OpenWaiters(s)))
  {
  }

  lemma AfterRemove(s: Mux, t: TaskId, error: Error)
    requires t in s.tasks
    ensures t in RemoveWaiter(s, t, error).tasks && !Registered(RemoveWaiter(s, t, error).tasks[t])
  {
  }

  lemma AfterOthers(s: Mux, t: TaskId)
    requires WellFormed(s) && t in s.tasks && Fits(s, t) && s.tasks[t].phase.In?
    requires s.tasks[t].phase.section.Alloc? || s.tasks[t].phase.section.Deliver? || s.tasks[t].phase.section.Clear?
    ensures var s' := RunSection(s, t, s.tasks[t].phase.section); t in s'.tasks && !Registered(s'.tasks[t])
  {
  }

  /** Only an accepted registration leaves its future registered. */
  lemma AfterTable(s: Mux, t: TaskId)
    requires WellFormed(s) && t in s.tasks && OnTable(s.tasks[t]) && Fits(s, t)
    ensures var s' := RunSection(s, t, s.tasks[t].phase.section);
      t in s'.tasks &&
      (Registered(s'.tasks[t]) ==>
         s.tasks[t].phase.section.Register? && s.tasks[t].seqNo !in Retained(s.pending, OpenWaiters(s)))
  {
    match s.tasks[t].phase.section
    case Register => AfterRegister(s, t);
    case Undo(error) => AfterRemove(s, t, error);
    case Cleanup(error) => AfterRemove(s, t, error);
    case _ => AfterOthers(s, t);
  }

  lemma OthersStay(s: Mux, l: Label, u: TaskId)
    requires Inv(s) && Enabled(s, l) && u != l.t && u in Apply(s, l).tasks
    ensures u in s.tasks && s.tasks[u] == Apply(s, l).tasks[u]
  {
    TransportProofs.StepShape(s, l);
  }

  lemma AllStayHeld(s: Mux, l: Label, held: Receivers, held': Receivers)
    requires Inv(s) && Enabled(s, l) && AllHeld(s, held) && held.Keys <= held'.Keys && l.t in Apply(s, l).tasks
    requires Registered(Apply(s, l).tasks[l.t]) ==> l.t in held'
    ensures AllHeld(Apply(s, l), held')
  {
    forall u | u in Apply(s, l).tasks && Registered(Apply(s, l).tasks[u]) ensures u in held' {
      if u != l.t { OthersStay(s, l, u); }
    }
  }

  lemma MoverIsHeld(s: Mux, s': Mux, t: TaskId, held: Receivers)
    requires PcStep(s, s', t) && AllHeld(s, held) && Registered(s'.tasks[t])
    ensures t in held
  {
  }

  lemma PendingIsHeld(st: TransportState, s: Mux)
    requires st.Represents(s)
    ensures st.pending.Values <= st.issued.Values
  {
    forall q | q in st.pending ensures st.pending[q] in st.issued.Values {
      assert st.EntryOk(s, q);
    }
  }

  /** Any step of any future, on the shared state. */
  method Step(st: TransportState, s: Mux, l: Label, held: Receivers) returns (held': Receivers)
    requires Inv(s) && Enabled(s, l) && st.Represents(s) && held == st.issued && AllHeld(s, held)
    modifies st, held.Values
    ensures st.Represents(Apply(s, l)) && held' == st.issued && AllHeld(Apply(s, l), held')
    ensures fresh(held'.Values - held.Values)
  {
    assert l.t in s.tasks ==> Fits(s, l.t);
    PendingIsHeld(st, s);
    ghost var s' := Apply(s, l);
    if l.Run? && OnTable(s.tasks[l.t]) {
      AfterTable(s, l.t);
      held' := RunOnTable(st, s, s', l.t, held);
      assert held'.Values <= held.Values + if held' == held then {} else {held'[l.t]};
    } else {
      held' := held;
      Other(st, s, l, held);
    }
    AllStayHeld(s, l, held, held');
  }

  method Other(st: TransportState, s: Mux, l: Label, held: Receivers)
    requires Inv(s) && Enabled(s, l) && st.Represents(s) && held == st.issued && AllHeld(s, held)
    requires l.Run? ==> !OnTable(s.tasks[l.t])
    modifies held.Values
    ensures st.Represents(Apply(s, l)) && held == st.issued
    ensures l.t in Apply(s, l).tasks && (Registered(Apply(s, l).tasks[l.t]) ==> l.t in held)
  {
    assert l.t in s.tasks ==> Fits(s, l.t);
    TransportProofs.PcSteps(s, l);
    var s' := Apply(s, l);
    if Registered(s'.tasks[l.t]) {
      MoverIsHeld(s, s', l.t, held);
    }
    st.MoveOn(s, s', l.t, if l.t in held then held[l.t] else null, ReceiverAlive(s'.tasks[l.t]));
  }

  /** The same in-place state, driven through any run, always represents the multiplexer. */
  method Execute(ss: seq<Mux>, ls: seq<Label>) returns (st: TransportState)
    requires IsRun(ss, ls)
    ensures st.Represents(ss[|ls|])
  {
    st := new TransportState();
    var held: Receivers := map[];
    var i := 0;
    while i < |ls|
      invariant i <= |ls| && st.Represents(ss[i]) && held == st.issued && AllHeld(ss[i], held)
      invariant fresh(st) && fresh(held.Values)
    {
      RunKeepsInv(ss, ls, i);
      assert IsStep(ss[i], ls[i], ss[i + 1]);
      held := Step(st, ss[i], ls[i], held);
      i := i + 1;
    }
  }
}
