/** The state behind the transport's locks (src/client/transport.rs), updated in
    place. Each method is the body of one lock-protected section, and refines the
    step of the multiplexer with the same name. */
module TransportStates {
  import opened Protocol
  import opened Transport
  import opened TransportInvariant

  /** The two ends of a one-shot channel and what is in it. */
  datatype View = View(receiver: bool, sender: bool, value: Option<Packet>)

  /** What the multiplexer says of the channel of call t. */
  function ViewOf(s: Mux, t: TaskId): View
    requires t in s.tasks
  {
    View(ReceiverAlive(s.tasks[t]), t !in s.mailbox && t !in s.dropped,
         if t in s.mailbox && s.mailbox[t] in s.tasks &&
           s.tasks[s.mailbox[t]].kind.Respond? then Some(s.tasks[s.mailbox[t]].kind.packet)
         else None)
  }

  /** The channel of t has been made. */
  predicate HasChannel(s: Mux, t: TaskId) {
    t in s.tasks && Stage(s.tasks[t]) >= SENDING
  }

  class OneShot {
    ghost const id: TaskId
    var receiverAlive: bool    // `is_closed()` on the sender is its negation
    var senderAlive: bool
    var value: Option<Packet>

    constructor (ghost id: TaskId)
      ensures this.id == id && Now() == View(true, true, None)
    {
      this.id := id;
      receiverAlive, senderAlive, value := true, true, None;
    }

    /** Sending consumes the sender, and loses the packet when nobody can receive it. */
    method Send(packet: Packet)
      modifies this
      ensures Now() == View(old(receiverAlive), false, if old(receiverAlive) then Some(packet) else old(value))
    {
      senderAlive := false;
      if receiverAlive {
        value := Some(packet);
      }
    }

    ghost function Now(): View
      reads this
    {
      View(receiverAlive, senderAlive, value)
    }
  }

  class TransportState {
    var nextSeq: SeqNo
    var pending: map<SeqNo, OneShot>
    ghost var issued: map<TaskId, OneShot>  // every channel made, by the call that made it

    ghost predicate ChannelOk(s: Mux, t: TaskId)
      requires t in issued
      reads this, issued[t]
    {
      HasChannel(s, t) && issued[t].id == t && issued[t].Now() == ViewOf(s, t)
    }

    ghost predicate EntryOk(s: Mux, q: SeqNo)
      requires q in pending
      reads this, pending[q]
    {
      q in s.pending && s.pending[q] == pending[q].id && pending[q].id in issued && issued[pending[q].id] == pending[q]
    }

    ghost predicate Represents(s: Mux)
      reads this, pending.Values, issued.Values
    {
      && nextSeq == s.nextSeq
      && pending.Keys == s.pending.Keys
      && (forall q {:trigger EntryOk(s, q)} | q in pending :: EntryOk(s, q))
      && (forall t {:trigger ChannelOk(s, t)} | t in issued :: ChannelOk(s, t))
    }

    constructor ()
      ensures Represents(INIT) && issued == map[]
    {
      nextSeq, pending, issued := 1, map[], map[];
    }

    /** `invoke`: take a number. */
    method Allocate(ghost s: Mux, ghost t: TaskId) returns (seqNo: SeqNo)
      requires Represents(s) && t in s.tasks && s.tasks[t].phase == In(Alloc)
      modifies this
      ensures seqNo == old(nextSeq) && Transport.Allocate(s, t).tasks[t].seqNo == seqNo
      ensures Represents(Transport.Allocate(s, t)) && issued == old(issued)
    {
      seqNo := nextSeq;
      nextSeq := (nextSeq + 1) % SEQ_MODULUS;
      ghost var s' := Transport.Allocate(s, t);
      forall q | q in pending ensures EntryOk(s', q) { assert old(EntryOk(s, q)); }
      forall u | u in issued ensures ChannelOk(s', u) { assert old(ChannelOk(s, u)); }
    }

    /** `pending.retain(|_, waiter| !waiter.is_closed())`, which drops the other senders. */
    method Prune(ghost s: Mux, ghost t: TaskId)
      requires Represents(s)
      modifies this`pending, pending.Values
      ensures Represents(Pruned(s, t))
      ensures forall q | q in pending :: q in old(pending) && pending[q] == old(pending[q])
    {
      hide ViewOf, HasChannel, OpenWaiters;
      ghost var s' := Pruned(s, t);
      var kept := map q | q in pending && pending[q].receiverAlive :: pending[q];
      EntriesMatch(s);
      forall w | w in pending.Values && !w.receiverAlive {
        w.senderAlive := false;
      }
      pending := kept;
      forall q | q in pending ensures EntryOk(s', q) { assert old(EntryOk(s, q)); }
      forall u | u in issued ensures ChannelOk(s', u) {
        assert old(ChannelOk(s, u));
        PrunedView(s, t, u);
      }
    }

    lemma EntriesMatch(s: Mux)
      requires Represents(s)
      ensures forall q | q in pending ::
                q in s.pending && (pending[q].receiverAlive <==> s.pending[q] in OpenWaiters(s))
      ensures forall u | u in issued :: issued[u] in pending.Values <==> u in s.pending.Values
      ensures forall u | u in issued :: issued[u].receiverAlive <==> u in OpenWaiters(s)
    {
      forall q | q in pending ensures q in s.pending && (pending[q].receiverAlive <==> s.pending[q] in OpenWaiters(s)) {
        assert EntryOk(s, q);
        assert ChannelOk(s, pending[q].id);
      }
      forall u | u in issued ensures issued[u] in pending.Values <==> u in s.pending.Values {
        EntryOfChannel(s, u);
      }
      forall u | u in issued ensures issued[u].receiverAlive <==> u in OpenWaiters(s) {
        assert ChannelOk(s, u);
      }
    }

    lemma EntryOfChannel(s: Mux, u: TaskId)
      requires Represents(s) && u in issued
      ensures issued[u] in pending.Values <==> u in s.pending.Values
    {
      assert ChannelOk(s, u);
      if issued[u] in pending.Values {
        var q :| q in pending && pending[q] == issued[u];
        assert EntryOk(s, q);
        assert s.pending[q] == u;
      }
      if u in s.pending.Values {
        var q :| q in s.pending && s.pending[q] == u;
        assert EntryOk(s, q);
        assert pending[q] == issued[u];
      }
    }

    /** `register_and_send`, first half. A duplicate drops both ends of the new channel. */
    method Register(ghost s: Mux, ghost t: TaskId, seqNo: SeqNo) returns (waiter: OneShot?)
      requires Represents(s) && t in s.tasks && s.tasks[t].phase == In(Section.Register) && s.tasks[t].seqNo == seqNo &&
               s.tasks[t].kind.Invoke?
      requires t !in s.mailbox && t !in s.dropped
      modifies this, pending.Values
      ensures Represents(RegisterWaiter(s, t))
      ensures waiter == null <==> seqNo in Retained(s.pending, OpenWaiters(s))
      ensures waiter == null ==> issued == old(issued)
      ensures waiter != null ==> fresh(waiter) && issued == old(issued)[t := waiter] && pending[seqNo] == waiter
    {
      hide RegisterWaiter, ViewOf;
      Unlisted(s, t);
      Prune(s, t);
      if seqNo in pending {
        waiter := null;
      } else {
        waiter := Insert(Pruned(s, t), t, seqNo);
      }
      RegistrationAgrees(s, t);
    }

    lemma RegistrationAgrees(s: Mux, t: TaskId)
      requires t in s.tasks && s.tasks[t].phase == In(Section.Register) && s.tasks[t].kind.Invoke?
      requires Represents(PrunedAndInserted(s, t))
      ensures Represents(RegisterWaiter(s, t))
    {
      RegisteredTable(s, t);
      forall u | u in issued
        ensures HasChannel(RegisterWaiter(s, t), u) && HasChannel(PrunedAndInserted(s, t), u)
        ensures ViewOf(RegisterWaiter(s, t), u) == ViewOf(PrunedAndInserted(s, t), u)
      {
        assert ChannelOk(PrunedAndInserted(s, t), u);
        RegisteredView(s, t, u);
      }
      Transfer(PrunedAndInserted(s, t), RegisterWaiter(s, t));
    }

    lemma Transfer(s: Mux, s': Mux)
      requires Represents(s) && s'.nextSeq == s.nextSeq && s'.pending == s.pending
      requires forall u | u in issued :: HasChannel(s', u) && HasChannel(s, u) && ViewOf(s', u) == ViewOf(s, u)
      ensures Represents(s')
    {
      forall q | q in pending ensures EntryOk(s', q) { assert EntryOk(s, q); }
      forall u | u in issued ensures ChannelOk(s', u) { assert ChannelOk(s, u); }
    }

    lemma Unlisted(s: Mux, t: TaskId)
      requires Represents(s) && t in s.tasks && !HasChannel(s, t)
      ensures t !in s.pending.Values && t !in issued
    {
      forall q | q in s.pending ensures s.pending[q] != t {
        assert EntryOk(s, q);
        assert ChannelOk(s, pending[q].id);
      }
      assert t in issued ==> ChannelOk(s, t);
    }

    method Insert(ghost s: Mux, ghost t: TaskId, seqNo: SeqNo) returns (waiter: OneShot)
      requires Represents(s) && t in s.tasks && s.tasks[t].kind.Invoke? && seqNo !in pending
      requires !HasChannel(s, t) && t !in s.mailbox && t !in s.dropped
      modifies this
      ensures Represents(Inserted(s, t, seqNo))
      ensures fresh(waiter) && issued == old(issued)[t := waiter] && pending[seqNo] == waiter
    {
      ghost var s' := Inserted(s, t, seqNo);
      Unlisted(s, t);
      waiter := new OneShot(t);
      label made:
      pending := pending[seqNo := waiter];
      issued := issued[t := waiter];
      forall q | q in pending ensures EntryOk(s', q) {
        if q != seqNo { assert old(EntryOk(s, q)); }
      }
      forall u | u in issued ensures ChannelOk(s', u) {
        if u != t { assert old(ChannelOk(s, u)); }
      }
    }

    /** The clean-up of a call that returns an error; its own receiver goes with it. */
    method Remove(ghost s: Mux, ghost t: TaskId, ghost error: Error, seqNo: SeqNo, mine: OneShot)
      requires Represents(s) && t in issued && mine == issued[t] && t in s.tasks && s.tasks[t].seqNo == seqNo &&
               s.tasks[t].kind.Invoke?
      requires s.tasks[t].phase == In(Undo(error)) || s.tasks[t].phase == In(Cleanup(error))
      modifies this, mine, pending.Values
      ensures Represents(RemoveWaiter(s, t, error)) && issued == old(issued)
    {
      hide ViewOf, HasChannel, Stage;
      ghost var s' := RemoveWaiter(s, t, error);
      if seqNo in pending {
        assert EntryOk(s, seqNo);
        pending[seqNo].senderAlive := false;
        pending := pending - {seqNo};
      }
      mine.receiverAlive := false;
      forall q | q in pending ensures EntryOk(s', q) { assert old(EntryOk(s, q)); }
      forall u | u in issued ensures ChannelOk(s', u) {
        assert old(ChannelOk(s, u));
        assert old(ChannelOk(s, t));
        RemovedView(s, t, error, u);
      }
    }

    /** `receive_response`; sending to a dropped receiver loses the packet. */
    method Receive(ghost s: Mux, ghost t: TaskId, packet: Packet)
      requires Represents(s) && t in s.tasks && s.tasks[t].phase == In(Deliver) && s.tasks[t].kind == Respond(packet)
      requires packet.seqNo in s.pending ==> s.pending[packet.seqNo] in s.tasks && s.pending[packet.seqNo] !in s.mailbox
      modifies this, pending.Values
      ensures Represents(DeliverResponse(s, t, packet)) && issued == old(issued)
    {
      hide ViewOf, HasChannel, Stage;
      ghost var s' := DeliverResponse(s, t, packet);
      if packet.seqNo in pending {
        assert EntryOk(s, packet.seqNo);
        var waiter := pending[packet.seqNo];
        assert ChannelOk(s, waiter.id);
        pending := pending - {packet.seqNo};
        waiter.Send(packet);
      }
      forall q | q in pending ensures EntryOk(s', q) { assert old(EntryOk(s, q)); }
      forall u | u in issued ensures ChannelOk(s', u) {
        assert old(ChannelOk(s, u));
        DeliveredView(s, t, packet, u);
      }
    }

    /** `close`, first half. */
    method Clear(ghost s: Mux, ghost t: TaskId)
      requires Represents(s) && t in s.tasks && s.tasks[t].phase == In(Section.Clear) && s.tasks[t].kind.Close?
      modifies this, pending.Values
      ensures Represents(ClearWaiters(s, t)) && issued == old(issued)
    {
      ghost var s' := ClearWaiters(s, t);
      EntriesMatch(s);
      forall w | w in pending.Values {
        w.senderAlive := false;
      }
      pending := map[];
      forall u | u in issued ensures ChannelOk(s', u) {
        assert old(ChannelOk(s, u));
        ClearedView(s, t, u);
      }
    }

    /** Any step outside the table: all it can do to a channel is to drop t's receiver. */
    method MoveOn(ghost s: Mux, ghost s': Mux, ghost t: TaskId, mine: OneShot?, listens: bool)
      requires Represents(s) && PcStep(s, s', t) && WellFormed(s)
      requires if t in issued then mine == issued[t] && listens == ReceiverAlive(s'.tasks[t]) else mine == null
      modifies mine
      ensures Represents(s')
    {
      if mine != null {
        assert ChannelOk(s, t);
        mine.receiverAlive := listens;
      }
      forall q | q in pending ensures EntryOk(s', q) { assert old(EntryOk(s, q)); }
      forall u | u in issued ensures ChannelOk(s', u) {
        assert old(ChannelOk(s, u));
        MovedView(s, s', t, u);
      }
    }
  }

  lemma MovedView(s: Mux, s': Mux, t: TaskId, u: TaskId)
    requires PcStep(s, s', t) && HasChannel(s, u) && (u in s.mailbox ==> s.mailbox[u] in s.tasks)
    ensures HasChannel(s', u)
    ensures ViewOf(s', u) == ViewOf(s, u).(receiver := ReceiverAlive(s'.tasks[u]))
    ensures u != t ==> ReceiverAlive(s'.tasks[u]) == ReceiverAlive(s.tasks[u])
  {
  }

  lemma RemovedView(s: Mux, t: TaskId, error: Error, u: TaskId)
    requires t in s.tasks && s.tasks[t].kind.Invoke? && HasChannel(s, u)
    ensures HasChannel(RemoveWaiter(s, t, error), u)
    ensures var seqNo := s.tasks[t].seqNo;
      ViewOf(RemoveWaiter(s, t, error), u) ==
      View(ViewOf(s, u).receiver && u != t,
           ViewOf(s, u).sender && !(seqNo in s.pending && s.pending[seqNo] == u), ViewOf(s, u).value)
  {
  }

  lemma DeliveredView(s: Mux, t: TaskId, packet: Packet, u: TaskId)
    requires t in s.tasks && s.tasks[t].phase == In(Deliver) && s.tasks[t].kind == Respond(packet) && HasChannel(s, u)
    requires packet.seqNo in s.pending ==> s.pending[packet.seqNo] in s.tasks && s.pending[packet.seqNo] !in s.mailbox
    ensures HasChannel(DeliverResponse(s, t, packet), u)
    ensures var mine := packet.seqNo in s.pending && s.pending[packet.seqNo] == u;
      ViewOf(DeliverResponse(s, t, packet), u) ==
      View(ViewOf(s, u).receiver, ViewOf(s, u).sender && !mine,
           if mine && ViewOf(s, u).receiver then Some(packet) else ViewOf(s, u).value)
  {
  }

  lemma ClearedView(s: Mux, t: TaskId, u: TaskId)
    requires t in s.tasks && s.tasks[t].kind.Close? && HasChannel(s, u)
    ensures HasChannel(ClearWaiters(s, t), u)
    ensures ViewOf(ClearWaiters(s, t), u) == ViewOf(s, u).(sender := ViewOf(s, u).sender && u !in s.pending.Values)
  {
  }

  function Pruned(s: Mux, t: TaskId): Mux {
    var kept := Retained(s.pending, OpenWaiters(s));
    s.(pending := kept, dropped := s.dropped + map u | u in s.pending.Values && u !in kept.Values :: ByPrune(t))
  }

  function Inserted(s: Mux, t: TaskId, seqNo: SeqNo): Mux
    requires t in s.tasks
  {
    At(s, t, Want(Feed)).(pending := s.pending[seqNo := t])
  }

  function PrunedAndInserted(s: Mux, t: TaskId): Mux
    requires t in s.tasks
  {
    var s1 := Pruned(s, t);
    if s.tasks[t].seqNo in s1.pending then s1 else Inserted(s1, t, s.tasks[t].seqNo)
  }

  lemma RegisteredTable(s: Mux, t: TaskId)
    requires t in s.tasks && s.tasks[t].phase == In(Section.Register)
    ensures RegisterWaiter(s, t).nextSeq == s.nextSeq && RegisterWaiter(s, t).pending == PrunedAndInserted(s, t).pending
  {
  }

  lemma RegisteredView(s: Mux, t: TaskId, u: TaskId)
    requires t in s.tasks && s.tasks[t].phase == In(Section.Register) && s.tasks[t].kind.Invoke? &&
             HasChannel(PrunedAndInserted(s, t), u)
    ensures HasChannel(RegisterWaiter(s, t), u)
    ensures ViewOf(RegisterWaiter(s, t), u) == ViewOf(PrunedAndInserted(s, t), u)
  {
  }

  lemma PrunedView(s: Mux, t: TaskId, u: TaskId)
    requires HasChannel(s, u)
    ensures HasChannel(Pruned(s, t), u)
    ensures ViewOf(Pruned(s, t), u) ==
              ViewOf(s, u).(sender := ViewOf(s, u).sender && !(u in s.pending.Values && u !in OpenWaiters(s)))
  {
    var kept := Retained(s.pending, OpenWaiters(s));
    if u in s.pending.Values && u in OpenWaiters(s) {
      var q :| q in s.pending && s.pending[q] == u;
      assert kept[q] == u;
    }
    if u in kept.Values {
      var q :| q in kept && kept[q] == u;
      assert q in s.pending;
    }
  }
}
