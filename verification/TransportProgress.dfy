/** What the multiplexer can do when nothing disturbs it: every kind of call gets through. */
module TransportProgress {
  import opened Protocol
  import opened Transport
  import opened TransportInvariant
  import opened TransportProofs
  import opened TransportTheorems

  /** These steps can be taken one after the other, and lead from s to e. */
  ghost predicate Possible(s: Mux, ls: seq<Label>, e: Mux)
    decreases |ls|
  {
    if ls == [] then s == e else WellFormed(s) && Enabled(s, ls[0]) && Possible(Apply(s, ls[0]), ls[1..], e)
  }

  lemma {:induction false} Joined(s: Mux, ls: seq<Label>, m: Mux, more: seq<Label>, e: Mux)
    requires Possible(s, ls, m) && Possible(m, more, e)
    ensures Possible(s, ls + more, e)
    decreases |ls|
  {
    hide Apply, Enabled, WellFormed;
    if ls == [] {
      assert ls + more == more;
    } else {
      Joined(Apply(s, ls[0]), ls[1..], m, more, e);
      assert (ls + more)[1..] == ls[1..] + more;
    }
  }

  /** One more step, which keeps the invariant. */
  lemma Then(s: Mux, ls: seq<Label>, m: Mux, l: Label) returns (ls': seq<Label>, e: Mux)
    requires Possible(s, ls, m) && Inv(m) && Enabled(m, l)
    ensures ls' == ls + [l] && e == Apply(m, l) && Possible(s, ls', e) && Inv(e)
    ensures e.tasks.Keys == m.tasks.Keys + {l.t}
  {
    InvGivesWellFormed(m);
    KeepsTasks(m, l);
    hide Apply, Enabled, Inv, WellFormed;
    ls', e := ls + [l], Apply(m, l);
    StepKeepsInv(m, l);
    assert [l][1..] == [];
    assert Possible(e, [], e);
    assert Possible(m, [l], e);
    Joined(s, ls, m, [l], e);
  }

  lemma KeepsTasks(s: Mux, l: Label)
    requires Inv(s) && Enabled(s, l)
    ensures Apply(s, l).tasks.Keys == s.tasks.Keys + {l.t}
  {
    StepShape(s, l);
  }

  lemma InvGivesWellFormed(s: Mux)
    requires Inv(s)
    ensures WellFormed(s)
  {
  }

  /** Task t of this kind is at this point and holds these locks, and nobody else holds any;
      the sink is open, and nobody listens for this number. */
  predicate CallAt(s: Mux, t: TaskId, kind: Kind, phase: Phase, locks: set<Lock>) {
    && t in s.tasks && s.tasks[t].kind == kind && s.tasks[t].phase == phase && s.sinkOpen
    && s.locks == map lock | lock in locks :: t
  }

  lemma Begins(s: Mux, t: TaskId, kind: Kind)
    requires Inv(s) && s.locks == map[] && s.sinkOpen && t !in s.tasks && kind.Invoke? && !OwnerListens(s, s.nextSeq)
    ensures Enabled(s, Spawn(t, kind))
    ensures var e := Apply(s, Spawn(t, kind));
      CallAt(e, t, kind, Want(Order), {}) && !OwnerListens(e, e.nextSeq) && e.nextSeq == s.nextSeq && e.wire == s.wire
  {
  }

  lemma TakesOrder(s: Mux, t: TaskId, kind: Kind)
    requires Inv(s) && CallAt(s, t, kind, Want(Order), {}) && kind.Invoke? && !OwnerListens(s, s.nextSeq)
    ensures Enabled(s, Acquire(t))
    ensures var e := Apply(s, Acquire(t));
      CallAt(e, t, kind, Want(Alloc), {SendOrder}) &&
        !OwnerListens(e, e.nextSeq) && e.nextSeq == s.nextSeq && e.wire == s.wire
  {
  }

  lemma EntersAlloc(s: Mux, t: TaskId, kind: Kind)
    requires Inv(s) && CallAt(s, t, kind, Want(Alloc), {SendOrder}) && kind.Invoke? && !OwnerListens(s, s.nextSeq)
    ensures Enabled(s, Acquire(t))
    ensures var e := Apply(s, Acquire(t));
      CallAt(e, t, kind, In(Alloc), {SendOrder, StateLock}) && !OwnerListens(e, e.nextSeq) &&
      e.nextSeq == s.nextSeq && e.wire == s.wire
  {
  }

  /** Task t has this number, and nobody else listens for it. */
  predicate Numbered(s: Mux, t: TaskId, q: SeqNo) {
    t in s.tasks && s.tasks[t].seqNo == q && !OwnerListens(s, q)
  }

  lemma TakesNumber(s: Mux, t: TaskId, kind: Kind)
    requires Inv(s) && CallAt(s, t, kind, In(Alloc), {SendOrder, StateLock}) &&
             kind.Invoke? && !OwnerListens(s, s.nextSeq)
    ensures Enabled(s, Run(t))
    ensures var e := Apply(s, Run(t));
      CallAt(e, t, kind, Want(Register), {SendOrder}) && Numbered(e, t, s.nextSeq) && e.wire == s.wire
  {
    assert Apply(s, Run(t)) == Allocate(s, t);
    hide Apply, Inv;
  }

  lemma EntersRegister(s: Mux, t: TaskId, kind: Kind, q: SeqNo)
    requires Inv(s) && CallAt(s, t, kind, Want(Register), {SendOrder}) && kind.Invoke? && Numbered(s, t, q)
    ensures Enabled(s, Acquire(t))
    ensures var e := Apply(s, Acquire(t));
      CallAt(e, t, kind, In(Register), {SendOrder, StateLock}) && Numbered(e, t, q) && e.wire == s.wire
  {
  }

  predicate Filed(s: Mux, t: TaskId, q: SeqNo) {
    t in s.tasks && s.tasks[t].seqNo == q && q in s.pending && s.pending[q] == t
  }

  lemma Registers(s: Mux, t: TaskId, kind: Kind, q: SeqNo)
    requires Inv(s) && CallAt(s, t, kind, In(Register), {SendOrder, StateLock}) && kind.Invoke? && Numbered(s, t, q)
    ensures Enabled(s, Run(t))
    ensures var e := Apply(s, Run(t));
      CallAt(e, t, kind, Want(Feed), {SendOrder}) && Filed(e, t, q) && e.wire == s.wire
  {
    assert Apply(s, Run(t)) == RegisterWaiter(s, t);
    hide Apply;
  }

  lemma EntersFeed(s: Mux, t: TaskId, kind: Kind, q: SeqNo)
    requires Inv(s) && CallAt(s, t, kind, Want(Feed), {SendOrder}) && kind.Invoke? && Filed(s, t, q)
    ensures Enabled(s, Acquire(t))
    ensures var e := Apply(s, Acquire(t));
      CallAt(e, t, kind, In(Feed), {SendOrder, SinkLock}) && Filed(e, t, q) && e.wire == s.wire
  {
  }

  lemma Feeds(s: Mux, t: TaskId, kind: Kind, q: SeqNo)
    requires Inv(s) && CallAt(s, t, kind, In(Feed), {SendOrder, SinkLock}) && kind.Invoke? && Filed(s, t, q)
    ensures Enabled(s, Run(t))
    ensures var e := Apply(s, Run(t));
      CallAt(e, t, kind, Flushing, {SendOrder, SinkLock}) && Filed(e, t, q) &&
      e.wire == s.wire + [Frame(t, Request(q, kind.opcode, kind.payload))]
  {
    assert Apply(s, Run(t)) == FeedFrame(s, t);
    hide Apply, Inv;
  }

  lemma Flushes(s: Mux, t: TaskId, kind: Kind, q: SeqNo)
    requires Inv(s) && CallAt(s, t, kind, Flushing, {SendOrder, SinkLock}) && kind.Invoke? && Filed(s, t, q)
    ensures Enabled(s, Flushed(t))
    ensures var e := Apply(s, Flushed(t));
      CallAt(e, t, kind, Awaiting, {}) && Filed(e, t, q) && e.wire == s.wire
  {
  }

  /** The first half: numbered and registered. */
  lemma CallRegisters(s: Mux, t: TaskId, kind: Kind) returns (ls: seq<Label>, e: Mux)
    requires Inv(s) && s.locks == map[] && s.sinkOpen && t !in s.tasks && kind.Invoke? && !OwnerListens(s, s.nextSeq)
    ensures Possible(s, ls, e) && Inv(e) && |ls| == 6
    ensures CallAt(e, t, kind, Want(Feed), {SendOrder}) && Filed(e, t, s.nextSeq) && e.wire == s.wire
    ensures e.tasks.Keys == s.tasks.Keys + {t}
  {
    hide Apply, Enabled, Inv, CallAt, OwnerListens, Filed, Numbered;
    var q := s.nextSeq;
    ls, e := [], s;
    Begins(e, t, kind);
    ls, e := Then(s, ls, e, Spawn(t, kind));
    TakesOrder(e, t, kind);
    ls, e := Then(s, ls, e, Acquire(t));
    EntersAlloc(e, t, kind);
    ls, e := Then(s, ls, e, Acquire(t));
    TakesNumber(e, t, kind);
    ls, e := Then(s, ls, e, Run(t));
    EntersRegister(e, t, kind, q);
    ls, e := Then(s, ls, e, Acquire(t));
    Registers(e, t, kind, q);
    ls, e := Then(s, ls, e, Run(t));
  }

  /** The second half: written and listening. */
  lemma CallListens(s: Mux, t: TaskId, kind: Kind, q: SeqNo) returns (ls: seq<Label>, e: Mux)
    requires Inv(s) && kind.Invoke? && CallAt(s, t, kind, Want(Feed), {SendOrder}) && Filed(s, t, q)
    ensures Possible(s, ls, e) && Inv(e) && |ls| == 3
    ensures CallAt(e, t, kind, Awaiting, {}) && Filed(e, t, q)
    ensures e.wire == s.wire + [Frame(t, Request(q, kind.opcode, kind.payload))] && e.tasks.Keys == s.tasks.Keys
  {
    hide Apply, Enabled, Inv, CallAt, Filed;
    ls, e := [], s;
    EntersFeed(e, t, kind, q);
    ls, e := Then(s, ls, e, Acquire(t));
    Feeds(e, t, kind, q);
    ls, e := Then(s, ls, e, Run(t));
    Flushes(e, t, kind, q);
    ls, e := Then(s, ls, e, Flushed(t));
  }

  // ---- The answer ----

  lemma AnswerArrives(s: Mux, t: TaskId, kind: Kind, q: SeqNo, r: TaskId, packet: Packet)
    requires Inv(s) && CallAt(s, t, kind, Awaiting, {}) && kind.Invoke? &&
             Filed(s, t, q) && r !in s.tasks && packet.seqNo == q
    ensures Enabled(s, Spawn(r, Respond(packet)))
    ensures var e := Apply(s, Spawn(r, Respond(packet)));
      && Filed(e, t, q) && e.tasks[t].kind == kind && e.tasks[t].phase == Awaiting && t != r
      && r in e.tasks && e.tasks[r].kind == Respond(packet) &&
         e.tasks[r].phase == Want(Deliver) && e.locks == map[] && e.wire == s.wire
  {
  }

  lemma AnswerEnters(s: Mux, t: TaskId, kind: Kind, q: SeqNo, r: TaskId, packet: Packet)
    requires Inv(s) && Filed(s, t, q) && s.tasks[t].kind == kind && s.tasks[t].phase == Awaiting && t != r
    requires r in s.tasks && s.tasks[r].kind == Respond(packet) && s.tasks[r].phase == Want(Deliver) && s.locks == map[]
    ensures Enabled(s, Acquire(r))
    ensures var e := Apply(s, Acquire(r));
      && Filed(e, t, q) && e.tasks[t].kind == kind && e.tasks[t].phase == Awaiting && t != r
      && r in e.tasks && e.tasks[r].kind == Respond(packet) && e.tasks[r].phase == In(Deliver) && e.wire == s.wire
  {
  }

  lemma AnswerIsFiled(s: Mux, t: TaskId, kind: Kind, q: SeqNo, r: TaskId, packet: Packet)
    requires Inv(s) && kind.Invoke? && packet.seqNo == q
    requires Filed(s, t, q) && s.tasks[t].kind == kind && s.tasks[t].phase == Awaiting && t != r
    requires r in s.tasks && s.tasks[r].kind == Respond(packet) && s.tasks[r].phase == In(Deliver)
    ensures Enabled(s, Run(r))
    ensures var e := Apply(s, Run(r));
      && t in e.tasks && e.tasks[t].kind == kind && e.tasks[t].phase == Awaiting && t in e.mailbox && e.mailbox[t] == r
      && r in e.tasks && e.tasks[r].kind == Respond(packet) && e.wire == s.wire
  {
    assert Apply(s, Run(r)) == DeliverResponse(s, r, packet);
    hide Apply, Inv;
  }

  lemma AnswerIsTaken(s: Mux, t: TaskId, kind: Kind, r: TaskId, packet: Packet)
    requires Inv(s) && kind.Invoke? && t in s.tasks && s.tasks[t].kind == kind && s.tasks[t].phase == Awaiting
    requires t in s.mailbox && s.mailbox[t] == r && r in s.tasks && s.tasks[r].kind == Respond(packet)
    ensures Enabled(s, TakeReply(t))
    ensures var e := Apply(s, TakeReply(t));
      t in e.tasks && e.wire == s.wire && e.tasks[t].phase ==
        Finished(if packet.cmd == CMD_ERROR then Outcome.Failed(Server(kind.opcode)) else Replied(packet))
  {
  }

  lemma CallIsAnswered(s: Mux, t: TaskId, kind: Kind, q: SeqNo, r: TaskId, packet: Packet)
    returns (ls: seq<Label>, e: Mux)
    requires Inv(s) && CallAt(s, t, kind, Awaiting, {}) && kind.Invoke? &&
             Filed(s, t, q) && r !in s.tasks && packet.seqNo == q
    ensures Possible(s, ls, e) && |ls| == 4 && t in e.tasks && e.wire == s.wire
    ensures e.tasks[t].phase ==
            Finished(if packet.cmd == CMD_ERROR then Outcome.Failed(Server(kind.opcode)) else Replied(packet))
  {
    hide Apply, Enabled, Inv, CallAt, Possible;
    ls, e := [], s;
    assert Possible(s, ls, e) by { Nothing(s); }
    AnswerArrives(e, t, kind, q, r, packet);
    ls, e := Then(s, ls, e, Spawn(r, Respond(packet)));
    AnswerEnters(e, t, kind, q, r, packet);
    ls, e := Then(s, ls, e, Acquire(r));
    AnswerIsFiled(e, t, kind, q, r, packet);
    ls, e := Then(s, ls, e, Run(r));
    AnswerIsTaken(e, t, kind, r, packet);
    ls, e := Then(s, ls, e, TakeReply(t));
  }

  lemma Nothing(s: Mux)
    ensures Possible(s, [], s)
  {
  }

  /** An undisturbed call gets through: from every reachable state with the locks free
      (NoDeadlock), the sink open and nobody listening for the next number, nine steps write
      the request, and four more bring back whatever answer arrives for its number. */
  lemma UndisturbedCallIsAnswered(
      ss: seq<Mux>, ls: seq<Label>, i: nat, t: TaskId, kind: Kind, r: TaskId, cmd: int, opcode: int, payload: Payload)
    returns (more: seq<Label>, e: Mux)
    requires IsRun(ss, ls) && i <= |ls| && ss[i].locks == map[] && ss[i].sinkOpen && !OwnerListens(ss[i], ss[i].nextSeq)
    requires t !in ss[i].tasks && r !in ss[i].tasks && t != r && kind.Invoke?
    ensures Possible(ss[i], more, e) && |more| == 13 && t in e.tasks
    ensures ss[i].wire + [Frame(t, Request(ss[i].nextSeq, kind.opcode, kind.payload))] == e.wire
    ensures e.tasks[t].phase ==
            Finished(if cmd == CMD_ERROR then Outcome.Failed(Server(kind.opcode))
                     else Replied(Packet(cmd, ss[i].nextSeq, opcode, payload)))
  {
    hide Apply, Enabled, Inv, CallAt, Possible, OwnerListens, Filed;
    var q := ss[i].nextSeq;
    RunKeepsInv(ss, ls, i);
    var numbering, s1 := CallRegisters(ss[i], t, kind);
    var writing, s2 := CallListens(s1, t, kind, q);
    var answer;
    answer, e := CallIsAnswered(s2, t, kind, q, r, Packet(cmd, q, opcode, payload));
    Joined(s1, writing, s2, answer, e);
    Joined(ss[i], numbering, s1, writing + answer, e);
    more := numbering + (writing + answer);
  }

  // ---- Acks, connect and close ----

  /** Task t of this kind is at this point, and these are the locks. */
  predicate TaskAt(s: Mux, t: TaskId, kind: Kind, phase: Phase, locks: map<Lock, TaskId>) {
    t in s.tasks && s.tasks[t].kind == kind && s.tasks[t].phase == phase && s.locks == locks
  }

  lemma Starts(s: Mux, t: TaskId, kind: Kind)
    requires Inv(s) && s.locks == map[] && t !in s.tasks && (kind.Ack? ==> kind.packet.cmd == CMD_RESPONSE)
    ensures Enabled(s, Spawn(t, kind))
    ensures var e := Apply(s, Spawn(t, kind));
      TaskAt(e, t, kind, Want(StartOf(kind)), map[]) && e.sinkOpen == s.sinkOpen && e.wire == s.wire
  {
  }

  lemma Enters(s: Mux, t: TaskId, kind: Kind, section: Section)
    requires Inv(s) && TaskAt(s, t, kind, Want(section), map[]) && !section.Order?
    ensures Enabled(s, Acquire(t))
    ensures var e := Apply(s, Acquire(t));
      TaskAt(e, t, kind, In(section), map[LockOf(section) := t]) && e.sinkOpen == s.sinkOpen && e.wire == s.wire &&
      e.pending == s.pending
  {
  }

  lemma AckIsFed(s: Mux, t: TaskId, packet: Packet)
    requires Inv(s) && TaskAt(s, t, Ack(packet), In(Feed), map[SinkLock := t]) && s.sinkOpen
    ensures Enabled(s, Run(t))
    ensures var e := Apply(s, Run(t));
      TaskAt(e, t, Ack(packet), Flushing, map[SinkLock := t]) && e.wire == s.wire + [Frame(t, packet)]
  {
    assert Apply(s, Run(t)) == FeedFrame(s, t);
  }

  lemma AckIsFlushed(s: Mux, t: TaskId, packet: Packet)
    requires Inv(s) && TaskAt(s, t, Ack(packet), Flushing, map[SinkLock := t])
    ensures Enabled(s, Flushed(t))
    ensures var e := Apply(s, Flushed(t)); TaskAt(e, t, Ack(packet), Finished(Returned), map[]) && e.wire == s.wire
  {
  }

  lemma AckGetsOut(s: Mux, t: TaskId, packet: Packet) returns (ls: seq<Label>, e: Mux)
    requires Inv(s) && s.locks == map[] && s.sinkOpen && t !in s.tasks && packet.cmd == CMD_RESPONSE
    ensures Possible(s, ls, e) && |ls| == 4
    ensures e.wire == s.wire + [Frame(t, packet)]
    ensures t in e.tasks && e.tasks[t].phase == Finished(Returned)
  {
    hide Apply, Enabled, Inv;
    ls, e := [], s;
    Starts(e, t, Ack(packet));
    ls, e := Then(s, ls, e, Spawn(t, Ack(packet)));
    Enters(e, t, Ack(packet), Feed);
    ls, e := Then(s, ls, e, Acquire(t));
    AckIsFed(e, t, packet);
    ls, e := Then(s, ls, e, Run(t));
    AckIsFlushed(e, t, packet);
    ls, e := Then(s, ls, e, Flushed(t));
  }

  /** Its write may time out as well, under the ack's own opcode. */
  lemma AckMayTimeOut(s: Mux, t: TaskId, packet: Packet)
    requires Inv(s) && t in s.tasks && s.tasks[t].kind == Ack(packet) && s.tasks[t].phase == Flushing
    ensures var l := SendFails(t, Timeout(packet.opcode));
      && Enabled(s, l) && t in Apply(s, l).tasks
      && Apply(s, l).tasks[t].phase == Finished(Outcome.Failed(Timeout(packet.opcode)))
  {
  }

  lemma Installs(s: Mux, t: TaskId)
    requires Inv(s) && TaskAt(s, t, Connect, In(Install), map[SinkLock := t])
    ensures Enabled(s, Run(t))
    ensures var e := Apply(s, Run(t));
      TaskAt(e, t, Connect, Finished(Returned), map[]) && e.sinkOpen && e.wire == s.wire
  {
  }

  lemma ConnectOpens(s: Mux, t: TaskId) returns (ls: seq<Label>, e: Mux)
    requires Inv(s) && s.locks == map[] && t !in s.tasks
    ensures Possible(s, ls, e) && |ls| == 3 && e.sinkOpen && e.locks == map[] && e.wire == s.wire
    ensures t in e.tasks && e.tasks[t].kind.Connect? && e.tasks[t].phase == Finished(Returned)
  {
    hide Apply, Enabled, Inv;
    ls, e := [], s;
    Starts(e, t, Connect);
    ls, e := Then(s, ls, e, Spawn(t, Connect));
    Enters(e, t, Connect, Install);
    ls, e := Then(s, ls, e, Acquire(t));
    Installs(e, t);
    ls, e := Then(s, ls, e, Run(t));
  }

  lemma Clears(s: Mux, t: TaskId)
    requires Inv(s) && TaskAt(s, t, Close, In(Clear), map[StateLock := t])
    ensures Enabled(s, Run(t))
    ensures var e := Apply(s, Run(t)); TaskAt(e, t, Close, Want(Take), map[]) && e.pending == map[] && e.wire == s.wire
  {
    assert Apply(s, Run(t)) == ClearWaiters(s, t);
  }

  lemma Takes(s: Mux, t: TaskId)
    requires Inv(s) && TaskAt(s, t, Close, In(Take), map[SinkLock := t])
    ensures Enabled(s, Run(t))
    ensures var e := Apply(s, Run(t));
      TaskAt(e, t, Close, Finished(Returned), map[]) && !e.sinkOpen && e.pending == s.pending && e.wire == s.wire
  {
  }

  lemma CloseShuts(s: Mux, t: TaskId) returns (ls: seq<Label>, e: Mux)
    requires Inv(s) && s.locks == map[] && t !in s.tasks
    ensures Possible(s, ls, e) && |ls| == 5 && !e.sinkOpen && e.pending == map[] && e.wire == s.wire
    ensures t in e.tasks && e.tasks[t].kind.Close? && e.tasks[t].phase == Finished(Returned)
  {
    hide Apply, Enabled, Inv;
    ls, e := [], s;
    Starts(e, t, Close);
    ls, e := Then(s, ls, e, Spawn(t, Close));
    Enters(e, t, Close, Clear);
    ls, e := Then(s, ls, e, Acquire(t));
    Clears(e, t);
    ls, e := Then(s, ls, e, Run(t));
    Enters(e, t, Close, Take);
    ls, e := Then(s, ls, e, Acquire(t));
    Takes(e, t);
    ls, e := Then(s, ls, e, Run(t));
  }

  /** And so do the others, from every reachable state with the locks free: an ack is written
      as it is if the sink is open, `connect` opens the sink, and `close` shuts it and leaves
      no waiter behind. */
  lemma OthersGetThrough(ss: seq<Mux>, ls: seq<Label>, i: nat, t: TaskId, kind: Kind)
    returns (more: seq<Label>, e: Mux)
    requires IsRun(ss, ls) && i <= |ls| && ss[i].locks == map[] && t !in ss[i].tasks
    requires !kind.Invoke? && !kind.Respond? && (kind.Ack? ==> kind.packet.cmd == CMD_RESPONSE && ss[i].sinkOpen)
    ensures Possible(ss[i], more, e) && |more| <= 5 && t in e.tasks && e.tasks[t].phase == Finished(Returned)
    ensures match kind
      case Ack(packet) => e.wire == ss[i].wire + [Frame(t, packet)]
      case Connect => e.sinkOpen && e.wire == ss[i].wire
      case Close => !e.sinkOpen && e.pending == map[] && e.wire == ss[i].wire
      case _ => false
  {
    hide Possible, Inv;
    RunKeepsInv(ss, ls, i);
    match kind
    case Ack(packet) => more, e := AckGetsOut(ss[i], t, packet);
    case Connect => more, e := ConnectOpens(ss[i], t);
    case Close => more, e := CloseShuts(ss[i], t);
  }
}
