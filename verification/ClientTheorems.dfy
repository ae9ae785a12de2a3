/** End-to-end guarantees of sending, over every interleaving of sends, failures,
    reconnects, cancellations and shutdown. */
module ClientTheorems {
  import opened Protocol
  import opened Client
  import opened ClientInvariant
  import opened ClientProofs
  import T = Transport
  import TI = TransportInvariant
  import R = Recovery
  import A = Attachments

  ghost predicate IsStep(c: State, l: Label, c': State) {
    WellFormed(c) && Enabled(c, l) && c' == Apply(c, l)
  }

  /** The counter of client ids starts anywhere: the clock sets it. */
  ghost predicate IsRun(cs: seq<State>, ls: seq<Label>) {
    |cs| == |ls| + 1 && cs[0] == InitialState(cs[0].lastCid) && forall i | 0 <= i < |ls| ::
        IsStep(cs[i], ls[i], cs[i + 1])
  }

  lemma {:induction false} RunKeepsInv(cs: seq<State>, ls: seq<Label>, i: nat)
    requires IsRun(cs, ls) && i <= |ls|
    ensures Inv(cs[i])
  {
    if i == 0 {
      InitialInv(cs[0].lastCid);
    } else {
      RunKeepsInv(cs, ls, i - 1);
      assert IsStep(cs[i - 1], ls[i - 1], cs[i - 1 + 1]);
      StepKeepsInv(cs[i - 1], ls[i - 1]);
    }
  }

  /** No run is cut short: whatever is enabled in a state it reached can be its next step. */
  lemma RunsGoOn(cs: seq<State>, ls: seq<Label>, l: Label)
    requires IsRun(cs, ls) && Enabled(cs[|ls|], l)
    ensures WellFormed(cs[|ls|]) && IsRun(cs + [Apply(cs[|ls|], l)], ls + [l])
  {
    RunKeepsInv(cs, ls, |ls|);
    InvIsWellFormed(cs[|ls|]);
    var cs', ls' := cs + [Apply(cs[|ls|], l)], ls + [l];
    forall i | 0 <= i < |ls'| ensures IsStep(cs'[i], ls'[i], cs'[i + 1]) {
      assert i < |ls| ==> IsStep(cs[i], ls[i], cs[i + 1]);
    }
  }

  // ---- Frames ----

  /** Frame i of generation gen is a MSG_SEND request. */
  predicate IsPost(c: State, gen: nat, i: nat) {
    gen < |c.nets| && i < |c.nets[gen].wire| &&
    c.nets[gen].wire[i].packet.cmd == CMD_REQUEST && c.nets[gen].wire[i].packet.opcode == MSG_SEND
  }

  /** The future that wrote it. */
  function WriterKind(c: State, gen: nat, i: nat): T.Kind
    requires IsPost(c, gen, i)
  {
    var from := c.nets[gen].wire[i].from;
    if from in c.nets[gen].tasks then c.nets[gen].tasks[from].kind else T.Close
  }

  /** The frame was written by a poll of send s. */
  predicate WrittenBy(c: State, gen: nat, i: nat, s: SendId)
    requires IsPost(c, gen, i)
  {
    WriterKind(c, gen, i).Invoke? && WriterKind(c, gen, i).origin == Some(s)
  }

  lemma PostHasSender(c: State, gen: nat, i: nat) returns (s: SendId)
    requires Inv(c) && IsPost(c, gen, i)
    ensures WrittenBy(c, gen, i, s) && s in c.sends && c.sends[s].cid.Some?
    ensures exists fileId :: c.nets[gen].wire[i].packet.payload ==
              Message(c.sends[s].body.chatId, c.sends[s].cid.value, fileId) &&
                             MayPost(c, gen, s, Post(fileId))
  {
    assert NetOk(c, gen) && TI.FrameOk(c.nets[gen], i);
    var from := c.nets[gen].wire[i].from;
    assert TI.ResultOk(c.nets[gen], from) && TaskOk(c, gen, from);
    s := c.nets[gen].tasks[from].kind.origin.value;
    assert RequestOf(c, gen, s, c.nets[gen].tasks[from].kind);
    var fileId :| c.nets[gen].tasks[from].kind == CallKind(s, c.sends[s], Post(fileId)) &&
        MayPost(c, gen, s, Post(fileId));
  }

  /** Two MSG_SEND frames, on any connections, carry the same client id exactly when
      they come from the same send; and the frames of a text send are all the same message. */
  lemma SendIdentity(cs: seq<State>, ls: seq<Label>, k: nat, g: nat, i: nat, h: nat, j: nat)
    requires IsRun(cs, ls) && k <= |ls| && IsPost(cs[k], g, i) && IsPost(cs[k], h, j)
    ensures cs[k].nets[g].wire[i].packet.payload.Message? && cs[k].nets[h].wire[j].packet.payload.Message?
    ensures cs[k].nets[g].wire[i].packet.payload.cid == cs[k].nets[h].wire[j].packet.payload.cid <==>
            exists s :: WrittenBy(cs[k], g, i, s) && WrittenBy(cs[k], h, j, s)
    ensures forall s | WrittenBy(cs[k], g, i, s) && WrittenBy(cs[k], h, j, s) ::
              s in cs[k].sends &&
              (cs[k].sends[s].body.Text? ==>
                 cs[k].nets[g].wire[i].packet.payload == cs[k].nets[h].wire[j].packet.payload)
  {
    var c := cs[k];
    RunKeepsInv(cs, ls, k);
    var s := PostHasSender(c, g, i);
    var u := PostHasSender(c, h, j);
    assert CidsDiffer(c, s, u);
  }

  // ---- Ok ----

  /** A send that returned Ok has one of its frames on the connection it names, and a
      response with that frame's number, not an error, was received there. */
  lemma OkMeansAcknowledged(cs: seq<State>, ls: seq<Label>, k: nat, s: SendId)
    requires IsRun(cs, ls) && k <= |ls| && s in cs[k].sends && cs[k].sends[s].pc.Delivered?
    ensures var c, gen := cs[k], cs[k].sends[s].pc.gen;
      gen in c.sends[s].used && gen < |c.nets| && c.sends[s].cid.Some? &&
      exists i: nat, r :: IsPost(c, gen, i) && WrittenBy(c, gen, i, s) &&
        c.nets[gen].wire[i].packet.payload.Message? && c.nets[gen].wire[i].packet.payload.cid == c.sends[s].cid.value &&
        r in c.nets[gen].tasks && c.nets[gen].tasks[r].kind.Respond? &&
        c.nets[gen].tasks[r].kind.packet.seqNo == c.nets[gen].wire[i].packet.seqNo &&
        c.nets[gen].tasks[r].kind.packet.cmd != CMD_ERROR
  {
    var c := cs[k];
    RunKeepsInv(cs, ls, k);
    assert SendOk(c, s);
    var gen, t := c.sends[s].pc.gen, c.sends[s].pc.t;
    var net := c.nets[gen];
    assert NetOk(c, gen) && TI.ResultOk(net, t) && TI.MailOk(net, t);
    var i :| 0 <= i < |net.wire| && net.wire[i].from == t;
    assert TI.FrameOk(net, i);
    assert IsPost(c, gen, i);
    var u := PostHasSender(c, gen, i);
    assert u == s;
    assert net.mailbox[t] in net.tasks && net.tasks[net.mailbox[t]].kind.Respond?;
  }

  // ---- Replay ----

  function Published(c: State): set<nat> {
    set gen: nat | gen < |c.rec.conns| && c.rec.conns[gen].published
  }

  lemma {:induction false} IncreasingFits(used: seq<nat>, gens: set<nat>)
    requires forall i, j {:trigger used[i], used[j]} | 0 <= i < j < |used| :: used[i] < used[j]
    requires forall i | 0 <= i < |used| :: used[i] in gens
    ensures |used| <= |gens|
  {
    if used != [] {
      var last := used[|used| - 1];
      IncreasingFits(used[..|used| - 1], gens - {last});
    }
  }

  /** A send uses connections of strictly increasing generation, each one published,
      so it replays at most once for each connection that was ever published; and all
      but the one it is using are cancelled. */
  lemma ReplayMovesForward(cs: seq<State>, ls: seq<Label>, k: nat, s: SendId)
    requires IsRun(cs, ls) && k <= |ls| && s in cs[k].sends
    ensures var used := cs[k].sends[s].used;
      && (forall i, j {:trigger used[i], used[j]} | 0 <= i < j < |used| :: used[i] < used[j])
      && (forall i {:trigger used[i]} | 0 <= i < |used| - 1 :: Dead(cs[k], used[i]))
      && |used| <= |Published(cs[k])|
  {
    RunKeepsInv(cs, ls, k);
    assert SendOk(cs[k], s);
    IncreasingFits(cs[k].sends[s].used, Published(cs[k]));
  }

  lemma SendOkAt(cs: seq<State>, ls: seq<Label>, k: nat, s: SendId)
    requires IsRun(cs, ls) && k <= |ls| && s in cs[k].sends
    ensures SendOk(cs[k], s)
  {
    RunKeepsInv(cs, ls, k);
  }

  /** Whenever a send goes back to wait for a connection, the one it gave up is already cancelled. */
  lemma FailoverLeavesDead(cs: seq<State>, ls: seq<Label>, k: nat, s: SendId)
    requires IsRun(cs, ls) && k < |ls| && s in cs[k].sends && GenOf(cs[k].sends[s].pc).Some?
    requires s in cs[k + 1].sends && cs[k + 1].sends[s].pc.Resolving? && cs[k + 1].sends[s].used == cs[k].sends[s].used
    ensures Dead(cs[k + 1], GenOf(cs[k].sends[s].pc).value)
  {
    hide T.Apply, R.Apply, R.Enabled, SendOk, WellFormed, Enabled, Apply, MayPost;
    SendOkAt(cs, ls, k, s);
    SendOkAt(cs, ls, k + 1, s);
  }

  /** A send gives up only on an error that its connection did not cause, or because the
      client has stopped for good: no connection failure ever surfaces. */
  lemma OnlyFinalFailures(cs: seq<State>, ls: seq<Label>, k: nat, s: SendId)
    requires IsRun(cs, ls) && k <= |ls| && s in cs[k].sends && cs[k].sends[s].pc.Failed?
    ensures IsTransportFailure(cs[k].sends[s].pc.error) ==>
              cs[k].sends[s].pc.error == ConnectionClosed && cs[k].rec.cell == R.Stopped
  {
    RunKeepsInv(cs, ls, k);
    assert SendOk(cs[k], s);
  }

  // ---- Attachments ----

  /** A MSG_SEND frame with a file was written only after the same call had registered
      that file on that connection and, later, its NOTIF_ATTACH was processed there. */
  lemma AttachmentCausality(cs: seq<State>, ls: seq<Label>, k: nat, gen: nat, i: nat)
    requires IsRun(cs, ls) && k <= |ls| && IsPost(cs[k], gen, i)
    requires cs[k].nets[gen].wire[i].packet.payload.Message? && cs[k].nets[gen].wire[i].packet.payload.fileId.Some?
    ensures var c := cs[k]; var fileId := c.nets[gen].wire[i].packet.payload.fileId.value;
      gen < |c.files| &&
      exists s, w: nat, j: nat ::
        WrittenBy(c, gen, i, s) && (gen, w) in c.registrations && c.registrations[(gen, w)] == s &&
        w < j < |c.files[gen]| && c.files[gen][w] == A.Registered(fileId) && c.files[gen][j] == A.Notified(fileId) &&
        forall m | w < m < j :: c.files[gen][m] != A.Dropped(w)
  {
    var c := cs[k];
    RunKeepsInv(cs, ls, k);
    var s := PostHasSender(c, gen, i);
    var fileId := c.nets[gen].wire[i].packet.payload.fileId.value;
    assert Attached(c, gen, s, fileId);
    var w: nat :| A.Completed(c.files[gen], w) && c.files[gen][w] == A.Registered(fileId) &&
                  (gen, w) in c.registrations && c.registrations[(gen, w)] == s;
    var j :| w < j < |c.files[gen]| && c.files[gen][j] == A.Notified(c.files[gen][w].fileId) &&
             forall m | w < m < j :: c.files[gen][m] != A.Dropped(w);
  }
}
