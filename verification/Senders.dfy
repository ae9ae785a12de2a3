/** The replay loops of the senders (src/client/mod.rs) as the methods they are, run
    against everything the rest of the client may answer. */
module Senders {
  import opened Protocol
  import C = Client

  /** What `connection.invoke` returned. */
  datatype Reply = Good(payload: Payload) | Bad(error: Error)

  /** How a wait that is raced against the connection's cancellation ended; GaveUp is an
      HTTP failure of the upload, transient or not, or a timeout of the notice. */
  datatype Wait = Done | ConnectionLost | GaveUp(transient: bool)

  /** What one turn of a replay loop meets: `current()` (None when the client has
      stopped), the answer to FILE_UPLOAD, whether the file id was free, the upload, the
      wait for NOTIF_ATTACH, and the answer to MSG_SEND. */
  datatype Turn = Turn(connection: Option<nat>, slot: Reply, free: bool, upload: Wait, notice: Wait, post: Reply)

  /** What a send does, on the connection of that generation, in the order it does it. */
  datatype Act =
    | Invoke(gen: nat, opcode: int, payload: Payload)
    | Register(gen: nat, fileId: int)
    | Upload(gen: nat)
    | Await(gen: nat, fileId: int)
    | Release(gen: nat, fileId: int)    // the attachment waiter is dropped

  /** Blocked: still in the loop when the turns given run out, or dropped there. */
  datatype Outcome = Sent | Failed(error: Error) | Blocked

  /** The file id of an upload slot. */
  function SlotOf(slot: Reply): Option<int> {
    if slot.Good? && slot.payload.UploadSlot? then slot.payload.fileId else None
  }

  /** The turn gets as far as sending the message. */
  predicate ReachesPost(t: Turn, file: bool) {
    file ==> SlotOf(t.slot).Some? && t.free && t.upload.Done? && t.notice.Done?
  }

  predicate Sends(t: Turn, file: bool) {
    ReachesPost(t, file) && t.post.Good?
  }

  /** The error a turn ends with, if it does. */
  function ErrorOf(t: Turn, file: bool): Option<Error> {
    if file && t.slot.Bad? then Some(t.slot.error)
    else if file && (SlotOf(t.slot).None? || !t.free) then Some(UnexpectedResponse)
    else if file && t.upload.GaveUp? then Some(Http(t.upload.transient))
    else if file && t.upload.ConnectionLost? then Some(ConnectionClosed)
    else if file && t.notice.GaveUp? then Some(FileProcessingTimeout(SlotOf(t.slot).value))
    else if file && t.notice.ConnectionLost? then Some(ConnectionClosed)
    else if t.post.Bad? then Some(t.post.error)
    else None
  }

  /** The turn ends because its connection failed, so the loop goes round again: a call
      failed with it, or a wait was cut short by its cancellation. */
  predicate Replays(t: Turn, file: bool) {
    if !file then t.post.Bad? && ConnectionFault(t.post.error)
    else
      match t.slot
      case Bad(error) => ConnectionFault(error)
      case Good(UploadSlot(Some(_))) =>
        t.free &&
        (match (t.upload, t.notice, t.post)
         case (ConnectionLost, _, _) => true
         case (GaveUp(_), _, _) => false
         case (Done, ConnectionLost, _) => true
         case (Done, GaveUp(_), _) => false
         case (Done, Done, Bad(error)) => ConnectionFault(error)
         case (Done, Done, Good(_)) => false)
      case Good(_) => false
  }

  /** The loops go round exactly on the turns whose error is a failure of the connection. */
  lemma ReplaysAreFaults(t: Turn, file: bool)
    ensures Replays(t, file) <==> ErrorOf(t, file).Some? && IsTransportFailure(ErrorOf(t, file).value)
    ensures Replays(t, file) ==> ConnectionFault(ErrorOf(t, file).value)
    ensures ErrorOf(t, file).None? ==> Sends(t, file)
  {
  }

  function Post(gen: nat, chatId: int, cid: int, fileId: Option<int>): Act {
    Invoke(gen, MSG_SEND, Message(chatId, cid, fileId))
  }

  /** The order of one turn: slot, registration, upload, notice, release, message. */
  function TurnActs(t: Turn, chatId: int, cid: int, file: bool): seq<Act>
    requires t.connection.Some?
  {
    var gen := t.connection.value;
    var slot := Invoke(gen, FILE_UPLOAD, Other);
    if !file then [Post(gen, chatId, cid, None)]
    else if SlotOf(t.slot).None? then [slot]
    else
      var f := SlotOf(t.slot).value;
      if !t.free then [slot, Register(gen, f)]
      else if !t.upload.Done? then [slot, Register(gen, f), Upload(gen), Release(gen, f)]
      else if !t.notice.Done? then [slot, Register(gen, f), Upload(gen), Await(gen, f), Release(gen, f)]
      else [slot, Register(gen, f), Upload(gen), Await(gen, f), Release(gen, f), Post(gen, chatId, cid, Some(f))]
  }

  predicate Connected(turns: seq<Turn>) {
    forall i | 0 <= i < |turns| :: turns[i].connection.Some?
  }

  predicate AllReplay(turns: seq<Turn>, file: bool) {
    forall i | 0 <= i < |turns| :: Replays(turns[i], file)
  }

  function Acts(turns: seq<Turn>, chatId: int, cid: int, file: bool): seq<Act>
    requires Connected(turns)
  {
    if turns == [] then []
    else Acts(turns[..|turns| - 1], chatId, cid, file) + TurnActs(turns[|turns| - 1], chatId, cid, file)
  }

  lemma ActsGrow(turns: seq<Turn>, t: Turn, chatId: int, cid: int, file: bool)
    requires Connected(turns) && t.connection.Some?
    ensures Connected(turns + [t])
    ensures Acts(turns + [t], chatId, cid, file) == Acts(turns, chatId, cid, file) + TurnActs(t, chatId, cid, file)
  {
    assert (turns + [t])[..|turns|] == turns;
  }

  lemma OneMore(turns: seq<Turn>, n: nat, chatId: int, cid: int, file: bool)
    requires n < |turns| && Connected(turns[..n]) && turns[n].connection.Some?
    ensures Connected(turns[..n + 1])
    ensures Acts(turns[..n + 1], chatId, cid, file) ==
              Acts(turns[..n], chatId, cid, file) + TurnActs(turns[n], chatId, cid, file)
    ensures AllReplay(turns[..n], file) && Replays(turns[n], file) ==> AllReplay(turns[..n + 1], file)
  {
    ActsGrow(turns[..n], turns[n], chatId, cid, file);
    assert turns[..n + 1] == turns[..n] + [turns[n]];
  }

  /** How a loop that met these turns has ended, when it used n of them. */
  predicate Ends(outcome: Outcome, turns: seq<Turn>, n: nat, file: bool)
    requires n <= |turns|
  {
    match outcome
    case Sent => n > 0 && Sends(turns[n - 1], file)
    case Failed(error) =>
      (n < |turns| && turns[n].connection.None? && error == ConnectionClosed && AllReplay(turns[..n], file)) ||
      (n > 0 && ErrorOf(turns[n - 1], file) == Some(error) && !ConnectionFault(error))
    case Blocked => n == |turns| && AllReplay(turns, file)
  }

  class Outbox {
    var lastCid: int
    var acts: seq<Act>

    constructor (cid: int)
      ensures lastCid == cid && acts == []
    {
      lastCid, acts := cid, [];
    }

    method NextCid(now: int) returns (cid: int)
      requires C.I64_MIN <= lastCid <= -C.I64_MIN - 1 && 0 <= now < -C.I64_MIN
      modifies this`lastCid
      ensures cid == lastCid == C.NextCid(old(lastCid), -now)
      ensures C.I64_MIN <= cid <= 0 && (old(lastCid) != C.I64_MIN ==> cid < old(lastCid))
    {
      C.NextCidDecreases(lastCid, -now);
      var less := if lastCid == C.I64_MIN then -C.I64_MIN - 1 else lastCid - 1;
      lastCid := if -now < less then -now else less;
      cid := lastCid;
    }

    method Do(act: Act)
      modifies this`acts
      ensures acts == old(acts) + [act]
    {
      acts := acts + [act];
    }

    /** `n` turns were used. All but the last were transport failures; every one sent the
        same message under the same client id. */
    method SendText(chatId: int, now: int, turns: seq<Turn>) returns (outcome: Outcome, n: nat)
      requires C.I64_MIN <= lastCid <= -C.I64_MIN - 1 && 0 <= now < -C.I64_MIN
      modifies this
      ensures n <= |turns| && Connected(turns[..n])
      ensures acts == old(acts) + Acts(turns[..n], chatId, lastCid, false)
      ensures Ends(outcome, turns, n, false) && (n > 0 ==> AllReplay(turns[..n - 1], false))
    {
      var cid := NextCid(now);
      n := 0;
      while n < |turns|
        invariant n <= |turns| && Connected(turns[..n]) && AllReplay(turns[..n], false)
        invariant n > 0 ==> AllReplay(turns[..n - 1], false)
        invariant lastCid == cid && acts == old(acts) + Acts(turns[..n], chatId, cid, false)
      {
        if turns[n].connection.None? {
          return Failed(ConnectionClosed), n;
        }
        Do(Post(turns[n].connection.value, chatId, cid, None));
        OneMore(turns, n, chatId, cid, false);
        n := n + 1;
        match turns[n - 1].post
        case Good(_) => return Sent, n;
        case Bad(error) =>
          if !IsTransportFailure(error) {
            return Failed(error), n;
          }
      }
      assert turns[..n] == turns;
      outcome := Blocked;
    }

    /** None when the message was acknowledged. The waiter is dropped on every way out,
        and before the message is sent. */
    method SendUploadedFile(t: Turn, chatId: int, cid: int) returns (error: Option<Error>)
      requires t.connection.Some?
      modifies this`acts
      ensures acts == old(acts) + TurnActs(t, chatId, cid, true)
      ensures error == ErrorOf(t, true) && (error.None? <==> Sends(t, true))
    {
      var gen := t.connection.value;
      Do(Invoke(gen, FILE_UPLOAD, Other));
      if t.slot.Bad? {
        return Some(t.slot.error);
      }
      var fileId := SlotOf(t.slot);
      if fileId.None? {
        return Some(UnexpectedResponse);
      }
      Do(Register(gen, fileId.value));
      if !t.free {
        return Some(UnexpectedResponse);
      }
      Do(Upload(gen));
      if !t.upload.Done? {
        Do(Release(gen, fileId.value));
        return Some(if t.upload.ConnectionLost? then ConnectionClosed else Http(t.upload.transient));
      }
      Do(Await(gen, fileId.value));
      Do(Release(gen, fileId.value));
      if !t.notice.Done? {
        return Some(if t.notice.ConnectionLost? then ConnectionClosed else FileProcessingTimeout(fileId.value));
      }
      Do(Post(gen, chatId, cid, fileId));
      return if t.post.Good? then None else Some(t.post.error);
    }

    /** One turn of the loop of `send_file_bytes`. */
    method RunTurn(ghost base: seq<Act>, turns: seq<Turn>, n: nat, chatId: int, cid: int) returns (error: Option<Error>)
      requires n < |turns| && Connected(turns[..n]) && turns[n].connection.Some?
      requires acts == base + Acts(turns[..n], chatId, cid, true)
      modifies this`acts
      ensures Connected(turns[..n + 1]) && acts == base + Acts(turns[..n + 1], chatId, cid, true)
      ensures error == ErrorOf(turns[n], true) && (error.None? <==> Sends(turns[n], true))
      ensures AllReplay(turns[..n], true) && Replays(turns[n], true) ==> AllReplay(turns[..n + 1], true)
    {
      OneMore(turns, n, chatId, cid, true);
      error := SendUploadedFile(turns[n], chatId, cid);
    }

    method SendFileBytes(chatId: int, now: int, turns: seq<Turn>) returns (outcome: Outcome, n: nat)
      requires C.I64_MIN <= lastCid <= -C.I64_MIN - 1 && 0 <= now < -C.I64_MIN
      modifies this
      ensures n <= |turns| && Connected(turns[..n])
      ensures acts == old(acts) + Acts(turns[..n], chatId, lastCid, true)
      ensures Ends(outcome, turns, n, true) && (n > 0 ==> AllReplay(turns[..n - 1], true))
    {
      var cid := NextCid(now);
      n := 0;
      while n < |turns|
        invariant n <= |turns| && Connected(turns[..n]) && AllReplay(turns[..n], true)
        invariant n > 0 ==> AllReplay(turns[..n - 1], true)
        invariant lastCid == cid && acts == old(acts) + Acts(turns[..n], chatId, cid, true)
      {
        if turns[n].connection.None? {
          return Failed(ConnectionClosed), n;
        }
        var error := RunTurn(old(acts), turns, n, chatId, cid);
        n := n + 1;
        if error.None? {
          return Sent, n;
        }
        if !IsTransportFailure(error.value) {
          return Failed(error.value), n;
        }
      }
      assert turns[..n] == turns;
      outcome := Blocked;
    }
  }

  lemma {:induction false} OneActPerText(turns: seq<Turn>, chatId: int, cid: int)
    requires Connected(turns)
    ensures |Acts(turns, chatId, cid, false)| == |turns|
  {
    if turns != [] {
      OneActPerText(turns[..|turns| - 1], chatId, cid);
    }
  }

  /** A text send repeats one and the same message. */
  lemma {:induction false} TextPostsAreOne(turns: seq<Turn>, chatId: int, cid: int, k: nat)
    requires Connected(turns) && k < |turns|
    ensures |Acts(turns, chatId, cid, false)| == |turns|
    ensures Acts(turns, chatId, cid, false)[k] == Post(turns[k].connection.value, chatId, cid, None)
  {
    var n := |turns| - 1;
    OneActPerText(turns, chatId, cid);
    OneActPerText(turns[..n], chatId, cid);
    if k < n {
      TextPostsAreOne(turns[..n], chatId, cid, k);
    }
  }

  /** The act is a MSG_SEND. */
  predicate IsPost(act: Act) {
    act.Invoke? && act.opcode == MSG_SEND
  }

  /** Within a turn, the message comes last, after the four acts of its file. */
  lemma PostEndsTurn(t: Turn, chatId: int, cid: int, k: nat)
    requires t.connection.Some? && k < |TurnActs(t, chatId, cid, true)| && IsPost(TurnActs(t, chatId, cid, true)[k])
    ensures SlotOf(t.slot).Some? && k == 5
    ensures var (gen, f) := (t.connection.value, SlotOf(t.slot).value);
            var acts := TurnActs(t, chatId, cid, true);
      acts[5] == Post(gen, chatId, cid, Some(f)) &&
      acts[1..5] == [Register(gen, f), Upload(gen), Await(gen, f), Release(gen, f)]
  {
  }

  /** A file message carries the one client id and a file that was registered on the same
      connection, uploaded, awaited and released right before, in this order. */
  lemma {:induction false} FilePostsAreOwn(turns: seq<Turn>, chatId: int, cid: int, k: nat)
    returns (gen: nat, fileId: int)
    requires Connected(turns) && k < |Acts(turns, chatId, cid, true)| && IsPost(Acts(turns, chatId, cid, true)[k])
    ensures k >= 4 && Acts(turns, chatId, cid, true)[k] == Post(gen, chatId, cid, Some(fileId))
    ensures Acts(turns, chatId, cid, true)[k - 4..k] ==
              [Register(gen, fileId), Upload(gen), Await(gen, fileId), Release(gen, fileId)]
  {
    var n := |turns| - 1;
    var before := Acts(turns[..n], chatId, cid, true);
    var all := Acts(turns, chatId, cid, true);
    if k < |before| {
      gen, fileId := FilePostsAreOwn(turns[..n], chatId, cid, k);
      assert all[k - 4..k] == before[k - 4..k];
    } else {
      var mine := TurnActs(turns[n], chatId, cid, true);
      assert mine[k - |before|] == all[k];
      PostEndsTurn(turns[n], chatId, cid, k - |before|);
      hide TurnActs, SlotOf;
      gen, fileId := turns[n].connection.value, SlotOf(turns[n].slot).value;
      assert all[k - 4..k] == mine[1..5];
    }
  }
}
