/** The replaying senders (`send_text`, `send_file_bytes`, `send_uploaded_file`,
    `next_cid` in src/client/mod.rs; `Connection::invoke` in src/client/connection.rs)
    on top of the supervisor and of one transport for each connection generation.
    A step is a step of one part, or a poll of one send. */
module Client {
  import opened Protocol
  import T = Transport
  import R = Recovery
  import A = Attachments

  type SendId = nat

  datatype Body = Text(chatId: int) | File(chatId: int)

  /** FILE_UPLOAD, or MSG_SEND with the attachment if there is one. */
  datatype Request = Upload | Post(fileId: Option<int>)

  datatype Pc =
    | Numbering                                    // next_cid
    | Resolving                                    // top of the replay loop
    | InCurrent(a: R.ActorId)                      // inside recovery.current()
    | Calling(gen: nat, req: Request)              // about to poll connection.invoke
    | Invoking(gen: nat, req: Request, t: T.TaskId)
    | Registering(gen: nat, fileId: int)
    | Uploading(gen: nat, w: nat)                  // the HTTP upload runs, the waiter is registered
    | Processing(gen: nat, w: nat)                 // waiting for NOTIF_ATTACH
    | Delivered(gen: nat, t: T.TaskId)             // returned Ok
    | Failed(error: Error)
    | Gone                                         // the future was dropped

  /** `used`: the generations this call has obtained from `current()`, in order. */
  datatype Send = Send(body: Body, cid: Option<int>, pc: Pc, used: seq<nat>)

  datatype State = State(
    rec: R.Sup,
    nets: seq<T.Mux>,
    files: seq<A.Log>,
    lastCid: int,
    sends: map<SendId, Send>,
    registrations: map<(nat, nat), SendId>)  // history: which call made a registration of a generation

  datatype Label =
    | Supervise(r: R.Label)
    | Network(gen: nat, l: T.Label)
    | NoticeAttach(gen: nat, fileId: int)
    | Begin(s: SendId, body: Body)
    | Number(s: SendId, now: int)
    | Subscribe(s: SendId, a: R.ActorId)
    | Obtain(s: SendId)
    | Call(s: SendId, t: T.TaskId)
    | SeeCancelled(s: SendId)
    | Answer(s: SendId)
    | Register(s: SendId)
    | UploadEnds(s: SendId, failure: Option<Error>)
    | SeeProcessed(s: SendId)
    | ProcessingTimeout(s: SendId)
    | Drop(s: SendId)

  const I64_MIN := -0x8000_0000_0000_0000

  function InitialState(cid: int): State {
    State(R.NEW, [], [], cid, map[], map[])
  }

  // ---- next_cid ----

  /** `now.min(cid - 1)` in i64, where the subtraction wraps. */
  function NextCid(cid: int, negatedClock: int): int {
    var less := if cid == I64_MIN then -I64_MIN - 1 else cid - 1;
    if negatedClock < less then negatedClock else less
  }

  /** For every clock, the counter goes down exactly while it has not reached the least i64. */
  lemma NextCidDecreases(cid: int, negatedClock: int)
    requires I64_MIN <= cid <= -I64_MIN - 1 && I64_MIN < negatedClock <= 0
    ensures I64_MIN <= NextCid(cid, negatedClock) <= 0
    ensures NextCid(cid, negatedClock) < cid <==> cid != I64_MIN
  {
  }

  // ---- What a send asks of its connection ----

  function FirstRequest(body: Body): Request {
    if body.Text? then Post(None) else Upload
  }

  function OpcodeOf(req: Request): int {
    if req.Upload? then FILE_UPLOAD else MSG_SEND
  }

  function PayloadOf(send: Send, req: Request): Payload
    requires send.cid.Some?
  {
    if req.Upload? then Other else Message(send.body.chatId, send.cid.value, req.fileId)
  }

  function CallKind(s: SendId, send: Send, req: Request): T.Kind
    requires send.cid.Some?
  {
    T.Invoke(OpcodeOf(req), PayloadOf(send, req), Some(s))
  }

  /** The generation a send is using. */
  function GenOf(pc: Pc): Option<nat> {
    match pc
    case Calling(gen, _) => Some(gen)
    case Invoking(gen, _, _) => Some(gen)
    case Registering(gen, _) => Some(gen)
    case Uploading(gen, _) => Some(gen)
    case Processing(gen, _) => Some(gen)
    case Delivered(gen, _) => Some(gen)
    case _ => None
  }

  /** The connection's shared state exists. */
  predicate Has(c: State, gen: nat) {
    gen < |c.nets| && gen < |c.files| && gen < |c.rec.conns|
  }

  function Move(c: State, s: SendId, pc: Pc): State
    requires s in c.sends
  {
    c.(sends := c.sends[s := c.sends[s].(pc := pc)])
  }

  /** Leaves the scope of the attachment waiter, if it is in it. */
  function LeaveWaiter(c: State, pc: Pc): seq<A.Log>
    requires GenOf(pc).Some? ==> Has(c, GenOf(pc).value)
  {
    match pc
    case Uploading(gen, w) => c.files[gen := c.files[gen] + [A.Dropped(w)]]
    case Processing(gen, w) => c.files[gen := c.files[gen] + [A.Dropped(w)]]
    case _ => c.files
  }

  /** Drops the future of the running invoke, if there is one. */
  function LeaveInvoke(c: State, pc: Pc): seq<T.Mux>
    requires GenOf(pc).Some? ==> Has(c, GenOf(pc).value) && T.WellFormed(c.nets[GenOf(pc).value])
  {
    if pc.Invoking? && T.Enabled(c.nets[pc.gen], T.Cancel(pc.t)) then
      c.nets[pc.gen := T.Apply(c.nets[pc.gen], T.Cancel(pc.t))]
    else c.nets
  }

  ghost predicate WellFormed(c: State) {
    && |c.nets| == |c.rec.conns| && |c.files| == |c.rec.conns|
    && (forall gen: nat {:trigger T.WellFormed(c.nets[gen])} | gen < |c.nets| :: T.WellFormed(c.nets[gen]))
  }

  predicate SendAt(c: State, s: SendId) {
    s in c.sends && (GenOf(c.sends[s].pc).Some? ==> Has(c, GenOf(c.sends[s].pc).value))
  }

  predicate Over(pc: Pc) {
    pc.Delivered? || pc.Failed? || pc.Gone?
  }

  // ---- The supervisor and the sinks ----

  /** The program point of the runner that owns the run lock. */
  function Supervisor(rec: R.Sup): Option<R.RunnerPc> {
    if rec.runLock.Some? && rec.runLock.value in rec.actors && rec.actors[rec.runLock.value].Runner? then
      Some(rec.actors[rec.runLock.value].run)
    else None
  }

  predicate Connecting(rec: R.Sup, gen: nat) {
    Supervisor(rec) == Some(R.Attempting(gen, R.Connecting))
  }

  predicate Closing(rec: R.Sup, gen: nat) {
    Supervisor(rec).Some? && Supervisor(rec).value.TakingSink? && Supervisor(rec).value.gen == gen
  }

  /** A future of this kind has returned. */
  ghost predicate Returned(net: T.Mux, kind: T.Kind) {
    exists t :: t in net.tasks && net.tasks[t].kind == kind && net.tasks[t].phase == T.Finished(T.Returned)
  }

  /** No `connect` is under way. */
  ghost predicate ConnectOver(net: T.Mux) {
    forall t | t in net.tasks && net.tasks[t].kind.Connect? :: !T.Unfinished(net.tasks[t])
  }

  /** `run_attempt` calls `connect` once, and `Attempt::close` calls `close` when the workers are gone. */
  ghost predicate SinkCall(c: State, gen: nat, l: T.Label)
    requires gen < |c.nets|
  {
    && (l.Spawn? && l.kind.Connect? ==>
          Connecting(c.rec, gen) && forall t | t in c.nets[gen].tasks :: !c.nets[gen].tasks[t].kind.Connect?)
    && (l.Spawn? && l.kind.Close? ==> Closing(c.rec, gen))
  }

  /** The supervisor goes on when its `connect` has returned, when its attempt's future
      and a `connect` in it are gone, and when its `close` has returned. */
  ghost predicate SinkWaits(c: State, r: R.Label)
    requires R.Enabled(c.rec, r)
  {
    match r
    case Opened(a) =>
      var gen := c.rec.actors[a].run.gen;
      gen < |c.nets| && Returned(c.nets[gen], T.Connect) && ConnectOver(c.nets[gen])
    case AttemptEnds(a, _) =>
      var gen := c.rec.actors[a].run.gen;
      gen < |c.nets| && ConnectOver(c.nets[gen])
    case Advance(a) =>
      var actor := c.rec.actors[a];
      actor.Runner? && actor.run.TakingSink? ==> actor.run.gen < |c.nets| && Returned(c.nets[actor.run.gen], T.Close)
    case _ => true
  }

  /** Calls inside a send are its own: the rest of the client neither makes nor drops them. */
  predicate Foreign(c: State, gen: nat, l: T.Label)
    requires gen < |c.nets|
  {
    && (l.Spawn? && l.kind.Invoke? ==> l.kind.opcode != MSG_SEND && l.kind.origin.None?)
    && (l.Cancel? && l.t in c.nets[gen].tasks && c.nets[gen].tasks[l.t].kind.Invoke? ==>
          c.nets[gen].tasks[l.t].kind.origin.None?)
  }

  ghost predicate Enabled(c: State, l: Label) {
    match l
    case Supervise(r) => R.Enabled(c.rec, r) && SinkWaits(c, r)
    case Network(gen, n) => Has(c, gen) && T.Enabled(c.nets[gen], n) && Foreign(c, gen, n) && SinkCall(c, gen, n)
    case NoticeAttach(gen, _) => Has(c, gen)
    case Begin(s, _) => s !in c.sends
    case Number(s, now) => s in c.sends && c.sends[s].pc.Numbering? && now >= 0 && c.lastCid > I64_MIN
    case Subscribe(s, a) => s in c.sends && c.sends[s].pc.Resolving? && a !in c.rec.actors
    case Obtain(s) =>
      s in c.sends && c.sends[s].pc.InCurrent? && c.sends[s].pc.a in c.rec.actors &&
      var actor := c.rec.actors[c.sends[s].pc.a];
      actor.Waiter? && (actor.wait.Resolved? || actor.wait.Refused?)
    case Call(s, t) =>
      SendAt(c, s) && c.sends[s].pc.Calling? && c.sends[s].cid.Some? && t !in c.nets[c.sends[s].pc.gen].tasks
    case SeeCancelled(s) =>
      SendAt(c, s) && GenOf(c.sends[s].pc).Some? && c.rec.conns[GenOf(c.sends[s].pc).value].cancelled &&
      (c.sends[s].pc.Invoking? || c.sends[s].pc.Uploading? || c.sends[s].pc.Processing?)
    case Answer(s) =>
      SendAt(c, s) && c.sends[s].pc.Invoking? &&
      var tasks := c.nets[c.sends[s].pc.gen].tasks;
      c.sends[s].pc.t in tasks && tasks[c.sends[s].pc.t].phase.Finished? &&
        !tasks[c.sends[s].pc.t].phase.outcome.Returned?
    case Register(s) => SendAt(c, s) && c.sends[s].pc.Registering?
    case UploadEnds(s, failure) => SendAt(c, s) && c.sends[s].pc.Uploading? && (failure.Some? ==> failure.value.Http?)
    case SeeProcessed(s) =>
      SendAt(c, s) && c.sends[s].pc.Processing? && A.Completed(c.files[c.sends[s].pc.gen], c.sends[s].pc.w)
    case ProcessingTimeout(s) =>
      SendAt(c, s) && c.sends[s].pc.Processing? && A.IsRegistration(c.files[c.sends[s].pc.gen], c.sends[s].pc.w)
    case Drop(s) => SendAt(c, s) && !Over(c.sends[s].pc)
  }

  /** `begin_attempt` makes a new transport and a new registry. */
  function Supervised(c: State, rec: R.Sup): State {
    if |rec.conns| > |c.rec.conns| then c.(rec := rec, nets := c.nets + [T.INIT], files := c.files + [[]])
    else c.(rec := rec)
  }

  /** Where `send_uploaded_file` goes with the response to FILE_UPLOAD. */
  function AfterUploadSlot(gen: nat, payload: Payload): Pc {
    if payload.UploadSlot? && payload.fileId.Some?
      then Registering(gen, payload.fileId.value) else Failed(UnexpectedResponse)
  }

  function AnswerStep(c: State, s: SendId, outcome: T.Outcome): State
    requires SendAt(c, s) && c.sends[s].pc.Invoking? && !outcome.Returned?
  {
    var Invoking(gen, req, t) := c.sends[s].pc;
    match outcome
    case Replied(packet) => Move(c, s, if req.Upload? then AfterUploadSlot(gen, packet.payload) else Delivered(gen, t))
    case Failed(error) =>
      if IsTransportFailure(error) then
        Move(c, s, Resolving).(rec := R.Apply(c.rec, R.CancelConn(gen)))
      else Move(c, s, Failed(error))
  }

  ghost function Apply(c: State, l: Label): State
    requires WellFormed(c) && Enabled(c, l)
  {
    match l
    case Supervise(r) => Supervised(c, R.Apply(c.rec, r))
    case Network(gen, n) => c.(nets := c.nets[gen := T.Apply(c.nets[gen], n)])
    case NoticeAttach(gen, fileId) => c.(files := c.files[gen := c.files[gen] + [A.Notified(fileId)]])
    case Begin(s, body) => c.(sends := c.sends[s := Send(body, None, Numbering, [])])
    case Number(s, now) =>
      var cid := NextCid(c.lastCid, -now);
      c.(lastCid := cid, sends := c.sends[s := c.sends[s].(cid := Some(cid), pc := Resolving)])
    case Subscribe(s, a) => Move(c, s, InCurrent(a)).(rec := R.Apply(c.rec, R.Start(a, R.Waiter(R.Subscribing))))
    case Obtain(s) =>
      var wait := c.rec.actors[c.sends[s].pc.a].wait;
      if wait.Refused? then Move(c, s, Failed(ConnectionClosed))
      else
        c.(sends := c.sends[s := c.sends[s].(pc := Calling(wait.gen, FirstRequest(c.sends[s].body)),
                                             used := c.sends[s].used + [wait.gen])])
    case Call(s, t) =>
      var gen := c.sends[s].pc.gen;
      var req := c.sends[s].pc.req;
      if c.rec.conns[gen].cancelled then Move(c, s, Resolving)
      else
        Move(c, s, Invoking(gen, req, t)).(
          nets := c.nets[gen := T.Apply(c.nets[gen], T.Spawn(t, CallKind(s, c.sends[s], req)))])
    case SeeCancelled(s) =>
      Move(c, s, Resolving).(nets := LeaveInvoke(c, c.sends[s].pc), files := LeaveWaiter(c, c.sends[s].pc))
    case Answer(s) => AnswerStep(c, s, c.nets[c.sends[s].pc.gen].tasks[c.sends[s].pc.t].phase.outcome)
    case Register(s) =>
      var Registering(gen, fileId) := c.sends[s].pc;
      if fileId in A.Table(c.files[gen]) then Move(c, s, Failed(UnexpectedResponse))
      else
        var w := |c.files[gen]|;
        Move(c, s, Uploading(gen, w)).(
          files := c.files[gen := c.files[gen] + [A.Registered(fileId)]],
          registrations := c.registrations[(gen, w) := s])
    case UploadEnds(s, failure) =>
      if failure.Some? then Move(c, s, Failed(failure.value)).(files := LeaveWaiter(c, c.sends[s].pc))
      else Move(c, s, Processing(c.sends[s].pc.gen, c.sends[s].pc.w))
    case SeeProcessed(s) =>
      var Processing(gen, w) := c.sends[s].pc;
      Move(c, s, Calling(gen, Post(Some(c.files[gen][w].fileId)))).(files := LeaveWaiter(c, c.sends[s].pc))
    case ProcessingTimeout(s) =>
      var Processing(gen, w) := c.sends[s].pc;
      Move(c, s, Failed(FileProcessingTimeout(c.files[gen][w].fileId))).(files := LeaveWaiter(c, c.sends[s].pc))
    case Drop(s) =>
      Move(c, s, Gone).(nets := LeaveInvoke(c, c.sends[s].pc), files := LeaveWaiter(c, c.sends[s].pc))
  }
}
