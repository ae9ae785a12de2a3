# maxrs: a verified model of the concurrent core

`maxrs` is a client for a private WebSocket protocol. Below its I/O sits a concurrent
core: a request/response multiplexer over one socket, a supervisor that reconnects, and
senders that replay a message until it is acknowledged. This project models that core in
Dafny and proves what it guarantees in every run, under every schedule.

The concurrent parts are small-step machines. A state is a value; a label names who moves
and what the environment chose; `Enabled` and `Apply` give the step. One lock acquisition,
one lock-protected section, one outcome of a write, timeout or one-shot receive, one access
to the watch cell, one token cancellation, and the drop of any future at any await point
are one step each, and nothing is assumed about the scheduler, the clocks or the server.
A theorem about `IsRun(states, labels)` is about every reachable state. The state that the
source updates in place is a class as well, whose methods are the lock-protected sections;
`TransportRefinement.Execute` and `RecoveryStates.Execute` drive it through an arbitrary
run and show that it never disagrees with the machine.

| files | what they model |
|---|---|
| `Protocol.dfy` | frames, opcodes, errors, the two error classifiers as coded, and the same case by case |
| `Transport.dfy`, `TransportInvariant.dfy`, `TransportProofs.dfy`, `TransportTheorems.dfy`, `TransportErrors.dfy`, `TransportOutcomes.dfy`, `TransportProgress.dfy`, `TransportWrap.dfy` | the multiplexer: wrapping `u32` counter, waiter table, three mutexes, timeouts, cancellation, pruning, `close`; which step decides how a call ends, and that undisturbed calls get through |
| `TransportState.dfy`, `TransportRefinement.dfy` | the waiter table and one-shots in place |
| `Recovery.dfy`, `RecoveryInvariant.dfy`, `RecoveryTheorems.dfy`, `RecoveryProgress.dfy`, `RecoveryDisconnect.dfy` | versioned watch cell, token tree, supervisor, guards, `disconnect`, waiting senders; when the supervisor reconnects, when it stops, and in how many steps |
| `RecoveryState.dfy` | the cell and the tokens in place |
| `Backoff.dfy` | the backoff and the timing of the run loop |
| `Attachments.dfy` | the attachment registry |
| `Client.dfy`, `ClientInvariant.dfy`, `ClientProofs.dfy`, `ClientTheorems.dfy`, `ClientSinks.dfy`, `ClientErrors.dfy`, `ClientProgress.dfy` | the supervisor, one transport and one registry for each connection generation, and any number of sends on top, as one machine; which errors end a send, what it leaves behind, and that it can always go on |
| `Senders.dfy`, `SendTraces.dfy` | the replay loops as imperative code, and that the sends of the machine are those loops |
| `Dispatch.dfy`, `DispatchTheorems.dfy`, `DispatchLoops.dfy` | read loop, queue, dispatcher and handlers: the machine, its theorems, and the two loops as methods that record its steps |
| `Login.dfy` | the login exchange, the error a login ends with, and the session token across attempts |
| `PercentEncoding.dfy` | the file-name encoder and its inverse |

Where the code and a natural reading of it part:

- The message filter reads the user id after the ack has been sent, not when the message
  arrives. A message from the user's own account that is being acked at the moment the
  login stores the user id is dropped although it would have passed on arrival
  (`DispatchTheorems.OwnMessageCaughtByLogin`); the two readings agree exactly when the
  login does not store the id during such an ack (`DispatchTheorems.FilterAtArrivalExactly`).
- A clean-up by sequence number takes another call's waiter away exactly when that call is
  filed under the same number, which takes a whole turn of the counter
  (`TransportTheorems.CleanupRemovesOwnEntry`). `TransportWrap.OneTurnIsTight` reaches the
  state, exactly 2^32 allocations later, in which it happens.
- `next_cid` goes down at every call exactly while it has not reached the least `i64`
  (`Client.NextCidDecreases`); the send theorems are about clients that have not.
- The reconnect rate stated for the backoff, 18 N - 59 seconds for N sleeps, holds, and so
  does the sharper 18.2 N - 60, which is attained (`Backoff.RateIsTight`).

## Model

| member | source | states |
|---|---|---|
| TransportProofs.StepKeepsInv | src/client/transport.rs:75-181 | every step of every future keeps the invariant that ties the three mutexes, the counter, the waiter table, the one-shots, the results and the wire together |
| TransportTheorems.WaiterConservation | src/client/transport.rs:113-181 | until it returns, a registered call has its sender in the table, or its response in the one-shot, or its sender dropped, and exactly one of these; a caller that still listens lost its sender only to `close`, or to a clean-up a whole turn of the counter away |
| TransportTheorems.NoOrphan | src/client/transport.rs:137-173 | an awaiting caller has its sender in the table or can be woken at once |
| TransportTheorems.OkMeansOwnReply | src/client/transport.rs:137-173 | Ok carries a received, non-error response with the call's own number, after the call's own request went out |
| TransportTheorems.ResponseReachesOne | src/client/transport.rs:166-173 | a received response reaches at most one caller |
| TransportErrors.ErrorsHaveCauses | src/client/transport.rs:75-164 | every error has its cause: an error response with the call's number, a dropped sender or a frame that never went out, a timeout with the call's own opcode, a duplicate of its own number, or a failed write; which step brought it is `TransportOutcomes.FailureHasStep` |
| TransportOutcomes.ReplyDecides | src/client/transport.rs:144-152 | the step that takes the response out of the one-shot ends the call as `Server` with its own opcode exactly if that packet is an error, and otherwise as Ok with exactly that packet |
| TransportOutcomes.FailureHasStep | src/client/transport.rs:75-164 | a call fails with an error if and only if one step of the run made it so, and no cancellation came since: a timeout, a dropped sender, a write that failed with that error, a missing sink, an error response taken, or a number that a listening call owns |
| TransportOutcomes.SocketErrorsAreWrites | src/client/transport.rs:75-84 | a call ends with the socket's error only through a failed write of its own, before it listened |
| TransportOutcomes.WritesAndWaitsMayFail | src/client/transport.rs:75-164 | a write under way may fail with the socket's error or time out, a wait may time out, in every reached state, and the call then fails with exactly that error |
| TransportProgress.UndisturbedCallIsAnswered | src/client/transport.rs:86-173 | from every reachable state with the locks free, the sink open and nobody listening for the next number, nine steps write the request under that number and four more end the call with whatever answer arrives: Ok with that packet, or `Server` for an error |
| TransportProgress.OthersGetThrough | src/client/transport.rs:60-84 | from every reachable state with the locks free, an ack is written unchanged if the sink is open, `connect` opens the sink, and `close` shuts it and empties the table, in at most five steps |
| TransportInvariant.SeqOfWraps | src/client/transport.rs:88-93 | the n-th allocation, from 0, yields (1 + n) mod 2^32 |
| TransportInvariant.SameNumberIsOneTurnApart | src/client/transport.rs:88-93 | equal numbers are at least 2^32 allocations apart |
| TransportTheorems.CleanupRemovesOwnEntry | src/client/transport.rs:129-163 | a clean-up drops the sender of another call exactly when that call is filed under the same number, and then it is at least 2^32 allocations late; otherwise, and so always within the turn, it leaves every other entry alone |
| TransportTheorems.DuplicateMeansWrapped | src/client/transport.rs:119-127 | a registration is refused exactly when a listening call holds the number, and then that call is at least one turn old |
| TransportTheorems.NeverDuplicate | src/client/transport.rs:86-127 | when every registered call stays within the turn, nobody is ever refused as a duplicate |
| TransportWrap.OneTurnIsTight | src/client/transport.rs:86-163 | the bound 2^32 cannot be relaxed by one: a reachable state in which a clean-up drops the sender of another call that listens |
| TransportTheorems.WireOrder | src/client/transport.rs:86-135 | requests of `invoke` reach the sink in allocation order, numbered 1, 2, 3, ... mod 2^32, none twice |
| TransportTheorems.BoundedTable | src/client/transport.rs:119-173 | the table is never larger than the live calls plus those cancelled since the last registration |
| TransportTheorems.RegistrationPrunes | src/client/transport.rs:119-127 | after a registration attempt, accepted or refused, every entry has a listening owner |
| TransportTheorems.LockOrder | src/client/transport.rs:75-181 | a waiting future holds only locks of lower rank, and `state` and `sink` are never held together |
| TransportTheorems.SomeHolderSteps | src/client/transport.rs:75-181 | whenever a lock is held, some holder can step and comes closer to giving it up |
| TransportTheorems.NoDeadlock | src/client/transport.rs:75-181 | from every reachable state at most 30 steps of the holders alone free all three locks |
| TransportStates.OneShot.Send | src/client/transport.rs:168-170 | sending consumes the sender and fills the channel only if the receiver is alive |
| TransportStates.TransportState.constructor | src/client/transport.rs:40-48 | a new transport counts from 1 with no waiters |
| TransportStates.TransportState.Allocate | src/client/transport.rs:88-93 | the allocation section in place is the machine's |
| TransportStates.TransportState.Prune | src/client/transport.rs:122 | `retain` keeps exactly the entries whose receivers live, and drops the other senders |
| TransportStates.TransportState.Register | src/client/transport.rs:119-127 | the registration section in place is the machine's; it refuses exactly a number kept by the pruning |
| TransportStates.TransportState.Remove | src/client/transport.rs:129-163 | the clean-up section in place is the machine's |
| TransportStates.TransportState.Receive | src/client/transport.rs:166-173 | the delivery section in place is the machine's |
| TransportStates.TransportState.Clear | src/client/transport.rs:175-179 | the section of `close` in place is the machine's |
| TransportStates.TransportState.MoveOn | src/client/transport.rs:137-164 | any step outside the table changes a channel at most by dropping the mover's receiver |
| TransportRefinement.Step | src/client/transport.rs:75-181 | one step of any future, on the shared state, leads to the state that represents the machine's next state |
| TransportRefinement.Execute | src/client/transport.rs:28-181 | the in-place state represents the machine after every run |
| RecoveryInvariant.StepKeepsInv | src/client/mod.rs:185-245 | every step of runners, guards, disconnecters, waiters and workers keeps the supervisor's invariant; whether it retries is `RecoveryProgress.RetriesExactly` |
| RecoveryTheorems.NoLostWakeUp | src/client/recovery.rs:42-87 | a sender parked in `current()` can wake, or has seen the current version and there is nothing in it for the sender; once shutdown has begun, somebody's pending half of `stop` wakes it |
| RecoveryTheorems.ResolvedWasPublished | src/client/recovery.rs:67-77 | `current()` returns only connections that were published |
| RecoveryTheorems.OneLiveGeneration | src/client/recovery.rs:34-55 | at most one connection is uncancelled, it is the newest, and `Ready` names the newest; after shutdown none is uncancelled, whenever it was created |
| RecoveryTheorems.StoppedIsAbsorbing | src/client/recovery.rs:57-87 | once stopped, or once the handlers' token is cancelled, the state is `Stopped` ever after |
| RecoveryTheorems.DisconnectIsFinal | src/client/mod.rs:379-384 | when `disconnect` has returned, then and ever after, in the supervisor's account: every connection is cancelled, no attempt has workers or a sink, no attempt is made again, and the handlers have been told to stop |
| RecoveryProgress.RetriesExactly | src/client/mod.rs:222-243 | after an attempt the runner goes to sleep exactly if shutdown is not requested and the result that ended this attempt is recoverable, case by case; else it stops the client |
| RecoveryProgress.StopsOnlyFor | src/client/mod.rs:185-245 | a runner begins to stop the client only if shutdown was requested when it looked, or its last attempt ended with an error that is not recoverable |
| RecoveryProgress.Reconnects | src/client/mod.rs:204-245 | from every reachable state after a recoverable attempt, without shutdown, five steps of the runner alone create the next connection, live |
| RecoveryProgress.Starts | src/client/mod.rs:185-215 | five steps lead a `run` that finds the lock free to its first connection |
| RecoveryProgress.ReconnectServesSenders | src/client/recovery.rs:34-77 | and six more steps connect it, log in, publish it, and hand it to a sender that asks anew |
| RecoveryProgress.ShutdownEndsRuns | src/client/mod.rs:204-245 | once shutdown is requested, every runner takes at most fourteen more steps, whatever the others do |
| RecoveryProgress.ShutdownWakes | src/client/mod.rs:238-243 | a sleep cut short by shutdown leads to the stop, not to another attempt |
| RecoveryProgress.NoAttemptAfterShutdown | src/client/recovery.rs:34-40 | after shutdown at most the one connection that was just being created is added |
| RecoveryProgress.RunsEndStopped | src/client/mod.rs:191-199 | when a supervised run gives up its lock, the state is `Stopped` and the handlers have been told |
| RecoveryProgress.AttemptsAreOpen | src/client/mod.rs:140-176 | an attempt that logs in or dispatches has its sink and its workers |
| ClientSinks.DisconnectSilences | src/client/mod.rs:85-91 | and in the transports: when `disconnect` has returned, then and ever after, every transport's sink is gone, no transport is made, and not one more frame is written on any of them |
| RecoveryDisconnect.DisconnectCanReturn | src/client/mod.rs:377-384 | from every reachable state, whoever holds the run lock, three steps of a new `disconnect` stop the client and at most seventeen more, of the holder and of the call, let it return |
| RecoveryDisconnect.DroppedRunStops | src/client/mod.rs:109-115 | the guard of a dropped `run` stops the client and cancels every connection in three steps |
| RecoveryStates.RecoveryState.ChildToken | src/client/recovery.rs:34-39 | the second half of `begin_attempt`: a child of a cancelled token is born cancelled |
| RecoveryStates.RecoveryState.Connected | src/client/recovery.rs:42-55 | readiness is published exactly when the state is not `Stopped` and the connection is not cancelled |
| RecoveryStates.RecoveryState.GoOffline | src/client/recovery.rs:57-65 | going offline bumps the version except from `Stopped` |
| RecoveryStates.RecoveryState.CancelShutdown | src/client/recovery.rs:84-85 | the first half of `stop` cancels every child token |
| RecoveryStates.RecoveryState.ReplaceStopped | src/client/recovery.rs:86 | the second half of `stop` replaces the state |
| RecoveryStates.RecoveryState.ExamineValue | src/client/recovery.rs:67-77 | one turn of `current`: a working connection is returned, `Stopped` refuses, anything else waits |
| RecoveryStates.Execute | src/client/recovery.rs:21-87 | cell and tokens in place represent the machine after every run |
| Backoff.DelaysGrowToTheCap | src/client/recovery.rs:102-111 | the closed form min(2^k, 120) s is monotone and reaches the cap exactly from the eighth call on |
| Backoff.Backoff.NextDelay | src/client/recovery.rs:103-107 | the delay returned after k calls since the last reset is min(2^k, 120) seconds |
| Backoff.Backoff.ResetIfHealthy | src/client/recovery.rs:109-117 | starts over exactly after a session of at least 60 seconds |
| Backoff.RunLoop | src/client/mod.rs:204-245 | the loop's clock and sleep count for every sequence of attempts |
| Backoff.SleepsExactly | src/client/recovery.rs:120-148 | in every state of the loop, one more attempt is followed by a completed sleep exactly if its result is recoverable, case by case, and shutdown is seen neither before, nor after, nor during the sleep |
| Backoff.ReconnectRate | src/client/mod.rs:222-242 | N completed sleeps take at least 18.2 N - 60 and at least 18 N - 59 seconds, whatever mix of failed, short and healthy sessions occurs |
| Backoff.RateIsTight | src/client/mod.rs:222-242 | for every multiple of five sleeps some run attains 18.2 N - 60 |
| Attachments.TableIsExact | src/client/attachment_registry.rs:17-80 | the map holds exactly the registrations that are neither notified nor dropped since |
| Attachments.OneWaiterPerFile | src/client/attachment_registry.rs:17-38 | at most one active registration for each file id |
| Attachments.CompletedStays | src/client/attachment_registry.rs:40-49 | a notice that came early is kept |
| Attachments.AttachmentRegistry.Register | src/client/attachment_registry.rs:17-38 | refuses exactly an active id, otherwise adds a fresh registration |
| Attachments.AttachmentRegistry.Complete | src/client/attachment_registry.rs:40-49 | completes exactly the registration that waits for the id; unrelated notices complete nothing |
| Attachments.AttachmentRegistry.Drop | src/client/attachment_registry.rs:70-80 | dropping a stale waiter removes no other registration, even of the same id |
| Client.NextCidDecreases | src/client/mod.rs:61-66 | for every clock the client id goes down exactly while the counter is not the least `i64` |
| ClientProofs.StepKeepsInv | src/client/mod.rs:257-373 | every step of sends, transports, registries and supervisor keeps the composed invariant |
| ClientTheorems.RunsGoOn | src/client/mod.rs:257-373 | in every reached state each enabled step is defined and continues the run, so no run is cut short |
| ClientTheorems.SendIdentity | src/client/mod.rs:61-66 | two MSG_SEND frames on any connections share a client id exactly when they come from the same send, and the frames of a text send carry the same message |
| ClientTheorems.OkMeansAcknowledged | src/client/mod.rs:257-296 | a send returns Ok only after a non-error response with the number of one of its frames arrived on the connection that carried it |
| ClientTheorems.ReplayMovesForward | src/client/mod.rs:257-296 | one send uses connections of strictly increasing generation, all but the last of them cancelled, and at most as many as were ever published |
| ClientTheorems.FailoverLeavesDead | src/client/connection.rs:60-70 | a send that goes round again leaves a cancelled connection behind |
| ClientTheorems.OnlyFinalFailures | src/client/mod.rs:257-296 | a send fails with a connection failure only when the client has stopped; all final errors are listed by `ClientErrors.FinalErrors` |
| ClientErrors.FinalErrors | src/client/mod.rs:257-373 | in every run a text send ends with the rejection of MSG_SEND or with `ConnectionClosed` of a stopped client, and a file send also with the rejection of FILE_UPLOAD, an unexpected slot, an HTTP error or a missing notice; there is no other error |
| ClientErrors.AnswerDecides | src/client/connection.rs:60-70 | an answer that is a timeout, a socket error, a duplicate or a closed connection cancels the connection and sends the call round again; any other error ends the send with it; a response delivers, or names the file |
| ClientErrors.RejectionEndsSend | src/client/transport.rs:144-152 | once a send's call has taken an error response, its next answer ends the send with `Server` and the opcode of that request |
| ClientProgress.NoWaiterLeaks | src/client/attachment_registry.rs:70-80 | in every run a waiter has been dropped exactly when its send is no longer between registration and notice, whichever way it left |
| ClientProgress.NoticeServesSend | src/client/attachment_registry.rs:40-49 | in every run a notice for the file of a send that uploads or waits completes that send's own registration, and a send that waits goes on to its message with that file |
| ClientProgress.OneCallInFlight | src/client/connection.rs:60-70 | an unfinished call made for a send is the one that send waits for: at most one, on the connection in use, and none is left behind |
| ClientProgress.SendsCanMove | src/client/mod.rs:257-373 | in every reached state each send that is not over has an enabled step, or waits for its call or in `current()`; cancellation ends every wait that is raced against it |
| ClientProgress.StoppedSendsEnd | src/client/mod.rs:257-296 | once the client has stopped, a send takes at most seven more steps of its own: no replay loop runs on |
| ClientTheorems.AttachmentCausality | src/client/mod.rs:298-373 | a MSG_SEND with a file goes out only after the same call registered that file on that connection and its NOTIF_ATTACH was processed there afterwards |
| Senders.Outbox.NextCid | src/client/mod.rs:61-66 | the counter in place |
| Senders.Outbox.SendText | src/client/mod.rs:257-267 | every turn sends the same message; each turn but the last was answered with a timeout, a socket error, a duplicate or a closed connection, case by case; the outcome is Ok exactly on a response, the last error if it is none of these, or `ConnectionClosed` when the client has stopped |
| Senders.Outbox.SendUploadedFile | src/client/mod.rs:298-373 | slot, registration, upload, wait for the notice, release of the waiter and message in this order, each exactly when all before it went well; the waiter is released on every way out; the error is that of the step that failed |
| Senders.Outbox.SendFileBytes | src/client/mod.rs:275-296 | replays exactly the turns in which a call failed with one of these or a wait was cut short by the cancellation, and ends with the error of the step that failed otherwise |
| Senders.TextPostsAreOne | src/client/mod.rs:257-267 | a text send repeats one and the same message, once for each turn |
| Senders.FilePostsAreOwn | src/client/mod.rs:298-373 | each file message carries the one client id and a file registered, uploaded, awaited and released on the same connection right before it, in this order |
| SendTraces.SendsAreLoops | src/client/mod.rs:257-373 | in every run of the whole client, what a send has done so far is what its loop does on some turns, all but the last replayed and the last perhaps unfinished, and a send that is over ended as the loop does on them |
| DispatchLoops.Pipeline.HandleServerRequest | src/client/read_loop.rs:70-101 | the steps it takes and their order: the ack is sent in the step that reads the message, a login may complete meanwhile, and only then the filter is asked and the message queued; notices go to the registry, RECONNECT to the token |
| DispatchLoops.Pipeline.HandleFrame | src/client/read_loop.rs:22-49 | one turn takes exactly the machine's steps for that frame, leaves the fields in the machine's state, and stops exactly on a close frame or a read error |
| DispatchLoops.Pipeline.ReadLoop | src/client/read_loop.rs:16-68 | reads text, binary and ping frames up to and including the first close frame or error, acks exactly the messages among them, passes on exactly the responses and the notices, in order, and leaves the connection cancelled |
| DispatchLoops.Pipeline.RunDispatcher | src/client/dispatcher.rs:10-31 | a run of the machine that admits the queue in order until shutdown is found set, and ends only by shutdown or the end of the feed |
| DispatchLoops.LoopsAreFifo | src/client/dispatcher.rs:10-31 | whatever the loops have done, the handlers spawned are a prefix of the messages let through and every message was acked |
| DispatchTheorems.AdmissionIsFifo | src/client/dispatcher.rs:10-31 | on every schedule the admitted messages are, in order and each once, a prefix of those the filter let through; every parseable message is acked, filtered or not, before it is queued |
| DispatchTheorems.FrameDecides | src/client/read_loop.rs:22-118 | in every run, case by case: a close frame or a read error ends the reader and cancels the connection; after any other frame the reader lives, acking exactly the message the frame carries, with its defaults, and only a reconnect request cancels |
| DispatchTheorems.WhatCancels | src/client/read_loop.rs:16-78 | a step cancels the connection exactly if it is the end of the stream, a close frame, a read error, a reconnect request or another party's cancellation; the receiver goes exactly with the dispatcher or its attempt |
| DispatchTheorems.NothingIsLostWhileAlive | src/client/dispatcher.rs:10-31 | until the connection is cancelled or the client shuts down, all that was let through is admitted or queued, and nothing is admitted before a login |
| DispatchTheorems.QueueCanDrain | src/client/dispatcher.rs:15-31 | while the dispatcher runs and shutdown has not begun, one step for each queued message admits them all, in order |
| DispatchTheorems.HandlersCanBegin | src/client/dispatcher.rs:34-50 | every admitted message can still begin its handler as long as shutdown has not begun, even after its connection is gone |
| DispatchTheorems.FilterAtArrivalExactly | src/client/read_loop.rs:80-92 | the filter's verdicts are those of arrival exactly when no step of the run stored the user id during the ack of one of that user's messages, and then the admitted messages are a prefix of those that passed on arrival |
| DispatchTheorems.OwnMessageCaughtByLogin | src/client/read_loop.rs:88-91 | for every message not from the security service, a run in which both answers of the attempt have been read, the message passes on arrival, and it is dropped because its sender's login completes during the ack |
| DispatchTheorems.ShutdownEndsAdmission | src/client/dispatcher.rs:15-50 | after shutdown nothing is admitted and no handler begins |
| DispatchTheorems.DroppedReceiverAdmitsNothing | src/client/dispatcher.rs:10-31 | after the dispatcher is gone its connection admits nothing, while admitted handlers may still begin |
| Login.AuthFlow.PerformLogin | src/auth/mod.rs:285-299 | Ok exactly when the server accepts and names a user; the user id is stored exactly then |
| Login.AuthFlow.Login | src/auth/mod.rs:155-174 | issues only requests that follow from the configuration and the answer before them, stops only when none is left, returns exactly the token of its last LOGIN, and otherwise the error that its last request and the answer to it determine |
| Login.AuthFlow.RequestSmsCode | src/auth/mod.rs:176-206 | ends with an accepted AUTH_REQUEST and its token, after at most one captcha retry that only a rejection by the server justifies, or with no request left to make and the error of the one that failed |
| Login.AuthFlow.VerifySmsCode | src/auth/mod.rs:237-256 | after an accepted SMS request, issues exactly the requests that follow, a password only on a challenge; logs in exactly when the last LOGIN is accepted, and else passes on the connection's error, the rejection, `PasswordRequired` or `UnexpectedResponse` |
| Login.FailedLoginIsRetriedExactly | src/auth/mod.rs:155-300 | a login that failed is followed by another attempt exactly if a transient failure of its connection, of the captcha solver or of the operator ended it; it returns the connection's own error, and what the server turned down is not tried again |
| Login.CompleteIsUnique | src/auth/mod.rs:155-300 | configuration and answers determine the whole exchange |
| Login.ExchangeGrammar | src/auth/mod.rs:155-300 | every login issues a prefix of [LOGIN] AUTH_REQUEST [AUTH_CAPTCHA_REQUEST AUTH_REQUEST] AUTH [AUTH_PASSWORD] LOGIN |
| Login.RunAttempts | src/client/mod.rs:171-172 | over every sequence of attempts, dropped ones included, each starts from the token of the latest success; the sequence ends early only at a login whose error is final |
| Login.TokenIsCarried | src/client/mod.rs:171-172 | an attempt that reaches the login starts with LOGIN carrying the token of the most recent success |
| PercentEncoding.PercentEncodeFileName | src/client/mod.rs:453-467 | the loop computes the specification |
| PercentEncoding.EachByte | src/client/mod.rs:453-467 | exactly the 66 unreserved characters of section 2.3 of RFC 3986, listed one by one, stand for themselves; every other byte becomes its upper-case triplet |
| PercentEncoding.DecodeEncode | src/client/mod.rs:453-467 | decoding as in section 2.1 of RFC 3986 inverts encoding on every byte string |
| PercentEncoding.EncodeIsInjective | src/client/mod.rs:453-467 | different names have different encodings |
| PercentEncoding.EncodeIsCanonical | src/client/mod.rs:453-467 | output is unreserved characters and upper-case triplets of other bytes, n to 3n characters long |
| PercentEncoding.EncodeDecode | src/client/mod.rs:453-467 | every canonical text decodes, and encoding gives it back: the encoder is onto |

## Left out

- WebSocket and TLS set-up, headers, JSON: a frame is a value of `Packet`, the sink accepts frames in order or fails.
- The text of error messages and the payload fields that no property depends on.
- The captcha solver, its callback server, the operator channels, environment and token file: each is an arbitrary answer; the operator's code is taken as already trimmed.
- The HTTP upload: it succeeds, fails or is cancelled.
- Panics, aborts by the runtime and poisoned locks.
- Liveness: nothing is assumed about fairness, so nothing is claimed to happen eventually; what is proved is that somebody can always step, which short schedules lead to an answer or a new connection, and how few steps are left after a stop.
- Exactly-once delivery: a lost acknowledgement may duplicate a message, as the source says.
- The order in which the mutexes serve waiting futures: any waiter may be next.
- `timeout` prefers a response that is already there; in the model a timeout may win that race, which only adds runs.
- The read loop delivers one frame at a time; in the composed machine deliveries, acks and notices are independent steps, which only adds runs.
- In the supervisor machine alone the transport's `close` is one step; in the whole client the supervisor waits there for a `close` of the transport machine (`ClientSinks`).
- The keepalive worker: it is one of the callers of `invoke` and one of those that may cancel a connection at any time.
- The dispatch machine lets a connection's user id be stored once, as `Login.AuthFlow.Login` shows of a login, and only after two non-error responses have been read; which requests they answer is the transport's business.
- Application handlers: they begin and nothing more is known of them.
- ClientTheorems.SendIdentity: for clients whose counter has not reached the least `i64`, where the subtraction in `next_cid` wraps; `Client.NextCidDecreases` is the exact condition.
- TransportTheorems.NeverDuplicate: one direction; refusals beyond the turn are characterised by `TransportTheorems.DuplicateMeansWrapped`.
- Senders.Outbox.SendText: sequential; `SendTraces.SendsAreLoops` says that its acts are those of every interleaving.
- Backoff.RunLoop: delays and the health limit are in nanoseconds without overflow; the clock never runs backwards.
