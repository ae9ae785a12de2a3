/** Frames, opcodes and errors (src/protocol.rs, src/error.rs), and the two
    classifiers that decide whether an error is retried. */
module Protocol {

  datatype Option<+T> = None | Some(value: T)

  const CMD_REQUEST := 0
  const CMD_RESPONSE := 1
  const CMD_ERROR := 3

  const PING := 1
  const RECONNECT := 3
  const SESSION_INIT := 6
  const AUTH_REQUEST := 17
  const AUTH := 18
  const LOGIN := 19
  const MSG_SEND := 64
  const FILE_UPLOAD := 87
  const AUTH_PASSWORD := 115
  const NOTIF_MESSAGE := 128
  const NOTIF_ATTACH := 136
  const AUTH_CAPTCHA_REQUEST := 224

  /** Sequence numbers are `u32` and wrap. */
  const SEQ_MODULUS := 0x1_0000_0000
  type SeqNo = n: int | 0 <= n < SEQ_MODULUS

  /** The parts of a JSON payload the senders read or write. */
  datatype Payload =
    | Other
    | Message(chatId: int, cid: int, fileId: Option<int>)
    | UploadSlot(fileId: Option<int>)

  datatype Packet = Packet(cmd: int, seqNo: SeqNo, opcode: int, payload: Payload)

  function Request(seqNo: SeqNo, opcode: int, payload: Payload): Packet {
    Packet(CMD_REQUEST, seqNo, opcode, payload)
  }

  /** `std::io::ErrorKind`: the transient kinds, and all the others. */
  datatype IoKind =
    | ConnectionRefused | ConnectionReset | ConnectionAborted | NotConnected | BrokenPipe
    | TimedOut | Interrupted | WouldBlock | UnexpectedEof | OtherKind

  datatype Error =
    | WebSocket
    | WebSocketConnectTimeout
    | Timeout(opcode: int)
    | DuplicateSequence(seqNo: SeqNo)
    | ConnectionClosed
    | Server(opcode: int)
    | UnexpectedResponse
    | FileProcessingTimeout(fileId: int)
    | Http(transient: bool)
    | CaptchaSolverUnavailable(transient: bool)
    | Io(kind: IoKind)
    | CaptchaTimeout
    | TelegramUnavailable
    | PasswordRequired
    | CaptchaSolverDisabled
    | OtherError

  predicate IsTransportFailure(error: Error) {
    error.WebSocket? || error.WebSocketConnectTimeout? || error.Timeout? ||
    error.DuplicateSequence? || error.ConnectionClosed?
  }

  predicate IsTransientIoError(kind: IoKind) {
    match kind
    case ConnectionRefused | ConnectionReset | ConnectionAborted | NotConnected | BrokenPipe => true
    case TimedOut | Interrupted | WouldBlock | UnexpectedEof => true
    case OtherKind => false
  }

  predicate ShouldRetryConnection(error: Error) {
    IsTransportFailure(error) ||
    match error
    case Http(transient) => transient
    case CaptchaSolverUnavailable(transient) => transient
    case Io(kind) => IsTransientIoError(kind)
    case CaptchaTimeout => true
    case TelegramUnavailable => true
    case _ => false
  }

  // ---- The same, case by case ----

  /** The failures of a connection itself, after which a send is replayed on the next one. */
  predicate ConnectionFault(error: Error) {
    match error
    case WebSocket | WebSocketConnectTimeout | Timeout(_) | DuplicateSequence(_) | ConnectionClosed => true
    case Server(_) | UnexpectedResponse | FileProcessingTimeout(_) | Http(_) => false
    case CaptchaSolverUnavailable(_) | Io(_) | CaptchaTimeout | TelegramUnavailable => false
    case PasswordRequired | CaptchaSolverDisabled | OtherError => false
  }

  /** The attempts' ends after which the client reconnects: a session that was over without
      an error, the failures of the connection itself, and the transient errors of the
      services a login uses. */
  predicate Recoverable(result: Option<Error>) {
    match result
    case None => true
    case Some(error) =>
      match error
      case WebSocket | WebSocketConnectTimeout | Timeout(_) | DuplicateSequence(_) | ConnectionClosed => true
      case CaptchaTimeout | TelegramUnavailable => true
      case Http(transient) => transient
      case CaptchaSolverUnavailable(transient) => transient
      case Io(kind) => kind != OtherKind
      case Server(_) | UnexpectedResponse | FileProcessingTimeout(_) => false
      case PasswordRequired | CaptchaSolverDisabled | OtherError => false
  }
}
