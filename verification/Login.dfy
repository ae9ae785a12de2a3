/** The login flow (src/auth/mod.rs) as a machine that issues requests, and the
    session token carried from one connection attempt to the next (src/client/mod.rs). */
module Login {
  import opened Protocol

  datatype Result<+T> = Ok(value: T) | Err(error: Error)

  datatype Config = Config(phone: Option<string>, password: Option<string>, sessionToken: Option<string>, captcha: bool)

  datatype Req =
    | Login(token: string)
    | AuthRequest(phone: string, captchaToken: Option<string>)
    | CaptchaRequest(phone: string)
    | Auth(smsToken: string, code: string)
    | AuthPassword(trackId: string, password: string)

  function OpcodeOf(r: Req): int {
    match r
    case Login(_) => LOGIN
    case AuthRequest(_, _) => AUTH_REQUEST
    case CaptchaRequest(_) => AUTH_CAPTCHA_REQUEST
    case Auth(_, _) => AUTH
    case AuthPassword(_, _) => AUTH_PASSWORD
  }

  /** The fields of a response the flow reads; `challenge` is `passwordChallenge` and its `trackId`. */
  datatype Reply = Reply(
    token: Option<string>, link: Option<string>, challenge: Option<Option<string>>,
    loginToken: Option<string>, userId: Option<int>)

  /** What `invoke` reports when no answer of the server was the reason. */
  type CallError = e: Error | !e.Server? witness ConnectionClosed

  datatype Answer = Good(reply: Reply) | Rejected | Broken(error: CallError)

  /** Everything outside: what the server answers after these requests, the captcha
      solver and the operator who types the code. */
  datatype World = World(
    server: seq<Req> -> Answer,
    solver: string -> Result<string>,
    operator: string -> Result<string>)

  /** An error frame carries the opcode of the request it answers. */
  function InvokeResult(r: Req, a: Answer): Result<Reply> {
    match a
    case Good(reply) => Ok(reply)
    case Rejected => Err(Server(OpcodeOf(r)))
    case Broken(error) => Err(error)
  }

  predicate ShouldFallbackToSms(e: Error) {
    e == Server(LOGIN)
  }

  predicate ShouldRetryWithCaptcha(e: Error) {
    e == Server(AUTH_REQUEST)
  }

  // ---- The code ----

  class AuthFlow {
    const config: Config
    const world: World
    var trace: seq<Req>
    var ownUserId: Option<int>

    constructor (config: Config, world: World)
      ensures this.config == config && this.world == world && trace == [] && ownUserId == None
    {
      this.config := config;
      this.world := world;
      trace := [];
      ownUserId := None;
    }

    method Invoke(r: Req) returns (result: Result<Reply>)
      modifies this
      ensures trace == old(trace) + [r] && result == InvokeResult(r, world.server(trace)) && ownUserId == old(ownUserId)
    {
      trace := trace + [r];
      result := InvokeResult(r, world.server(trace));
    }

    method PerformLogin(token: string) returns (result: Result<string>)
      modifies this
      ensures trace == old(trace) + [Req.Login(token)]
      ensures result.Ok? <==> world.server(trace).Good? && world.server(trace).reply.userId.Some?
      ensures result.Ok? ==> result.value == token && ownUserId == world.server(trace).reply.userId
      ensures result.Err? ==> ownUserId == old(ownUserId) && result.error == ErrorAfter(config, world, trace)
      ensures result.Err? && ShouldFallbackToSms(result.error) <==> world.server(trace).Rejected?
    {
      var response := Invoke(Req.Login(token));
      if response.Err? {
        return Err(response.error);
      }
      if response.value.userId.None? {
        return Err(UnexpectedResponse);
      }
      ownUserId := response.value.userId;
      return Ok(token);
    }

    method Login() returns (result: Result<string>)
      requires trace == [] && ownUserId == None
      modifies this
      ensures Complete(config, world, trace)
      ensures result.Ok? <==> LoggedIn(world, trace)
      ensures result.Ok? ==> result.value == trace[|trace| - 1].token && ownUserId == world.server(trace).reply.userId
      ensures result.Err? ==> ownUserId == None && result.error == FailureOf(config, world, trace)
    {
      if config.sessionToken.Some? {
        ChainGrows(config, world, trace, Req.Login(config.sessionToken.value));
        result := PerformLogin(config.sessionToken.value);
        assert |trace| == 1;
        if result.Ok? {
          SavedLoginIsLast(config, world, trace);
          return;
        }
        if !ShouldFallbackToSms(result.error) {
          SavedLoginIsLast(config, world, trace);
          return;
        }
      }
      if config.phone.None? {
        if config.sessionToken.Some? {
          SavedLoginIsLast(config, world, trace);
        } else {
          NothingToStartWith(config, world);
        }
        return Err(UnexpectedResponse);
      }
      var smsToken := RequestSmsCode(config.phone.value);
      if smsToken.Err? {
        return Err(smsToken.error);
      }
      var code := world.operator(config.phone.value);
      if code.Err? {
        NoCodeNoAuth(config, world, trace);
        return Err(code.error);
      }
      result := VerifySmsCode(smsToken.value, code.value);
    }

    method RequestSmsCode(phone: string) returns (result: Result<string>)
      requires config.phone == Some(phone) && Justified(config, world, trace, AuthRequest(phone, None)) &&
               Chain(config, world, trace)
      modifies this
      ensures Chain(config, world, trace) && trace != [] && ownUserId == old(ownUserId) && !LoggedIn(world, trace)
      ensures result.Ok? ==> trace[|trace| - 1].AuthRequest? && trace[|trace| - 1].phone == phone &&
                             world.server(trace).Good? && world.server(trace).reply.token == Some(result.value)
      ensures result.Err? ==> Stuck(config, world, trace) && result.error == FailureOf(config, world, trace)
    {
      ChainGrows(config, world, trace, AuthRequest(phone, None));
      var first := RequestWithCaptcha(phone, None);
      if first.Ok? {
        return first;
      }
      if !ShouldRetryWithCaptcha(first.error) {
        RefusedRequestIsLast(config, world, trace);
        return first;
      }
      ChainGrows(config, world, trace, CaptchaRequest(phone));
      var captchaToken := SolveCaptcha(phone);
      if captchaToken.Err? {
        UnsolvedCaptchaIsLast(config, world, trace);
        return Err(captchaToken.error);
      }
      ChainGrows(config, world, trace, AuthRequest(phone, Some(captchaToken.value)));
      result := RequestWithCaptcha(phone, Some(captchaToken.value));
      if result.Err? {
        RefusedRequestIsLast(config, world, trace);
      }
    }

    method RequestWithCaptcha(phone: string, captchaToken: Option<string>) returns (result: Result<string>)
      modifies this
      ensures trace == old(trace) + [AuthRequest(phone, captchaToken)] && ownUserId == old(ownUserId)
      ensures result.Ok? <==> world.server(trace).Good? && world.server(trace).reply.token.Some?
      ensures result.Ok? ==> world.server(trace).reply.token == Some(result.value)
      ensures result.Err? ==> result.error == ErrorAfter(config, world, trace)
      ensures result.Err? && ShouldRetryWithCaptcha(result.error) <==> world.server(trace).Rejected?
    {
      var response := Invoke(AuthRequest(phone, captchaToken));
      if response.Err? {
        return Err(response.error);
      }
      return if response.value.token.Some? then Ok(response.value.token.value) else Err(UnexpectedResponse);
    }

    method SolveCaptcha(phone: string) returns (result: Result<string>)
      modifies this
      ensures trace == old(trace) + [CaptchaRequest(phone)] && ownUserId == old(ownUserId)
      ensures result.Ok? <==> SolvedCaptcha(config, world, trace).Some?
      ensures result.Ok? ==> SolvedCaptcha(config, world, trace) == Some(result.value)
      ensures result.Err? ==> result.error == ErrorAfter(config, world, trace)
    {
      var response := Invoke(CaptchaRequest(phone));
      if response.Err? {
        return Err(response.error);
      }
      var link := if response.value.link.Some? then response.value.link.value else "";
      if link == "" {
        return Err(UnexpectedResponse);
      }
      if !config.captcha {
        return Err(CaptchaSolverDisabled);
      }
      return world.solver(link);
    }

    method VerifySmsCode(smsToken: string, code: string) returns (result: Result<string>)
      requires Justified(config, world, trace, Auth(smsToken, code)) && Chain(config, world, trace) && ownUserId == None
      modifies this
      ensures Complete(config, world, trace)
      ensures result.Ok? <==> LoggedIn(world, trace)
      ensures result.Ok? ==> result.value == trace[|trace| - 1].token && ownUserId == world.server(trace).reply.userId
      ensures result.Err? ==> ownUserId == None && result.error == FailureOf(config, world, trace)
    {
      ChainGrows(config, world, trace, Auth(smsToken, code));
      var response := Invoke(Auth(smsToken, code));
      if response.Err? {
        return Err(response.error);
      }
      if response.value.challenge.Some? {
        if config.password.None? {
          return Err(PasswordRequired);
        }
        result := VerifyPasswordChallenge(response.value.challenge.value, config.password.value);
      } else {
        result := LoginWithAuthPayload(response.value);
      }
    }

    method VerifyPasswordChallenge(trackId: Option<string>, password: string) returns (result: Result<string>)
      requires Chain(config, world, trace) && ownUserId == None && config.password == Some(password)
      requires trace != [] && trace[|trace| - 1].Auth? && world.server(trace).Good? &&
               world.server(trace).reply.challenge == Some(trackId)
      modifies this
      ensures Complete(config, world, trace)
      ensures result.Ok? <==> LoggedIn(world, trace)
      ensures result.Ok? ==> result.value == trace[|trace| - 1].token && ownUserId == world.server(trace).reply.userId
      ensures result.Err? ==> ownUserId == None && result.error == FailureOf(config, world, trace)
    {
      if trackId.None? {
        return Err(UnexpectedResponse);
      }
      ChainGrows(config, world, trace, AuthPassword(trackId.value, password));
      var response := Invoke(AuthPassword(trackId.value, password));
      if response.Err? {
        return Err(response.error);
      }
      result := LoginWithAuthPayload(response.value);
    }

    method LoginWithAuthPayload(reply: Reply) returns (result: Result<string>)
      requires Chain(config, world, trace) && ownUserId == None && trace != [] && world.server(trace) == Good(reply)
      requires trace[|trace| - 1].AuthPassword? || (trace[|trace| - 1].Auth? && reply.challenge.None?)
      modifies this
      ensures Complete(config, world, trace)
      ensures result.Ok? <==> LoggedIn(world, trace)
      ensures result.Ok? ==> result.value == trace[|trace| - 1].token && ownUserId == world.server(trace).reply.userId
      ensures result.Err? ==> ownUserId == None && result.error == FailureOf(config, world, trace)
    {
      if reply.loginToken.None? {
        NoTokenNoLogin(config, world, trace);
        return Err(UnexpectedResponse);
      }
      ChainGrows(config, world, trace, Req.Login(reply.loginToken.value));
      result := PerformLogin(reply.loginToken.value);
      LoginIsLast(config, world, trace);
    }
  }

  // ---- The specification: which requests are justified ----

  /** What the solver makes of the captcha link in the last answer. */
  function SolvedCaptcha(config: Config, world: World, trace: seq<Req>): Option<string> {
    var a := world.server(trace);
    if a.Good? && a.reply.link.Some? && a.reply.link.value != "" &&
      config.captcha && world.solver(a.reply.link.value).Ok?
    then Some(world.solver(a.reply.link.value).value) else None
  }

  /** Request r follows from the configuration and the answer to the request before it. */
  predicate Justified(config: Config, world: World, before: seq<Req>, r: Req) {
    var first := before == [];
    var a := world.server(before);
    match r
    case Login(token) =>
      if first then config.sessionToken == Some(token)
      else
        (before[|before| - 1].AuthPassword? || (before[|before| - 1].Auth? && a.Good? && a.reply.challenge.None?)) &&
        a.Good? && a.reply.loginToken == Some(token)
    case AuthRequest(phone, captchaToken) =>
      config.phone == Some(phone) &&
      (if captchaToken.Some? then !first && before[|before| - 1].CaptchaRequest? &&
       SolvedCaptcha(config, world, before) == captchaToken
       else if first then config.sessionToken.None?
       else |before| == 1 && before[0].Login? && a.Rejected?)
    case CaptchaRequest(phone) => !first && before[|before| - 1] == AuthRequest(phone, None) && a.Rejected?
    case Auth(smsToken, code) =>
      !first && before[|before| - 1].AuthRequest? && a.Good? && a.reply.token == Some(smsToken) &&
      world.operator(before[|before| - 1].phone) == Ok(code)
    case AuthPassword(trackId, password) =>
      !first && before[|before| - 1].Auth? && a.Good? &&
        a.reply.challenge == Some(Some(trackId)) && config.password == Some(password)
  }

  ghost predicate Chain(config: Config, world: World, trace: seq<Req>) {
    forall i {:trigger trace[i]} | 0 <= i < |trace| :: Justified(config, world, trace[..i], trace[i])
  }

  lemma ChainGrows(config: Config, world: World, trace: seq<Req>, r: Req)
    requires Chain(config, world, trace) && Justified(config, world, trace, r)
    ensures Chain(config, world, trace + [r])
  {
    var trace' := trace + [r];
    forall i | 0 <= i < |trace'| ensures Justified(config, world, trace'[..i], trace'[i]) {
      if i < |trace| {
        assert trace'[..i] == trace[..i] && trace'[i] == trace[i];
      } else {
        assert trace'[..i] == trace;
      }
    }
  }

  /** No further request is justified. */
  ghost predicate Stuck(config: Config, world: World, trace: seq<Req>) {
    forall r: Req :: !Justified(config, world, trace, r)
  }

  lemma LoginIsLast(config: Config, world: World, trace: seq<Req>)
    requires |trace| > 1 && trace[|trace| - 1].Login?
    ensures Stuck(config, world, trace)
  {
  }

  lemma SavedLoginIsLast(config: Config, world: World, trace: seq<Req>)
    requires |trace| == 1 && trace[0].Login? && (!world.server(trace).Rejected? || config.phone.None?)
    ensures Stuck(config, world, trace)
  {
  }

  lemma NothingToStartWith(config: Config, world: World)
    requires config.phone.None? && config.sessionToken.None?
    ensures Stuck(config, world, [])
  {
  }

  lemma NoCodeNoAuth(config: Config, world: World, trace: seq<Req>)
    requires trace != [] && trace[|trace| - 1].AuthRequest? && world.server(trace).Good?
    requires world.operator(trace[|trace| - 1].phone).Err?
    ensures Stuck(config, world, trace)
  {
  }

  lemma NoTokenNoLogin(config: Config, world: World, trace: seq<Req>)
    requires trace != [] && world.server(trace).Good? && world.server(trace).reply.loginToken.None?
    requires trace[|trace| - 1].AuthPassword? || (trace[|trace| - 1].Auth? && world.server(trace).reply.challenge.None?)
    ensures Stuck(config, world, trace)
  {
  }

  lemma RefusedRequestIsLast(config: Config, world: World, trace: seq<Req>)
    requires trace != [] && trace[|trace| - 1].AuthRequest?
    requires !(world.server(trace).Good? && world.server(trace).reply.token.Some?)
    requires trace[|trace| - 1].captchaToken.Some? || !world.server(trace).Rejected?
    ensures Stuck(config, world, trace)
  {
  }

  lemma UnsolvedCaptchaIsLast(config: Config, world: World, trace: seq<Req>)
    requires trace != [] && trace[|trace| - 1].CaptchaRequest? && SolvedCaptcha(config, world, trace).None?
    ensures Stuck(config, world, trace)
  {
  }

  /** Every request is justified, and the flow stopped only because none was left. */
  ghost predicate Complete(config: Config, world: World, trace: seq<Req>) {
    Chain(config, world, trace) && Stuck(config, world, trace)
  }

  predicate LoggedIn(world: World, trace: seq<Req>) {
    trace != [] && trace[|trace| - 1].Login? && world.server(trace).Good? && world.server(trace).reply.userId.Some?
  }

  // ---- The specification: which error a login ends with ----

  /** What fails when the last request was accepted: a field is missing, or else the solver,
      the operator or the configuration does not provide what the next request needs. */
  function ErrorAfterReply(config: Config, world: World, r: Req, reply: Reply): Error {
    match r
    case Login(_) => UnexpectedResponse
    case AuthRequest(phone, _) =>
      (match (reply.token, world.operator(phone))
       case (Some(_), Err(error)) => error
       case _ => UnexpectedResponse)
    case CaptchaRequest(_) =>
      if reply.link.None? || reply.link.value == "" then UnexpectedResponse
      else if !config.captcha then CaptchaSolverDisabled
      else
        (match world.solver(reply.link.value)
         case Err(error) => error
         case Ok(_) => UnexpectedResponse)
    case Auth(_, _) =>
      if reply.challenge.Some? && config.password.None? then PasswordRequired else UnexpectedResponse
    case AuthPassword(_, _) => UnexpectedResponse
  }

  /** What the last request fails with: the connection's own error, the server's rejection
      of this very request, or what is missing after it. */
  function ErrorAfter(config: Config, world: World, trace: seq<Req>): Error
    requires trace != []
  {
    var last := trace[|trace| - 1];
    match world.server(trace)
    case Broken(error) => error
    case Rejected => Server(OpcodeOf(last))
    case Good(reply) => ErrorAfterReply(config, world, last, reply)
  }

  /** The saved token was rejected, or there is none, and there is no phone number either. */
  predicate NoPhone(config: Config, world: World, trace: seq<Req>) {
    config.phone.None? && (trace == [] || (|trace| == 1 && trace[0].Login? && world.server(trace).Rejected?))
  }

  /** The error of a login that ends after these requests. */
  function FailureOf(config: Config, world: World, trace: seq<Req>): Error {
    if trace == [] || NoPhone(config, world, trace) then UnexpectedResponse else ErrorAfter(config, world, trace)
  }

  // ---- What the specification says ----

  /** The answers leave no choice: at most one request is justified at each point. */
  lemma JustifiedIsUnique(config: Config, world: World, before: seq<Req>, r: Req, q: Req)
    requires Justified(config, world, before, r) && Justified(config, world, before, q)
    ensures r == q
  {
  }

  lemma {:induction false} ChainsAgree(config: Config, world: World, a: seq<Req>, b: seq<Req>, n: nat)
    requires Chain(config, world, a) && Chain(config, world, b) && n <= |a| && n <= |b|
    ensures a[..n] == b[..n]
  {
    hide Justified;
    if n > 0 {
      ChainsAgree(config, world, a, b, n - 1);
      JustifiedIsUnique(config, world, a[..n - 1], a[n - 1], b[n - 1]);
      assert a[..n] == a[..n - 1] + [a[n - 1]] && b[..n] == b[..n - 1] + [b[n - 1]];
    }
  }

  /** A longer exchange shows a request that was still justified. */
  lemma LongerGoesOn(config: Config, world: World, a: seq<Req>, b: seq<Req>)
    requires Chain(config, world, a) && Chain(config, world, b) && |a| < |b|
    ensures !Stuck(config, world, a)
  {
    ChainsAgree(config, world, a, b, |a|);
    assert a[..|a|] == a;
    assert Justified(config, world, b[..|a|], b[|a|]);
  }

  /** So a configuration and a world determine the whole exchange. */
  lemma CompleteIsUnique(config: Config, world: World, a: seq<Req>, b: seq<Req>)
    requires Complete(config, world, a) && Complete(config, world, b)
    ensures a == b
  {
    if |a| < |b| {
      LongerGoesOn(config, world, a, b);
    } else if |b| < |a| {
      LongerGoesOn(config, world, b, a);
    }
    ChainsAgree(config, world, a, b, |a|);
    assert a[..|a|] == a && b[..|b|] == b;
  }

  /** The client reconnects after a login that ended like this: a transient failure of the
      connection, of the solver or of the operator, and none of the server's answers. */
  predicate WorthAnother(config: Config, world: World, r: Req, a: Answer) {
    match (a, r)
    case (Broken(error), _) => Recoverable(Some(error))
    case (Rejected, _) => false
    case (Good(reply), AuthRequest(phone, _)) =>
      reply.token.Some? &&
      (match world.operator(phone)
       case Err(error) => Recoverable(Some(error))
       case Ok(_) => false)
    case (Good(reply), CaptchaRequest(_)) =>
      reply.link.Some? && reply.link.value != "" && config.captcha &&
      (match world.solver(reply.link.value)
       case Err(error) => Recoverable(Some(error))
       case Ok(_) => false)
    case (Good(_), _) => false
  }

  function Opcodes(trace: seq<Req>): seq<int> {
    seq(|trace|, i requires 0 <= i < |trace| => OpcodeOf(trace[i]))
  }

  function Head(captcha: bool): seq<int> {
    if captcha then [AUTH_REQUEST, AUTH_CAPTCHA_REQUEST, AUTH_REQUEST] else [AUTH_REQUEST]
  }

  function Tail(password: bool): seq<int> {
    if password then [AUTH, AUTH_PASSWORD, LOGIN] else [AUTH, LOGIN]
  }

  /** The longest exchange: a saved token is tried or not, a captcha is asked for or
      not, a password is asked for or not. */
  function FullExchange(saved: bool, captcha: bool, password: bool): seq<int> {
    (if saved then [LOGIN] else []) + (Head(captcha) + Tail(password))
  }

  predicate PlainRequest(r: Req) {
    r.AuthRequest? && r.captchaToken.None?
  }

  /** Request q can be the one right after p. */
  predicate Follows(p: Req, q: Req) {
    match p
    case Login(_) => PlainRequest(q)
    case AuthRequest(_, captchaToken) => q.Auth? || (captchaToken.None? && q.CaptchaRequest?)
    case CaptchaRequest(_) => q.AuthRequest? && q.captchaToken.Some?
    case Auth(_, _) => q.AuthPassword? || q.Login?
    case AuthPassword(_, _) => q.Login?
  }

  lemma WhatFollows(config: Config, world: World, trace: seq<Req>, i: nat)
    requires Chain(config, world, trace) && 0 < i < |trace|
    ensures Follows(trace[i - 1], trace[i])
    ensures trace[i - 1].Login? ==> i == 1
  {
    assert Justified(config, world, trace[..i], trace[i]);
  }

  lemma WhatStarts(config: Config, world: World, trace: seq<Req>)
    requires Chain(config, world, trace) && trace != []
    ensures if config.sessionToken.Some?
            then trace[0] == Req.Login(config.sessionToken.value) else PlainRequest(trace[0])
  {
    assert Justified(config, world, trace[..0], trace[0]);
  }

  predicate Spells(trace: seq<Req>, from: nat, opcodes: seq<int>) {
    forall i | from <= i < |trace| && i < from + |opcodes| :: OpcodeOf(trace[i]) == opcodes[i - from]
  }

  /** From the first AUTH_REQUEST on. */
  lemma HeadGrammar(config: Config, world: World, trace: seq<Req>, o: nat) returns (captcha: bool)
    requires Chain(config, world, trace) && (o < |trace| ==> PlainRequest(trace[o]))
    ensures Spells(trace, o, Head(captcha))
    ensures var k := o + |Head(captcha)|; k < |trace| ==> trace[k].Auth?
  {
    captcha := o + 1 < |trace| && trace[o + 1].CaptchaRequest?;
    if o + 1 < |trace| { WhatFollows(config, world, trace, o + 1); }
    if o + 2 < |trace| { WhatFollows(config, world, trace, o + 2); }
    if o + 3 < |trace| { WhatFollows(config, world, trace, o + 3); }
  }

  /** From the first AUTH on. */
  lemma TailGrammar(config: Config, world: World, trace: seq<Req>, k: nat) returns (password: bool)
    requires Chain(config, world, trace) && 0 < k && (k < |trace| ==> trace[k].Auth?)
    ensures Spells(trace, k, Tail(password)) && |trace| <= k + |Tail(password)|
  {
    password := k + 1 < |trace| && trace[k + 1].AuthPassword?;
    if k + 1 < |trace| { WhatFollows(config, world, trace, k + 1); }
    if password && k + 2 < |trace| { WhatFollows(config, world, trace, k + 2); }
    var end := k + |Tail(password)|;
    forall i | k <= i < |trace| && i < end ensures OpcodeOf(trace[i]) == Tail(password)[i - k] {
      assert i == k || i == k + 1 || i == k + 2;
    }
    LoginEnds(config, world, trace, end);
  }

  /** Nothing comes after a LOGIN that is not the first request. */
  lemma LoginEnds(config: Config, world: World, trace: seq<Req>, end: nat)
    requires Chain(config, world, trace) && end > 1 && (end < |trace| ==> trace[end - 1].Login?)
    ensures |trace| <= end
  {
    if end < |trace| {
      WhatFollows(config, world, trace, end);
    }
  }

  /** Every login issues a prefix of
      [LOGIN] AUTH_REQUEST [AUTH_CAPTCHA_REQUEST AUTH_REQUEST] AUTH [AUTH_PASSWORD] LOGIN. */
  lemma ExchangeGrammar(config: Config, world: World, trace: seq<Req>) returns (captcha: bool, password: bool)
    requires Chain(config, world, trace)
    ensures Opcodes(trace) <= FullExchange(config.sessionToken.Some?, captcha, password)
  {
    var saved := config.sessionToken.Some?;
    var o := if saved then 1 else 0;
    if |trace| > 0 { WhatStarts(config, world, trace); }
    if |trace| > 1 { WhatFollows(config, world, trace, 1); }
    captcha := HeadGrammar(config, world, trace, o);
    var k := o + |Head(captcha)|;
    password := TailGrammar(config, world, trace, k);
    JoinSpelling(trace, saved, captcha, password);
  }

  lemma JoinSpelling(trace: seq<Req>, saved: bool, captcha: bool, password: bool)
    requires var o := if saved then 1 else 0;
             (saved && trace != [] ==> trace[0].Login?) &&
             Spells(trace, o, Head(captcha)) &&
             Spells(trace, o + |Head(captcha)|, Tail(password)) &&
             |trace| <= o + |Head(captcha)| + |Tail(password)|
    ensures Opcodes(trace) <= FullExchange(saved, captcha, password)
  {
    var full := FullExchange(saved, captcha, password);
    var o := if saved then 1 else 0;
    var k := o + |Head(captcha)|;
    forall i | 0 <= i < |trace| ensures Opcodes(trace)[i] == full[i] {
      if o <= i < k {
        assert full[i] == Head(captcha)[i - o];
      } else if k <= i {
        assert full[i] == Tail(password)[i - k];
      }
    }
    assert Opcodes(trace) == full[..|trace|];
  }

  // ---- The token carried from attempt to attempt ----

  /** One pass of the run loop as the login sees it: whether it got as far as the login,
      what answered, and after how many requests the future was dropped, if it was.
      A drop while the token file is being written is a drop after all requests. */
  datatype Attempt = Attempt(reached: bool, world: World, dropped: Option<nat>)

  /** `failed` is the error the login returned, if it was not dropped. */
  datatype Outcome = Outcome(trace: seq<Req>, returned: Option<string>, failed: Option<Error>)

  /** The token returned by the latest login that returned one. */
  function LatestToken(initial: Option<string>, log: seq<Outcome>): Option<string> {
    if log == [] then initial
    else
      var last := log[|log| - 1];
      if last.returned.Some? then last.returned else LatestToken(initial, log[..|log| - 1])
  }

  /** What attempt a may have done when the token to start from was `token`. */
  ghost predicate Carries(config: Config, token: Option<string>, a: Attempt, o: Outcome) {
    var mine := config.(sessionToken := token);
    && Chain(mine, a.world, o.trace)
    && (!a.reached ==> o.trace == [])
    && (a.reached && a.dropped.None? ==> Complete(mine, a.world, o.trace))
    && (o.trace != [] && token.Some? ==> o.trace[0] == Req.Login(token.value))
    && (o.returned.Some? <==> a.reached && a.dropped.None? && LoggedIn(a.world, o.trace))
    && (o.returned.Some? ==> o.returned.value == o.trace[|o.trace| - 1].token)
    && (o.failed.Some? <==> a.reached && a.dropped.None? && !LoggedIn(a.world, o.trace))
    && (o.failed.Some? ==> o.failed.value == FailureOf(mine, a.world, o.trace))
  }

  ghost predicate CarriesAt(config: Config, attempts: seq<Attempt>, log: seq<Outcome>, i: nat)
    requires i < |log| && |log| <= |attempts|
  {
    Carries(config, LatestToken(config.sessionToken, log[..i]), attempts[i], log[i])
  }

  ghost predicate AllCarry(config: Config, attempts: seq<Attempt>, log: seq<Outcome>) {
    |log| <= |attempts| && forall i | 0 <= i < |log| :: CarriesAt(config, attempts, log, i)
  }

  lemma AllCarryGrows(config: Config, attempts: seq<Attempt>, log: seq<Outcome>, o: Outcome)
    requires AllCarry(config, attempts, log) && |log| < |attempts|
    requires Carries(config, LatestToken(config.sessionToken, log), attempts[|log|], o)
    ensures AllCarry(config, attempts, log + [o])
  {
    var log' := log + [o];
    forall i | 0 <= i < |log'| ensures CarriesAt(config, attempts, log', i) {
      if i < |log| {
        assert CarriesAt(config, attempts, log, i);
        assert log'[..i] == log[..i];
      } else {
        assert log'[..i] == log;
      }
    }
  }

  lemma ChainPrefix(config: Config, world: World, trace: seq<Req>, n: nat)
    requires Chain(config, world, trace) && n <= |trace|
    ensures Chain(config, world, trace[..n])
  {
    forall i | 0 <= i < n ensures Justified(config, world, trace[..n][..i], trace[..n][i]) {
      assert trace[..n][..i] == trace[..i] && trace[..n][i] == trace[i];
    }
  }

  /** One attempt's login, from the working copy of the configuration. */
  method AttemptLogin(config: Config, a: Attempt) returns (o: Outcome)
    ensures Carries(config, config.sessionToken, a, o)
  {
    if !a.reached {
      return Outcome([], None, None);
    }
    var flow := new AuthFlow(config, a.world);
    var result := flow.Login();
    if flow.trace != [] {
      WhatStarts(config, a.world, flow.trace);
    }
    if a.dropped.Some? {
      var n := if a.dropped.value < |flow.trace| then a.dropped.value else |flow.trace|;
      ChainPrefix(config, a.world, flow.trace, n);
      return Outcome(flow.trace[..n], None, None);
    }
    match result
    case Ok(token) => return Outcome(flow.trace, Some(token), None);
    case Err(error) => return Outcome(flow.trace, None, Some(error));
  }

  /** The login returned an error after which the client does not reconnect. */
  predicate Final(o: Outcome) {
    o.failed.Some? && !Recoverable(o.failed)
  }

  /** The working copy of the configuration is the only thing the run loop keeps of a
      login, and it changes only when a login has returned its token. The loop goes on to
      the next attempt unless the login's error is final. */
  method RunAttempts(config: Config, attempts: seq<Attempt>) returns (log: seq<Outcome>)
    ensures AllCarry(config, attempts, log)
    ensures forall i | 0 <= i < |log| - 1 :: !Final(log[i])
    ensures |log| == |attempts| || (log != [] && Final(log[|log| - 1]))
  {
    var working := config;
    log := [];
    while |log| < |attempts|
      invariant |log| <= |attempts| && AllCarry(config, attempts, log)
      invariant forall i | 0 <= i < |log| :: !Final(log[i])
      invariant working == config.(sessionToken := LatestToken(config.sessionToken, log))
    {
      var o := AttemptLogin(working, attempts[|log|]);
      AllCarryGrows(config, attempts, log, o);
      assert (log + [o])[..|log|] == log;
      log := log + [o];
      if o.returned.Some? {
        working := working.(sessionToken := o.returned);
      }
      if o.failed.Some? && !ShouldRetryConnection(o.failed.value) {
        return;
      }
    }
  }

  /** A login that failed is followed by another attempt exactly if a transient failure of
      its connection, of the solver or of the operator ended it; never if the server turned
      it down, or if a field, the phone number or the password was missing. */
  lemma FailedLoginIsRetriedExactly(config: Config, attempts: seq<Attempt>, log: seq<Outcome>, i: nat)
    requires AllCarry(config, attempts, log) && i < |log| && log[i].failed.Some?
    ensures var (o, a) := (log[i], attempts[i]);
      !Final(o) <==> o.trace != [] && WorthAnother(config, a.world, o.trace[|o.trace| - 1], a.world.server(o.trace))
    ensures var (o, a) := (log[i], attempts[i]);
      o.trace != [] && a.world.server(o.trace).Broken? ==> o.failed == Some(a.world.server(o.trace).error)
  {
    assert CarriesAt(config, attempts, log, i);
  }

  /** From the first success on, whatever happens in between: an attempt that reaches the
      login after attempt i, with no success between, starts by presenting the token of
      attempt i. */
  lemma {:induction false} TokenIsCarried(config: Config, attempts: seq<Attempt>, log: seq<Outcome>, i: nat, j: nat)
    requires AllCarry(config, attempts, log) && i < j < |log|
    requires log[i].returned.Some? && (forall k | i < k < j :: log[k].returned.None?) && log[j].trace != []
    ensures LoggedIn(attempts[i].world, log[i].trace)
    ensures log[j].trace[0] == Req.Login(log[i].trace[|log[i].trace| - 1].token)
  {
    assert CarriesAt(config, attempts, log, i) && CarriesAt(config, attempts, log, j);
    LatestIs(config.sessionToken, log, i, j);
  }

  lemma {:induction false} LatestIs(initial: Option<string>, log: seq<Outcome>, i: nat, j: nat)
    requires i < j <= |log| && log[i].returned.Some? && forall k | i < k < j :: log[k].returned.None?
    ensures LatestToken(initial, log[..j]) == log[i].returned
  {
    assert log[..j][..j - 1] == log[..j - 1];
    if i < j - 1 {
      LatestIs(initial, log, i, j - 1);
    }
  }
}
