/** The handshake: a session credential obtained by logging in, cached
    process-wide together with the time it was obtained, and reused while
    fresh. This module holds the pure decisions; the cache itself is the
    `HandshakeState` object of module Paynl. */
module Session {
  import opened JsValue
  import opened Config
  import opened Outcomes
  import MethodId

  /** The process-wide cache: the last handshake key (`false` before the first
      login) and the clock reading taken when it was stored. */
  datatype Cache = Cache(handshake: Value, time: int)

  const Initial := Cache(Bool(false), 0)

  const IpAddress := "ipAddress"

  /** A login the client sends: "Authentication/<action>/v2" with its parameters. */
  datatype LoginCall = LoginCall(action: string, params: map<string, Value>) {
    function Method(): string {
      MethodId.Join(["Authentication", action, "v2"])
    }
  }

  /** What a completed handshake produces, its new cache, and the login it
      sent, if any. */
  datatype Step = Step(outcome: Outcome<string>, cache: Cache, sent: Option<LoginCall>)

  /** Reading `response.result`: `null` throws, other non-objects read `undefined`. */
  datatype Read = Read(value: Option<Value>) | Throws

  function ResultOf(response: Value): (r: Read)
    ensures r.Throws? <==> response.Null?
    ensures response.Obj? ==> r == Read(Get(response.fields, "result"))
    ensures !response.Obj? && !response.Null? ==> r == Read(None)
  {
    match response
    case Null => Throws
    case Obj(fields) => Read(Get(fields, "result"))
    case _ => Read(None)
  }

  /** Storing a `result` in an object makes reading it return that value;
      removing the key makes the read `undefined`. */
  lemma ResultOfStored(fields: map<string, Value>, v: Value)
    ensures ResultOf(Obj(fields["result" := v])) == Read(Some(v))
    ensures ResultOf(Obj(fields - {"result"})) == Read(None)
  {
  }

  predicate HasTokenCredentials(config: Config) {
    TruthyProp(Get(config, AccountId)) && TruthyProp(Get(config, Token))
  }

  predicate HasPasswordCredentials(config: Config) {
    TruthyProp(Get(config, Username)) && TruthyProp(Get(config, Password))
    && TruthyProp(Get(config, CompanyId))
  }

  /** The text that is hashed for a token login: the token followed by the
      clock in whole seconds, `Math.floor(now / 1000)` (Dafny's division by a
      positive divisor rounds down, as `Math.floor` does). */
  function HashInput(token: Value, now: int): (r: string)
    ensures |r| > |ToStr(token)| && r[..|ToStr(token)|] == ToStr(token)
    ensures now >= 0 ==> var secs := r[|ToStr(token)|..];
                         && AllDigits(secs) && DigitsValue(secs) == now / 1000
                         && (|secs| == 1 || secs[0] != '0')
  {
    var t := ToStr(token);
    var r := t + Decimal(now / 1000);
    assert r[..|t|] == t && r[|t|..] == Decimal(now / 1000);
    DigitsValueOfNatDecimal(if now >= 0 then now / 1000 else 0);
    r
  }

  /** The login to send, by credential priority: account id and token first,
      then username, password and company id; none when neither set is
      complete. */
  function SelectLogin(config: Config, now: int, ip: string, hash: string -> string): (r: Option<LoginCall>)
    ensures r.Some? <==> HasTokenCredentials(config) || HasPasswordCredentials(config)
    ensures r.Some? ==> IpAddress in r.value.params && r.value.params[IpAddress] == Str(ip)
    ensures HasTokenCredentials(config) ==>
              && r.value.action == "loginByToken"
              && r.value.params.Keys == {AccountId, Token, IpAddress}
              && r.value.params[AccountId] == config[AccountId]
              && r.value.params[Token] == Str(hash(HashInput(config[Token], now)))
    ensures !HasTokenCredentials(config) && HasPasswordCredentials(config) ==>
              && r.value.action == "login"
              && r.value.params.Keys == {Username, Password, CompanyId, IpAddress}
              && r.value.params[Username] == config[Username]
              && r.value.params[Password] == config[Password]
              && r.value.params[CompanyId] == config[CompanyId]
  {
    if HasTokenCredentials(config) then
      Some(LoginCall("loginByToken", map[
        AccountId := config[AccountId],
        Token := Str(hash(HashInput(config[Token], now))),
        IpAddress := Str(ip)]))
    else if HasPasswordCredentials(config) then
      Some(LoginCall("login", map[
        Username := config[Username],
        Password := config[Password],
        CompanyId := config[CompanyId],
        IpAddress := Str(ip)]))
    else
      None
  }

  /** `time + timeout` as JavaScript computes it when it stays a number:
      `null` adds nothing and a boolean adds 0 or 1. `undefined` gives NaN. An
      object is first turned into text, so `time + {}` is the string
      "<time>[object Object]"; the comparison `> now` then converts that string
      to a number, which is NaN. NaN compares false, so the cache is never
      fresh. A string timeout is also taken as never fresh here, although
      JavaScript would read the joined text back as a number. */
  function Expiry(time: int, timeout: Option<Value>): (r: Option<int>)
    ensures r.Some? <==> timeout.Some? && !timeout.value.Str? && !timeout.value.Obj?
    ensures timeout.Some? && timeout.value.Num? ==> r == Some(time + timeout.value.n)
  {
    match timeout
    case Some(Num(n)) => Some(time + n)
    case Some(Bool(b)) => Some(time + (if b then 1 else 0))
    case Some(Null) => Some(time)
    case _ => None
  }

  /** The cache may be used: it holds a truthy handshake and
      `handshakeTime + handshakeTimeout > now`. */
  predicate Fresh(cache: Cache, config: Config, now: int)
    ensures Fresh(cache, config, now) ==> Truthy(cache.handshake)
    ensures HandshakeTimeout in config && config[HandshakeTimeout].Num? ==>
              (Fresh(cache, config, now) <==>
                 Truthy(cache.handshake) && cache.time + config[HandshakeTimeout].n > now)
  {
    Truthy(cache.handshake)
    && var e := Expiry(cache.time, Get(config, HandshakeTimeout)); e.Some? && e.value > now
  }

  /** `handshakeUser + ':'`, the user half of the credential. */
  function AuthPrefix(config: Config): (r: string)
    ensures |r| >= 1 && r[|r| - 1] == ':'
    ensures r[..|r| - 1] == Text(Get(config, HandshakeUser))
  {
    Text(Get(config, HandshakeUser)) + ":"
  }

  /** One handshake request against the cache: `now` is the clock when it is
      asked for, `after` the clock when a successful login is stored, `login`
      the reply the login call gets. */
  function HandshakeStep(config: Config, cache: Cache, now: int, after: int, ip: string,
                         hash: string -> string, login: LoginCall -> Outcome<Value>): (r: Step)
    ensures r.sent.Some? <==> !Fresh(cache, config, now)
                              && (HasTokenCredentials(config) || HasPasswordCredentials(config))
    ensures r.sent.Some? ==> r.sent == SelectLogin(config, now, ip, hash)
    ensures r.cache != cache ==> r.sent.Some? && login(r.sent.value).Resolved?
                                 && Truthy(r.cache.handshake) && r.cache.time == after
    ensures r.outcome.Resolved? ==> r.outcome.value == AuthPrefix(config) + ToStr(r.cache.handshake)
                                    && Truthy(r.cache.handshake)
    ensures !Fresh(cache, config, now) && r.sent.None? ==> r.outcome == Rejected(MissingCredentials)
  {
    var prefix := AuthPrefix(config);
    if Fresh(cache, config, now) then
      Step(Resolved(prefix + ToStr(cache.handshake)), cache, None)
    else
      match SelectLogin(config, now, ip, hash)
      case None => Step(Rejected(MissingCredentials), cache, None)
      case Some(call) =>
        match login(call)
        case Rejected(e) => Step(Rejected(e), cache, Some(call))
        case Unsettled => Step(Unsettled, cache, Some(call))
        case Resolved(response) =>
          match ResultOf(response)
          case Throws => Step(Unsettled, cache, Some(call))
          case Read(result) =>
            if TruthyProp(result) then
              Step(Resolved(prefix + ToStr(result.value)), Cache(result.value, after), Some(call))
            else
              Step(Rejected(LoginRefused(response)), cache, Some(call))
  }

  // ---------------------------------------------------------------------
  // Lemmas

  /** A fresh cache answers at once: no login, cache unchanged. */
  lemma CacheHit(config: Config, cache: Cache, now: int, after: int, ip: string,
                 hash: string -> string, login: LoginCall -> Outcome<Value>)
    requires Fresh(cache, config, now)
    ensures HandshakeStep(config, cache, now, after, ip, hash, login)
            == Step(Resolved(AuthPrefix(config) + ToStr(cache.handshake)), cache, None)
  {
  }

  /** Without credentials a stale cache rejects, sends nothing, changes nothing. */
  lemma NoCredentials(config: Config, cache: Cache, now: int, after: int, ip: string,
                      hash: string -> string, login: LoginCall -> Outcome<Value>)
    requires !Fresh(cache, config, now)
    requires !HasTokenCredentials(config) && !HasPasswordCredentials(config)
    ensures HandshakeStep(config, cache, now, after, ip, hash, login)
            == Step(Rejected(MissingCredentials), cache, None)
  {
  }

  /** The login's reply decides: a truthy `result` is cached with the later
      clock and returned; any other reply leaves the cache as it was. A
      rejection is passed on, a reply without a truthy `result` (an empty body's
      `""` included) rejects with the reply, and a `null` reply or a login that
      never settles leaves the handshake unsettled. */
  lemma LoginReply(config: Config, cache: Cache, now: int, after: int, ip: string,
                   hash: string -> string, login: LoginCall -> Outcome<Value>)
    requires !Fresh(cache, config, now)
    requires HasTokenCredentials(config) || HasPasswordCredentials(config)
    ensures var call := SelectLogin(config, now, ip, hash).value;
            var r := HandshakeStep(config, cache, now, after, ip, hash, login);
            var reply := login(call);
            && r.sent == Some(call)
            && (if reply.Resolved? && reply.value.Obj? && TruthyProp(Get(reply.value.fields, "result"))
                then var v := reply.value.fields["result"];
                     r.outcome == Resolved(AuthPrefix(config) + ToStr(v)) && r.cache == Cache(v, after)
                else !r.outcome.Resolved? && r.cache == cache)
            && (reply.Rejected? ==> r.outcome == Rejected(reply.error))
            && (reply.Resolved? && !reply.value.Null? && !TruthyProp(ResultOf(reply.value).value)
                ==> r.outcome == Rejected(LoginRefused(reply.value)))
            && (reply.Unsettled? || reply == Resolved(Null) ==> r.outcome == Unsettled)
  {
  }

  /** Asking again before the handshake times out reuses the key the login
      stored: no second login, the same credential, the cache untouched. */
  lemma ReuseWithinTimeout(config: Config, cache: Cache, now: int, after: int, ip: string,
                           hash: string -> string, login: LoginCall -> Outcome<Value>,
                           now2: int, after2: int, ip2: string, hash2: string -> string,
                           login2: LoginCall -> Outcome<Value>, timeout: int)
    requires Get(config, HandshakeTimeout) == Some(Num(timeout))
    requires HandshakeStep(config, cache, now, after, ip, hash, login).outcome.Resolved?
    requires now2 < after + timeout
    ensures var first := HandshakeStep(config, cache, now, after, ip, hash, login);
            var second := HandshakeStep(config, first.cache, now2, after2, ip2, hash2, login2);
            first.sent.Some? ==> second == Step(first.outcome, first.cache, None)
  {
  }

  /** Once `handshakeTime + handshakeTimeout` is reached, the next request logs
      in again (when credentials are configured). */
  lemma LoginAfterExpiry(config: Config, cache: Cache, now: int, after: int, ip: string,
                         hash: string -> string, login: LoginCall -> Outcome<Value>, timeout: int)
    requires Get(config, HandshakeTimeout) == Some(Num(timeout))
    requires cache.time + timeout <= now
    requires HasTokenCredentials(config) || HasPasswordCredentials(config)
    ensures HandshakeStep(config, cache, now, after, ip, hash, login).sent
            == SelectLogin(config, now, ip, hash)
  {
  }

  /** The default timeout of 3600 is added to a millisecond clock, so a cached
      handshake is used for 3600 ms of `Date.now()`, not for an hour. */
  lemma DefaultLifetime(cache: Cache, now: int)
    requires Truthy(cache.handshake)
    ensures Fresh(cache, Defaults, now) <==> now < cache.time + 3600
  {
  }

  /** Two token logins in the same second hash the same text. */
  lemma SameSecondSameLogin(config: Config, now1: int, now2: int, ip: string, hash: string -> string)
    requires now1 / 1000 == now2 / 1000
    ensures SelectLogin(config, now1, ip, hash) == SelectLogin(config, now2, ip, hash)
  {
  }

  /** Token logins in different seconds hash different texts. */
  lemma DistinctSecondsDistinctInput(token: Value, now1: int, now2: int)
    requires now1 / 1000 != now2 / 1000
    ensures HashInput(token, now1) != HashInput(token, now2)
  {
    DecimalInjective(now1 / 1000, now2 / 1000);
    var t := ToStr(token);
    assert HashInput(token, now1)[|t|..] == Decimal(now1 / 1000);
    assert HashInput(token, now2)[|t|..] == Decimal(now2 / 1000);
  }

  /** The login method string goes through the same parser as any other call
      and names the Authentication namespace, the login action and "v2". */
  lemma LoginMethodParses(call: LoginCall)
    requires MethodId.NoSlash(call.action)
    ensures MethodId.Parse(call.Method()) == Some(MethodId.Identifier("Authentication", call.action, "v2"))
  {
    var parts := ["Authentication", call.action, "v2"];
    MethodId.JoinFirstThree(parts);
    assert call.Method() == "Authentication" + "/" + call.action + "/" + "v2";
    assert MethodId.NoSlash("Authentication") && MethodId.NoSlash("v2");
    MethodId.ParseThreeParts("Authentication", call.action, "v2");
  }
}
