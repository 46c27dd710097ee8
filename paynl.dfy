/** The Paynl client: a configuration shared by every client built on the same
    prototype, the process-wide handshake cache, and the calls that use them.
    The clock, the local address, the SHA-1 digest, the login reply, the
    transport and the JSON decoder are parameters of the calls. */
module Paynl {
  import opened JsValue
  import opened Config
  import opened Outcomes
  import opened MethodId
  import opened Session
  import opened Dispatch

  /** `Paynl.prototype.config`: one record that every client built on this
      prototype reads and reconfigures. */
  class Prototype {
    var config: Config

    constructor()
      ensures config == Defaults
    {
      config := Defaults;
    }
  }

  /** The module-level `handshake` and `handshakeTime` that all clients share. */
  class HandshakeState {
    var handshake: Value
    var handshakeTime: int

    constructor()
      ensures Snapshot() == Initial
    {
      handshake := Bool(false);
      handshakeTime := 0;
    }

    function Snapshot(): Cache
      reads this
    {
      Cache(handshake, handshakeTime)
    }
  }

  class Client {
    const proto: Prototype
    const state: HandshakeState

    /** `new Paynl(config)`: configures the shared prototype. */
    constructor(proto: Prototype, state: HandshakeState, config: Config)
      modifies proto
      ensures this.proto == proto && this.state == state
      ensures proto.config == Merge(old(proto.config), config)
    {
      this.proto := proto;
      this.state := state;
      new;
      Configure(config);
    }

    /** Shallow-merges `config` into the shared configuration. */
    method Configure(config: Config)
      modifies proto
      ensures proto.config == Merge(old(proto.config), config)
    {
      proto.config := Merge(proto.config, config);
    }

    /** The "user:key" credential: from the cache while it is fresh, otherwise
        by logging in with the configured credentials and caching a truthy
        result. `now` is the clock on entry, `after` the clock once the login
        has answered. */
    method Handshake(now: int, after: int, ip: string, hash: string -> string,
                     login: LoginCall -> Outcome<Value>)
      returns (outcome: Outcome<string>, sent: Option<LoginCall>)
      modifies state
      ensures Step(outcome, state.Snapshot(), sent)
              == HandshakeStep(proto.config, old(state.Snapshot()), now, after, ip, hash, login)
    {
      var config := proto.config;
      var authString := AuthPrefix(config);
      var expiry := Expiry(state.handshakeTime, Get(config, HandshakeTimeout));
      if Truthy(state.handshake) && expiry.Some? && expiry.value > now {
        return Resolved(authString + ToStr(state.handshake)), None;
      }
      sent := SelectLogin(config, now, ip, hash);
      if sent.None? {
        return Rejected(MissingCredentials), None;
      }
      var reply := login(sent.value);
      match reply {
        case Rejected(e) =>
          outcome := Rejected(e);
        case Unsettled =>
          outcome := Unsettled;
        case Resolved(response) =>
          var result := ResultOf(response);
          if result.Throws? {
            outcome := Unsettled;
          } else if TruthyProp(result.value) {
            state.handshake := result.value.value;
            state.handshakeTime := after;
            outcome := Resolved(authString + ToStr(state.handshake));
          } else {
            outcome := Rejected(LoginRefused(response));
          }
      }
    }

    /** Calls the API method named by `m`: rejects a malformed identifier
        without doing anything else, obtains a handshake when the namespace's
        table asks for one, and sends the request. Returns the outcome, the
        login sent (if any) and the request sent (if any). */
    method Invoke(m: string, params: Option<Value>, tables: Tables, now: int, after: int,
                  ip: string, hash: string -> string, login: LoginCall -> Outcome<Value>,
                  send: Request -> Response, decode: string -> Option<Value>)
      returns (outcome: Outcome<Value>, loginSent: Option<LoginCall>, sent: Option<Request>)
      modifies state
      ensures Parse(m).None? ==>
                && outcome == Rejected(InvalidMethod)
                && loginSent.None? && sent.None? && unchanged(state)
      ensures Parse(m).Some? && !RequiresHandshake(tables, Parse(m).value) ==>
                && loginSent.None? && unchanged(state)
                && sent == Some(Describe(proto.config, Parse(m).value, params))
      ensures Parse(m).Some? && RequiresHandshake(tables, Parse(m).value) ==>
                var h := HandshakeStep(proto.config, old(state.Snapshot()), now, after, ip, hash, login);
                && state.Snapshot() == h.cache && loginSent == h.sent
                && (h.outcome.Resolved? ==>
                      sent == Some(Describe(proto.config, Parse(m).value, params).(auth := Some(h.outcome.value))))
                && (h.outcome.Rejected? ==> sent.None? && outcome == Rejected(h.outcome.error))
                && (h.outcome.Unsettled? ==> sent.None? && outcome.Unsettled?)
      ensures sent.Some? ==> outcome == Deliver(send(sent.value), decode)
    {
      var id := Parse(m);
      if id.None? {
        return Rejected(InvalidMethod), None, None;
      }
      var request := Describe(proto.config, id.value, params);
      if RequiresHandshake(tables, id.value) {
        var credentials;
        credentials, loginSent := Handshake(now, after, ip, hash, login);
        match credentials {
          case Resolved(auth) =>
            sent := Some(request.(auth := Some(auth)));
            outcome := Deliver(send(sent.value), decode);
          case Rejected(e) =>
            outcome, sent := Rejected(e), None;
          case Unsettled =>
            outcome, sent := Unsettled, None;
        }
      } else {
        loginSent, sent := None, Some(request);
        outcome := Deliver(send(request), decode);
      }
    }
  }
}
