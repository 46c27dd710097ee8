# Paynl client: request preparation and the handshake cache

A model of the core of the Paynl Node.js client (`index.js`), which calls the
Pay.nl REST API by method identifiers of the form "namespace/action/version".
The model covers:

- **Method identifiers.** The identifier loses one leading and one trailing
  slash and is split on "/". Fewer than three parts is rejected with
  `Expected a "namespace/method/version" syntax.`. Otherwise the first three
  parts are namespace, action and version. Empty parts are accepted, and any
  parts after the third are ignored (`MethodId`).
- **The request.** Protocol and host come from the configuration. The path is
  `version/namespace/action/responseFormat`. The parameters become the query
  only when `typeof params === 'object'`, which includes `null` (`Dispatch`).
- **Whether a call needs a handshake.** The answer is yes when the
  namespace's table cannot be loaded. Otherwise the truthiness of the table's
  entry at "action/version" decides, so a missing entry means no handshake
  (`MethodId.RequiresHandshake`).
- **The handshake cache.** All clients share one process-wide pair,
  `handshake` and `handshakeTime`. The pair is reused while the key is truthy
  and `handshakeTime + handshakeTimeout > now`. Otherwise the client logs in.
  It uses account id and token when both are truthy, and otherwise username,
  password and company id when all three are truthy; with neither set complete
  it rejects with
  `Can't create handshake without credentials.`. The cache is updated only
  when the login returns a truthy `result`. The credential handed out is
  `handshakeUser + ":" + key` (`Session`, `Paynl.Client.Handshake`).
- **Configuration.** One configuration record lives on the prototype and is
  shared by every client. `configure` shallow-merges new settings into it
  (`Config.Merge`, `Paynl.Client.Configure`).

JavaScript values are the datatype `JsValue.Value`, with JavaScript
truthiness. A missing property (`undefined`) is `None`. A call's promise is an
`Outcome`: it resolves, it rejects with a `Failure`, or it stays `Unsettled`
when the callback meant to settle it throws instead.

The shared state uses two objects. `Paynl.Prototype` holds the configuration
and `Paynl.HandshakeState` holds the module-level cache. Every `Paynl.Client`
built on the same objects shares them, by aliasing, as every `Paynl` instance
shares `Paynl.prototype.config` and the module variables.

The effects are parameters of the calls:

- the clock on entry, `now` (`Date.now()` at index.js:163);
- the clock once the login has answered, `after` (`Date.now()` at index.js:204);
- the local address;
- the SHA-1 hex digest, as a function `hash`;
- the reply the login call gets;
- the transport;
- the JSON decoder.

The methods return the login and the request they actually sent, so "no login
was attempted" can be stated.

Where the code does something a reader might not expect, the model follows
the code:

- A loaded table without an entry for the call means no handshake, not a
  handshake.
- `handshakeTimeout` is meant as seconds: the comment at index.js:45 says
  "Create a new handshake every hour" for 3600. The code adds it to a
  millisecond clock. A cached key is therefore reused for
  3600 ms (`Session.DefaultLifetime`).
- The cache time is a second clock reading, taken after the login answers,
  not the reading used for the freshness test.
- A body that fails to decode does not reject (index.js:141). `JSON.parse`
  throws inside the transport library's callback, outside any promise
  handler. The exception is uncaught, so by default Node exits, and the call
  never settles.
- A login response that decodes to `null` makes `response.result` throw
  inside the login callback, so the handshake never settles either.
- Identifiers with empty parts (`a//b`) are accepted.

## Model

| member | source | states |
|---|---|---|
| `Config.Merge` | index.js:54-56 | every key of the update takes its new value, every other key keeps its old one, and no key is lost |
| `Config.MergeLaterWins` | index.js:54-56 | configuring twice with the same settings changes nothing more; a later configure wins on shared keys |
| `Config.MergeKeepsDefaults` | index.js:41-47 | the default settings stay present through any configure, and keep their values unless overridden |
| `Paynl.Prototype.constructor` | index.js:41-47 | the shared configuration starts as the five defaults |
| `Paynl.HandshakeState.constructor` | index.js:19-20 | the cache starts as `handshake = false`, `handshakeTime = 0` |
| `Paynl.Client.constructor` | index.js:28-30 | a new client merges its configuration into the shared prototype |
| `Paynl.Client.Configure` | index.js:54-56 | the shared configuration becomes the shallow merge of the old one and the argument |
| `MethodId.Strip` | index.js:70 | at most one leading and one trailing slash is removed, a leading slash is always removed, and a string of two or more characters with slashes at both ends loses exactly those two |
| `MethodId.Split` | index.js:70 | the parts have no slash, number one more than the slashes, and join back to the input |
| `MethodId.SplitJoin` | index.js:70 | splitting undoes joining slash-free parts |
| `MethodId.StripOuterSlashes` | index.js:70 | surrounding slashes are removed exactly once, never repeatedly |
| `MethodId.StripKeepsInner` | index.js:70 | an identifier without outer slashes is not changed |
| `MethodId.Parse` | index.js:70-89 | rejected exactly when the normalised identifier has fewer than two slashes; the parsed parts contain no slash |
| `MethodId.ParseThreeParts` | index.js:70-89 | "ns/action/version" parses to exactly those parts (action may be empty) |
| `MethodId.ParseTakesFirstThree` | index.js:86-89 | with more parts, namespace/action/version are the first three, a prefix of the normalised identifier ending at a slash |
| `MethodId.Path` | index.js:93 | the path is `version/namespace/action/format`, the four parts joined by slashes in that order |
| `MethodId.TableKey` | index.js:103 | a namespace table is read at `action/version` |
| `MethodId.RequiresHandshake` | index.js:86-109 | when the namespace's table loads, a handshake is needed exactly when it holds a truthy entry at `action/version`; otherwise one is needed (the initial `true` at index.js:86) |
| `MethodId.PathSegments` | index.js:93 | the path splits back into version, namespace, action and format |
| `MethodId.HandshakeDefaults` | index.js:101-106 | no loadable table means a handshake; a missing entry means none; otherwise the entry's truthiness decides |
| `Outcomes.Failure.Message` | index.js:80 | an invalid method carries exactly `Expected a "namespace/method/version" syntax.`, missing credentials exactly `Can't create handshake without credentials.` (index.js:195); no other failure has a message of the client's own |
| `Dispatch.Describe` | index.js:90-99 | protocol and host are the configured ones; the query is present exactly when the parameters are an object or null, and then is them; no credential yet |
| `Dispatch.RequestPath` | index.js:93 | the request path of a parsed identifier reads back as version, namespace, action, format |
| `Dispatch.DefaultRequest` | index.js:90-94 | with the defaults the request is https, rest-api.pay.nl, path `version/namespace/action/json` |
| `Dispatch.Deliver` | index.js:136-141 | a transport error rejects with it; an empty body resolves to ""; other bodies resolve to their decoding, or never settle when they do not decode (the exception is uncaught) |
| `Session.ResultOf` | index.js:202 | reading `result` throws exactly on null; on an object it reads the `result` key (undefined when absent); on any other value it reads undefined |
| `Session.ResultOfStored` | index.js:202 | a `result` stored in an object is what the read returns, and an object without one reads undefined |
| `Session.AuthPrefix` | index.js:160 | the credential's user half is the text of `handshakeUser` (`undefined` when unset) followed by one colon |
| `Session.HashInput` | index.js:184 | the hashed text starts with the token's text, and for a non-negative clock the rest is the decimal digits of `Math.floor(now / 1000)`, without leading zeros |
| `Session.Expiry` | index.js:168 | `handshakeTime + handshakeTimeout` is a number exactly when the timeout is set and is a number, boolean or null; a number timeout is added as it is |
| `Session.Fresh` | index.js:168 | a cache is used only while its key is truthy; with a number timeout, exactly while `handshakeTime + handshakeTimeout > now` |
| `Session.SelectLogin` | index.js:179-198 | a login exists exactly when one credential set is complete; token login wins, with the account id and the hash of token and whole seconds; otherwise username, password, company id; both carry the IP address |
| `Session.HandshakeStep` | index.js:152-214 | a login is sent exactly when the cache is stale and credentials exist; the cache changes only on a resolved login, to a truthy key stamped `after`; a resolved credential is always `handshakeUser:` plus the cached key |
| `Session.CacheHit` | index.js:160-174 | a fresh cache resolves with the cached credential, sends nothing, changes nothing |
| `Session.NoCredentials` | index.js:194-196 | a stale cache without credentials rejects with the missing-credentials error, sends nothing, changes nothing |
| `Session.LoginReply` | index.js:201-210 | a truthy `result` is cached with the later clock and returned; a rejected login passes its error on; a reply without a truthy `result` (an empty body's `""`, a string, number or boolean included) rejects with the reply; a `null` reply or a login that never settles leaves the handshake unsettled; only the first case touches the cache |
| `Session.ReuseWithinTimeout` | index.js:168-206 | after a login, a request before `after + timeout` reuses the stored credential with no second login |
| `Session.LoginAfterExpiry` | index.js:168-201 | once `handshakeTime + timeout <= now`, the next request sends the selected login |
| `Session.DefaultLifetime` | index.js:163-168 | with the default timeout a key is reused for 3600 clock units (milliseconds), not an hour |
| `Session.SameSecondSameLogin` | index.js:184 | two requests in the same second send the same login |
| `Session.DistinctSecondsDistinctInput` | index.js:184 | requests in different seconds hash different texts |
| `Session.LoginMethodParses` | index.js:201 | the login method "Authentication/<action>/v2" parses as that identifier |
| `Paynl.Client.Handshake` | index.js:152-214 | the outcome, the new cache and the login sent are those of `HandshakeStep` on the shared configuration and the old cache |
| `Paynl.Client.Invoke` | index.js:65-120 | a malformed identifier rejects with nothing sent and the cache unchanged; without a handshake the described request is sent; with one, the cache and login follow `HandshakeStep` and a credential is attached or its failure is the outcome; a sent request's outcome is its delivery |

## Left out

- Transport and URL serialisation (`request`, `url.format`): the transport is a function from the request to a raw body or an error.
- Response-format selection by name (index.js:132): the JSON parser is the only one modelled; decoding is a function parameter, with the empty-body branch of lib/bodyParser/json.js:9 kept.
- SHA-1 (`crypto.createHash`) is a function parameter. Node refuses to reuse the single module-level hash object after `digest()`, so a second token login would throw; that is not modelled.
- The local address (`ip.address()`) is a string parameter.
- Loading a namespace's table (`require('./lib/api/' + namespace)`) is a map from namespace to table; a namespace that does not load is absent. The tables themselves are not part of this model.
- The nested login call goes through `invoke` again. Here it is an abstract reply (resolved response, rejection, or never settling); its own handshake decision for the Authentication namespace is not modelled.
- Asynchrony (`Q` deferreds, `process.nextTick`): outcomes are sequential values; the order of ticks is not modelled, nor is a reconfiguration between a call and its tick.
- Concurrent refreshes of the shared cache by overlapping calls are not modelled.
- `extend` skips a value that is the target object itself; configuration values here are plain values, so that case does not arise. `undefined` values, which `extend` skips, are absent keys.
- A `method` argument that is not a string (the source throws synchronously) is outside the model: identifiers are strings.
- Session.Fresh: a string-valued `handshakeTimeout` is treated as never fresh; JavaScript would concatenate it to the time and compare the resulting text as a number.
- Session.HashInput: a token that is a number, boolean or null is written as text; JavaScript would add it numerically to the seconds, and the digest call would then throw.
- JsValue.Decimal: JavaScript prints integers from 10^21 on in exponent notation; numbers are integers here (no fractions, no NaN), and arrays are objects.
