/** The client configuration: a record of named settings with defaults, which
    reconfiguration merges new settings into. */
module Config {
  import opened JsValue

  type Config = map<string, Value>

  const ApiUrl := "apiUrl"
  const HandshakeUser := "handshakeUser"
  const ApiProtocol := "apiProtocol"
  const HandshakeTimeout := "handshakeTimeout"
  const ResponseFormat := "responseFormat"
  const AccountId := "accountId"
  const Token := "token"
  const Username := "username"
  const Password := "password"
  const CompanyId := "companyId"

  /** The settings every client starts from. */
  const Defaults: Config := map[
    ApiUrl := Str("rest-api.pay.nl"),
    HandshakeUser := Str("handshake"),
    ApiProtocol := Str("https"),
    HandshakeTimeout := Num(3600),
    ResponseFormat := Str("json")
  ]

  /** Shallow merge: every key of `update` takes its new value, every other key
      keeps the one it had, and no key is lost. */
  function Merge(config: Config, update: Config): (r: Config)
    ensures r.Keys == config.Keys + update.Keys
    ensures forall k :: k in update ==> r[k] == update[k]
    ensures forall k :: k in config && k !in update ==> r[k] == config[k]
  {
    config + update
  }

  /** Merging the same settings twice is merging them once, and a later merge
      wins over an earlier one on the keys they share. */
  lemma MergeLaterWins(config: Config, first: Config, second: Config)
    ensures Merge(Merge(config, first), first) == Merge(config, first)
    ensures Merge(Merge(config, first), second) == Merge(config, Merge(first, second))
  {
  }

  /** The defaults survive any sequence of merges that does not override them. */
  lemma MergeKeepsDefaults(config: Config, update: Config)
    requires Defaults.Keys <= config.Keys
    ensures Defaults.Keys <= Merge(config, update).Keys
    ensures forall k :: k in Defaults && k !in update ==> Merge(config, update)[k] == config[k]
  {
  }
}
