/** The outbound request: the URL parts built from the configuration and the
    method identifier, and how the transport's reply becomes the call's outcome. */
module Dispatch {
  import opened JsValue
  import opened Config
  import opened Outcomes
  import opened MethodId

  /** The URL object handed to the transport: protocol and host from the
      configuration, the path, the query, and the "user:key" credential. */
  datatype Request = Request(protocol: Option<Value>, hostname: Option<Value>, pathname: string,
                             query: Option<Value>, auth: Option<string>)

  /** What the transport reports: a raw body, or its own error. */
  datatype Response = Delivered(body: string) | TransportFailed(cause: Value)

  /** The request for a parsed call, before any credential is attached; the
      parameters become the query only when `typeof params === 'object'`. */
  function Describe(config: Config, id: Identifier, params: Option<Value>): (r: Request)
    ensures r.protocol == Get(config, ApiProtocol) && r.hostname == Get(config, ApiUrl)
    ensures r.query.Some? <==> IsObject(params)
    ensures r.query.Some? ==> r.query == params
    ensures r.auth.None?
  {
    Request(Get(config, ApiProtocol), Get(config, ApiUrl),
            Path(id, JoinText(Get(config, ResponseFormat))),
            if IsObject(params) then params else None,
            None)
  }

  /** The outcome of a delivered request under the JSON body parser: a transport
      error rejects with that error; an empty body resolves to ""; any other
      body resolves to its decoding, and a body that does not decode throws
      outside the promise, which then never settles. */
  function Deliver(response: Response, decode: string -> Option<Value>): (r: Outcome<Value>)
    ensures r.Rejected? <==> response.TransportFailed?
    ensures r.Rejected? ==> r.error == TransportError(response.cause)
    ensures response == Delivered("") ==> r == Resolved(Str(""))
    ensures r.Unsettled? <==> response.Delivered? && response.body != "" && decode(response.body).None?
    ensures r.Resolved? && response.body != "" ==> decode(response.body) == Some(r.value)
  {
    match response
    case TransportFailed(cause) => Rejected(TransportError(cause))
    case Delivered(body) =>
      if body == "" then Resolved(Str(""))
      else match decode(body)
        case Some(v) => Resolved(v)
        case None => Unsettled
  }

  /** The path of the request for a method string reads back, split at its
      slashes, as version, namespace, action and response format. */
  lemma RequestPath(config: Config, m: string, params: Option<Value>)
    requires Parse(m).Some?
    requires NoSlash(JoinText(Get(config, ResponseFormat)))
    ensures var id := Parse(m).value;
            Split(Describe(config, id, params).pathname)
            == [id.version, id.namespace, id.action, JoinText(Get(config, ResponseFormat))]
  {
    PathSegments(Parse(m).value, JoinText(Get(config, ResponseFormat)));
  }

  /** With the default configuration the request goes to
      https://rest-api.pay.nl/<version>/<namespace>/<action>/json. */
  lemma DefaultRequest(id: Identifier, params: Option<Value>)
    ensures var r := Describe(Defaults, id, params);
            && r.protocol == Some(Str("https")) && r.hostname == Some(Str("rest-api.pay.nl"))
            && r.pathname == id.version + "/" + id.namespace + "/" + id.action + "/" + "json"
  {
    assert JoinText(Get(Defaults, ResponseFormat)) == "json";
  }
}
