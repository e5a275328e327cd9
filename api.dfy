/** The API factory: given default options, a registry of endpoints, a
    connector and the schema validator, a call merges options, validates the
    caller's parameters, builds the request, calls the connector once,
    validates the response and returns it.  The validator and the connector
    are foreign code and are parameters here; their calls and the warnings
    are recorded, in order, as the call's effects. */
module Api {
  import opened Interfaces

  /** An endpoint descriptor: URL, method and the JSON schema documents of
      its request and response (what their `toJSONSchema()` produces). */
  datatype Endpoint = Endpoint(url: string, httpMethod: Method, request: Json, response: Json)

  /** The first argument of a call: a registry key or a descriptor. */
  datatype EndpointRef = Key(name: string) | Descriptor(endpoint: Endpoint)

  /** A JavaScript object literal handed to the validator. */
  type Instance = map<string, Maybe<Json>>

  /** What one call of the validator does: report valid, report invalid, or
      throw (which it does when `throwError` asks it to). */
  datatype Verdict = Valid | Invalid | Thrown(error: Json)

  type Validator = (Instance, Json, ValidatorOptions) -> Verdict

  /** How the connector's promise settles. */
  datatype Reply = Resolved(response: ResponseParameter) | Rejected(reason: Json)

  type Connector = RequestParameter -> Reply

  datatype Phase = RequestPhase | ResponsePhase

  /** An observable step of a call. */
  datatype Effect =
    | Validated(phase: Phase, instance: Instance, schema: Json, options: ValidatorOptions)
    | Warned(message: string)
    | Connected(request: RequestParameter)

  /** Why a call's promise rejects.  EndpointUndefined is the TypeError raised
      by reading a property of the `undefined` an unknown key looks up. */
  datatype Failure =
    | ValidationError(phase: Phase, error: Json)
    | ConnectorError(reason: Json)
    | EndpointUndefined(key: string)

  datatype Outcome = Returned(response: ResponseParameter) | Raised(failure: Failure)

  /** How a call settles, and everything it did on the way. */
  datatype Call = Call(outcome: Outcome, effects: seq<Effect>)

  /** What `apiFactory(defaultOptions, endpoints, connector)` closes over,
      together with the validator it uses. */
  datatype ApiInstance = ApiFactory(
    defaultOptions: Options,
    endpoints: map<string, Endpoint>,
    connector: Connector,
    validator: Validator)

  const RequestWarning := "[api] request parameter validation failed."
  const ResponseWarning := "[api] response parameter validation failed."

  function WarningFor(phase: Phase): string {
    match phase
    case RequestPhase => RequestWarning
    case ResponsePhase => ResponseWarning
  }

  /** The messages warned, in order. */
  function Warnings(effects: seq<Effect>): seq<string> {
    if effects == [] then []
    else (if effects[0].Warned? then [effects[0].message] else []) + Warnings(effects[1..])
  }

  /** The requests sent to the connector, in order. */
  function ConnectorRequests(effects: seq<Effect>): seq<RequestParameter> {
    if effects == [] then []
    else (if effects[0].Connected? then [effects[0].request] else []) + ConnectorRequests(effects[1..])
  }

  /** The validator consultations, in order. */
  function Validations(effects: seq<Effect>): seq<Effect> {
    if effects == [] then []
    else (if effects[0].Validated? then [effects[0]] else []) + Validations(effects[1..])
  }

  // ---------------------------------------------------------------------
  // Option layering

  /** One property of `{...base, ...over}`. */
  function Override<T>(base: Slot<T>, over: Slot<T>): (r: Slot<T>)
    ensures over.Present? ==> r == over
    ensures over.Absent? ==> r == base
  {
    if over.Present? then over else base
  }

  /** `{...defaultOptions, ...(callOptions || {})}`: every property the call
      options have (even one holding `undefined`) replaces the default's
      wholesale; the others are the defaults'. */
  function EffectiveOptions(defaults: Options, callOptions: Maybe<Options>): (o: Options)
    ensures callOptions.Undefined? ==> o == defaults
    ensures callOptions.Defined? && callOptions.value.validateRequest.Present? ==>
              o.validateRequest == callOptions.value.validateRequest
    ensures callOptions.Defined? && callOptions.value.validateResponse.Present? ==>
              o.validateResponse == callOptions.value.validateResponse
  {
    var c := if callOptions.Defined? then callOptions.value else EmptyOptions;
    Options(
      Override(defaults.url, c.url),
      Override(defaults.httpMethod, c.httpMethod),
      Override(defaults.query, c.query),
      Override(defaults.body, c.body),
      Override(defaults.headers, c.headers),
      Override(defaults.validateRequest, c.validateRequest),
      Override(defaults.validateResponse, c.validateResponse))
  }

  // ---------------------------------------------------------------------
  // Request assembly

  /** `{...m}` of a value that is an object or `undefined`. */
  function Spread<V>(m: Maybe<map<string, V>>): map<string, V> {
    if m.Defined? then m.value else map[]
  }

  /** `{...base, ...over}` for two string maps: both key sets, and on a key
      both have, the value from `over`. */
  function Merge<V>(base: Maybe<map<string, V>>, over: Maybe<map<string, V>>): (r: map<string, V>)
    ensures r.Keys == Spread(base).Keys + Spread(over).Keys
    ensures forall k :: k in Spread(over) ==> r[k] == Spread(over)[k]
    ensures forall k :: k in Spread(base) && k !in Spread(over) ==> r[k] == Spread(base)[k]
  {
    Spread(base) + Spread(over)
  }

  /** The record handed to the connector: URL and method from the endpoint
      (never from the options), query and headers merged with the caller's
      values winning, and the caller's body when it has a `body` property,
      otherwise the empty object. */
  function BuildRequest(endpoint: Endpoint, options: Options, params: CallParameters): (r: RequestParameter)
    ensures r.url == endpoint.url && r.httpMethod == endpoint.httpMethod
    ensures r.query.Keys == Spread(options.query.Read()).Keys + Spread(params.query.Read()).Keys
    ensures forall k :: k in Spread(params.query.Read()) ==> r.query[k] == Spread(params.query.Read())[k]
    ensures forall k :: k in Spread(options.query.Read()) && k !in Spread(params.query.Read()) ==>
              r.query[k] == Spread(options.query.Read())[k]
    ensures r.headers.Keys == Spread(options.headers.Read()).Keys + Spread(params.headers.Read()).Keys
    ensures forall k :: k in Spread(params.headers.Read()) ==> r.headers[k] == Spread(params.headers.Read())[k]
    ensures forall k :: k in Spread(options.headers.Read()) && k !in Spread(params.headers.Read()) ==>
              r.headers[k] == Spread(options.headers.Read())[k]
    ensures params.body.Present? ==> r.body == params.body.held
    ensures params.body.Absent? ==> r.body == Defined(map[])
  {
    RequestParameter(
      endpoint.url,
      endpoint.httpMethod,
      Merge(options.query.Read(), params.query.Read()),
      if params.body.Present? then params.body.held else Defined(map[]),
      Merge(options.headers.Read(), params.headers.Read()))
  }

  // ---------------------------------------------------------------------
  // Validation

  /** `{...m}` adding the property `key` when the slot is present. */
  function PutSlot<T>(m: Instance, key: string, s: Slot<T>, toJson: T -> Json): (r: Instance)
    ensures r.Keys == if s.Present? then m.Keys + {key} else m.Keys
  {
    if s.Present? then m[key := s.held.Apply(toJson)] else m
  }

  /** The caller's parameters as the object they are. */
  function ParamsObject(params: CallParameters): Instance {
    var withQuery := PutSlot(map[], "query", params.query, QueryJson);
    var withHeaders := PutSlot(withQuery, "headers", params.headers, HeadersJson);
    PutSlot(withHeaders, "body", params.body, (b: JsonObject) => JObj(b))
  }

  const QueryStringKey := "queryStringParameters"

  /** `{queryStringParameters: parameters.query, ...parameters}`: the caller's
      own parameters (not the merged request), with the query repeated under
      `queryStringParameters`. */
  function RequestInstance(params: CallParameters): (i: Instance)
    ensures QueryStringKey in i && i[QueryStringKey] == params.query.Read().Apply(QueryJson)
    ensures "query" in i <==> params.query.Present?
    ensures "headers" in i <==> params.headers.Present?
    ensures "body" in i <==> params.body.Present?
    ensures params.query.Present? ==> i["query"] == params.query.held.Apply(QueryJson)
    ensures params.headers.Present? ==> i["headers"] == params.headers.held.Apply(HeadersJson)
    ensures params.body.Present? ==> i["body"] == params.body.held.Apply((b: JsonObject) => JObj(b))
    ensures i.Keys <= {QueryStringKey, "query", "headers", "body"}
  {
    map[QueryStringKey := params.query.Read().Apply(QueryJson)] + ParamsObject(params)
  }

  /** `{body: response.body, headers: response.headers}`: the status code is
      not validated. */
  function ResponseInstance(response: ResponseParameter): (i: Instance)
    ensures i.Keys == {"body", "headers"}
    ensures i["body"] == Defined(JObj(response.body))
    ensures i["headers"] == Defined(HeadersJson(response.headers))
  {
    map["body" := Defined(JObj(response.body)), "headers" := Defined(HeadersJson(response.headers))]
  }

  /** The result of one validation step: go on, or abort with the thrown
      error; with what it did either way. */
  datatype Gate = Pass(effects: seq<Effect>) | Abort(error: Json, effects: seq<Effect>)

  /** `if (policy) { result = validate(...); if (!result.valid) warn(...) }`.
      Without a policy the validator is not consulted; a throw aborts; a
      non-throwing failure warns once and goes on. */
  function Check(phase: Phase, policy: Maybe<ValidatorOptions>, instance: Instance, schema: Json,
                 validator: Validator): (g: Gate)
    ensures policy.Undefined? ==> g == Pass([])
    ensures policy.Defined? ==> |g.effects| >= 1 && g.effects[0] == Validated(phase, instance, schema, policy.value)
    ensures g.Abort? <==> policy.Defined? && validator(instance, schema, policy.value).Thrown?
    ensures g.Abort? ==> g.error == validator(instance, schema, policy.value).error
    ensures Warnings(g.effects) ==
              if policy.Defined? && validator(instance, schema, policy.value) == Invalid
              then [WarningFor(phase)] else []
    ensures ConnectorRequests(g.effects) == []
    ensures forall i :: 0 <= i < |g.effects| ==>
              (g.effects[i].Validated? && g.effects[i].phase == phase) || g.effects[i] == Warned(WarningFor(phase))
    ensures policy.Defined? ==> forall i :: 1 <= i < |g.effects| ==> g.effects[i] == Warned(WarningFor(phase))
    ensures Validations(g.effects) ==
              if policy.Defined? then [Validated(phase, instance, schema, policy.value)] else []
  {
    if policy.Undefined? then Pass([])
    else
      var validated := Validated(phase, instance, schema, policy.value);
      match validator(instance, schema, policy.value)
      case Valid => Pass([validated])
      case Invalid =>
        var warned := Warned(WarningFor(phase));
        assert [validated, warned][1..] == [warned] && [warned][1..] == [];
        assert Warnings([warned]) == [warned.message];
        assert Warnings([validated, warned]) == Warnings([warned]);
        assert ConnectorRequests([warned]) == [];
        assert Validations([warned]) == [];
        assert Validations([validated, warned]) == [validated];
        Pass([validated, warned])
      case Thrown(e) => Abort(e, [validated])
  }

  // ---------------------------------------------------------------------
  // The call

  /** `callWithObject(endpoint, parameters, callOptions)`. */
  function CallWithObject(api: ApiInstance, endpoint: Endpoint, params: CallParameters,
                          callOptions: Maybe<Options>): (c: Call)
    ensures c.outcome.Returned? ==>
              api.connector(BuildRequest(endpoint, EffectiveOptions(api.defaultOptions, callOptions), params))
              == Resolved(c.outcome.response)
    ensures c.outcome.Raised? ==> !c.outcome.failure.EndpointUndefined?
  {
    var options := EffectiveOptions(api.defaultOptions, callOptions);
    var pre := Check(RequestPhase, options.validateRequest.Read(), RequestInstance(params),
                     endpoint.request, api.validator);
    if pre.Abort? then Call(Raised(ValidationError(RequestPhase, pre.error)), pre.effects)
    else
      var request := BuildRequest(endpoint, options, params);
      var sent := pre.effects + [Connected(request)];
      match api.connector(request)
      case Rejected(reason) => Call(Raised(ConnectorError(reason)), sent)
      case Resolved(response) =>
        var post := Check(ResponsePhase, options.validateResponse.Read(), ResponseInstance(response),
                          endpoint.response, api.validator);
        if post.Abort? then Call(Raised(ValidationError(ResponsePhase, post.error)), sent + post.effects)
        else Call(Returned(response), sent + post.effects)
  }

  /** `callWithId(key, parameters, callOptions)`: look the key up in the
      registry.  An unknown key yields `undefined`, whose first property read
      (the schema or the URL) throws before the validator or the connector
      runs. */
  function CallWithId(api: ApiInstance, key: string, params: CallParameters,
                      callOptions: Maybe<Options>): (c: Call)
    ensures key !in api.endpoints ==> c == Call(Raised(EndpointUndefined(key)), [])
    ensures c.outcome.Raised? && c.outcome.failure.EndpointUndefined? <==> key !in api.endpoints
  {
    if key in api.endpoints then CallWithObject(api, api.endpoints[key], params, callOptions)
    else Call(Raised(EndpointUndefined(key)), [])
  }

  /** The function `apiFactory` returns: a string is a registry key, anything
      else a descriptor. */
  function Invoke(api: ApiInstance, endpoint: EndpointRef, params: CallParameters,
                  callOptions: Maybe<Options>): (c: Call)
    ensures c.outcome.Raised? && c.outcome.failure.EndpointUndefined? <==>
              endpoint.Key? && endpoint.name !in api.endpoints
    ensures endpoint.Key? && endpoint.name !in api.endpoints ==> c == Call(Raised(EndpointUndefined(endpoint.name)), [])
  {
    match endpoint
    case Key(name) => CallWithId(api, name, params, callOptions)
    case Descriptor(e) => CallWithObject(api, e, params, callOptions)
  }
}
