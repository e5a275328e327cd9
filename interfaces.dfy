/** The records exchanged with the connector and the option records of the
    API layer: HTTP methods, JSON values, request and response parameters,
    and the default/per-call options.  JavaScript's optional properties and
    `undefined` are written out, since object spread treats a property that is
    present but undefined differently from one that is absent. */
module Interfaces {

  /** A JavaScript value that may be `undefined`. */
  datatype Maybe<T> = Undefined | Defined(value: T) {
    function Apply<U>(f: T -> U): Maybe<U> {
      if Defined? then Defined(f(value)) else Undefined
    }
  }

  /** An optional property of a JavaScript object: absent, or present and
      holding a value that may itself be `undefined`. */
  datatype Slot<T> = Absent | Present(held: Maybe<T>) {
    /** Reading the property: an absent property reads as `undefined`. */
    function Read(): Maybe<T> {
      if Present? then held else Undefined
    }

    function Apply<U>(f: T -> U): Slot<U> {
      if Present? then Present(held.Apply(f)) else Absent
    }
  }

  /** The five HTTP methods an endpoint may declare. */
  datatype Method = Get | Post | Put | Patch | Delete

  const MethodNames: set<string> := {"get", "post", "put", "patch", "delete"}

  /** Which method, if any, a string literal denotes. */
  function ParseMethod(s: string): (r: Maybe<Method>)
    ensures r.Defined? <==> s in MethodNames
  {
    if s == "get" then Defined(Get)
    else if s == "post" then Defined(Post)
    else if s == "put" then Defined(Put)
    else if s == "patch" then Defined(Patch)
    else if s == "delete" then Defined(Delete)
    else Undefined
  }

  /** The string literal a method is written as; ParseMethod undoes it. */
  function MethodName(m: Method): (s: string)
    ensures s in MethodNames
    ensures ParseMethod(s) == Defined(m)
  {
    match m
    case Get => "get"
    case Post => "post"
    case Put => "put"
    case Patch => "patch"
    case Delete => "delete"
  }

  /** Every accepted literal names exactly one method. */
  lemma ParseMethodInverse(s: string, m: Method)
    requires ParseMethod(s) == Defined(m)
    ensures MethodName(m) == s
  {
  }

  /** JSON values (numbers are modelled as integers). */
  datatype Json =
    | JNull
    | JBool(b: bool)
    | JNum(n: int)
    | JStr(s: string)
    | JArr(items: seq<Json>)
    | JObj(fields: map<string, Json>)

  type JsonObject = map<string, Json>

  /** A query parameter value: `string | string[]`. */
  datatype QueryParam = Single(value: string) | Multiple(values: seq<string>)

  type Query = map<string, QueryParam>

  type Headers = map<string, string>

  function QueryParamJson(p: QueryParam): (j: Json)
    ensures p.Single? ==> j == JStr(p.value)
    ensures p.Multiple? ==> j.JArr? && |j.items| == |p.values|
    ensures p.Multiple? ==> forall n :: 0 <= n < |p.values| ==> j.items[n] == JStr(p.values[n])
  {
    match p
    case Single(v) => JStr(v)
    case Multiple(vs) => JArr(seq(|vs|, i requires 0 <= i < |vs| => JStr(vs[i])))
  }

  function QueryJson(q: Query): (j: Json)
    ensures j.JObj? && j.fields.Keys == q.Keys
  {
    JObj(map k | k in q :: QueryParamJson(q[k]))
  }

  function HeadersJson(h: Headers): (j: Json)
    ensures j.JObj? && j.fields.Keys == h.Keys
    ensures forall k :: k in h ==> j.fields[k] == JStr(h[k])
  {
    JObj(map k | k in h :: JStr(h[k]))
  }

  /** The record handed to the connector.  `body` is `undefined` only when the
      caller passed a `body` property holding `undefined`. */
  datatype RequestParameter = RequestParameter(
    url: string,
    httpMethod: Method,
    query: Query,
    body: Maybe<JsonObject>,
    headers: Headers)

  /** The record the connector resolves with. */
  datatype ResponseParameter = ResponseParameter(
    statusCode: int,
    body: JsonObject,
    headers: Headers)

  /** The options record passed to the schema validator; only `throwError`
      (false when not given) influences the API layer. */
  datatype ValidatorOptions = ValidatorOptions(throwError: bool)

  /** The validation policy part of the options. */
  datatype CallOptions = CallOptions(
    validateRequest: Slot<ValidatorOptions>,
    validateResponse: Slot<ValidatorOptions>)

  /** `Partial<RequestParameter>`: every request field optional. */
  datatype PartialRequest = PartialRequest(
    url: Slot<string>,
    httpMethod: Slot<Method>,
    query: Slot<Query>,
    body: Slot<JsonObject>,
    headers: Slot<Headers>)

  /** `Options = Partial<RequestParameter> & CallOptions`, as one record. */
  datatype Options = Options(
    url: Slot<string>,
    httpMethod: Slot<Method>,
    query: Slot<Query>,
    body: Slot<JsonObject>,
    headers: Slot<Headers>,
    validateRequest: Slot<ValidatorOptions>,
    validateResponse: Slot<ValidatorOptions>)

  /** The object literal `{}`. */
  const EmptyOptions: Options :=
    Options(Absent, Absent, Absent, Absent, Absent, Absent, Absent)

  /** The intersection type `Partial<RequestParameter> & CallOptions`. */
  function Intersect(p: PartialRequest, c: CallOptions): Options {
    Options(p.url, p.httpMethod, p.query, p.body, p.headers, c.validateRequest, c.validateResponse)
  }

  function RequestPart(o: Options): PartialRequest {
    PartialRequest(o.url, o.httpMethod, o.query, o.body, o.headers)
  }

  function PolicyPart(o: Options): CallOptions {
    CallOptions(o.validateRequest, o.validateResponse)
  }

  /** Options is exactly a partial request together with the two policy
      fields: Intersect and the two projections are mutually inverse. */
  lemma OptionsDecompose(o: Options, p: PartialRequest, c: CallOptions)
    ensures Intersect(RequestPart(o), PolicyPart(o)) == o
    ensures RequestPart(Intersect(p, c)) == p && PolicyPart(Intersect(p, c)) == c
  {
  }

  /** The parameters a caller passes.  Fields other than `query`, `headers` and
      `body` never reach the connector or the checks below. */
  datatype CallParameters = CallParameters(
    query: Slot<Query>,
    headers: Slot<Headers>,
    body: Slot<JsonObject>)

  /** A property value of an options object, whatever its field. */
  datatype OptionValue =
    | UrlOption(url: string)
    | MethodOption(httpMethod: Method)
    | QueryOption(query: Query)
    | BodyOption(body: JsonObject)
    | HeadersOption(headers: Headers)
    | PolicyOption(policy: ValidatorOptions)

  const OptionKeys: set<string> :=
    {"url", "method", "query", "body", "headers", "validateRequest", "validateResponse"}

  /** The property called `key` of an options object. */
  function Property(o: Options, key: string): (s: Slot<OptionValue>)
    ensures key !in OptionKeys ==> s.Absent?
  {
    if key == "url" then o.url.Apply(u => UrlOption(u))
    else if key == "method" then o.httpMethod.Apply(m => MethodOption(m))
    else if key == "query" then o.query.Apply(q => QueryOption(q))
    else if key == "body" then o.body.Apply(b => BodyOption(b))
    else if key == "headers" then o.headers.Apply(h => HeadersOption(h))
    else if key == "validateRequest" then o.validateRequest.Apply(v => PolicyOption(v))
    else if key == "validateResponse" then o.validateResponse.Apply(v => PolicyOption(v))
    else Absent
  }

  /** An options record as the JavaScript object it stands for: the map from
      each own property to its (possibly undefined) value. */
  function AsObject(o: Options): (m: map<string, Maybe<OptionValue>>)
    ensures m.Keys <= OptionKeys
    ensures forall k :: k in m <==> Property(o, k).Present?
  {
    map k | k in OptionKeys && Property(o, k).Present? :: Property(o, k).held
  }
}
