/** Why the type-level relaxation is safe at run time: a key the call-site
    type lets the caller leave out of `query` or `headers` is one the default
    options supply, so the merged request still has every key the endpoint's
    request type requires -- provided the call options do not replace that
    section of the defaults, which their type (`Options`) allows. */
module Relaxation {
  import opened Interfaces
  import opened Requiredness
  import opened Api

  /** The defaults type `o` describes the default options value at section
      `k`: where it declares an object there, it is an object type with named
      keys, and the value supplies every one of them (as an inferred object
      literal type does). */
  predicate DescribesDefaults(o: Ty, k: string, supplied: set<string>) {
    HasObjectAt(o, k) ==> o.props[k].ty.ObjectTy? && o.props[k].ty.props.Keys <= supplied
  }

  /** Defaults plus the keys the caller must give cover the request type. */
  lemma {:induction false} SectionCovered(t: Ty, o: Ty, k: string, supplied: set<string>, given: set<string>)
    requires t.ObjectTy? && k in SectionKeys && HasObjectAt(t, k) && t.props[k].ty.ObjectTy?
    requires DescribesDefaults(o, k, supplied)
    requires RequiredKeys(CallParametersType(t, o)[k].ty.props) <= given
    ensures RequiredKeys(t.props[k].ty.props) <= supplied + given
  {
    RequiredCallKeys(t, o, k);
  }

  /** A call whose `query` satisfies the call-site type sends a query with
      every key the endpoint's request type requires. */
  lemma QueryRelaxationIsSound(t: Ty, o: Ty, defaults: Options, endpoint: Endpoint,
                               params: CallParameters, callOptions: Maybe<Options>)
    requires t.ObjectTy? && HasObjectAt(t, "query") && t.props["query"].ty.ObjectTy?
    requires DescribesDefaults(o, "query", Spread(defaults.query.Read()).Keys)
    requires callOptions.Undefined? || callOptions.value.query.Absent?
    requires RequiredKeys(CallParametersType(t, o)["query"].ty.props) <= Spread(params.query.Read()).Keys
    ensures RequiredKeys(t.props["query"].ty.props) <=
            BuildRequest(endpoint, EffectiveOptions(defaults, callOptions), params).query.Keys
  {
    SectionCovered(t, o, "query", Spread(defaults.query.Read()).Keys, Spread(params.query.Read()).Keys);
  }

  /** The same for `headers`. */
  lemma HeadersRelaxationIsSound(t: Ty, o: Ty, defaults: Options, endpoint: Endpoint,
                                 params: CallParameters, callOptions: Maybe<Options>)
    requires t.ObjectTy? && HasObjectAt(t, "headers") && t.props["headers"].ty.ObjectTy?
    requires DescribesDefaults(o, "headers", Spread(defaults.headers.Read()).Keys)
    requires callOptions.Undefined? || callOptions.value.headers.Absent?
    requires RequiredKeys(CallParametersType(t, o)["headers"].ty.props) <= Spread(params.headers.Read()).Keys
    ensures RequiredKeys(t.props["headers"].ty.props) <=
            BuildRequest(endpoint, EffectiveOptions(defaults, callOptions), params).headers.Keys
  {
    SectionCovered(t, o, "headers", Spread(defaults.headers.Read()).Keys, Spread(params.headers.Read()).Keys);
  }

  const StringTy := ScalarTy("string")

  /** A request type requiring `authorization` and `host` headers. */
  const AuthorizedRequest: Ty :=
    ObjectTy(map["headers" := Prop(false, ObjectTy(map["authorization" := Prop(false, StringTy),
                                                     "host" := Prop(false, StringTy)]))])

  /** The type of default options `{headers: {authorization: '1234'}}`. */
  const AuthorizationDefaultsTy: Ty :=
    ObjectTy(map["headers" := Prop(false, ObjectTy(map["authorization" := Prop(false, StringTy)]))])

  const AuthorizationDefaults: Options :=
    EmptyOptions.(headers := Present(Defined(map["authorization" := "1234"])))

  lemma AuthorizedRequestKeys()
    ensures HasObjectAt(AuthorizedRequest, "headers") && AuthorizedRequest.props["headers"].ty.ObjectTy?
    ensures RequiredKeys(AuthorizedRequest.props["headers"].ty.props) == {"authorization", "host"}
  {
    var props := AuthorizedRequest.props["headers"].ty.props;
    assert "authorization" in RequiredKeys(props) && "host" in RequiredKeys(props);
  }

  /** With `headers.authorization` in the defaults, a call needs to give only
      `host`. */
  lemma AuthorizationBecomesOptional()
    ensures RequiredKeys(CallParametersType(AuthorizedRequest, AuthorizationDefaultsTy)["headers"].ty.props) == {"host"}
  {
    AuthorizedRequestKeys();
    assert HasObjectAt(AuthorizationDefaultsTy, "headers");
    assert AuthorizationDefaultsTy.props["headers"].ty.props.Keys == {"authorization"};
    RequiredCallKeys(AuthorizedRequest, AuthorizationDefaultsTy, "headers");
  }

  /** A call giving only `host` sends both headers; one that also gives
      `authorization` overrides the default. */
  lemma AuthorizationDefaultMerged(endpoint: Endpoint)
    ensures BuildRequest(endpoint, EffectiveOptions(AuthorizationDefaults, Undefined),
                         CallParameters(Absent, Present(Defined(map["host" := "host"])), Absent)).headers ==
            map["authorization" := "1234", "host" := "host"]
    ensures BuildRequest(endpoint, EffectiveOptions(AuthorizationDefaults, Undefined),
                         CallParameters(Absent, Present(Defined(map["authorization" := "9999", "host" := "host"])), Absent)).headers ==
            map["authorization" := "9999", "host" := "host"]
  {
    var options := EffectiveOptions(AuthorizationDefaults, Undefined);
    assert options.headers.Read() == Defined(map["authorization" := "1234"]);
  }

  /** Call options may replace the default headers wholesale: a call that the
      call-site type accepts (it leaves out `authorization`) then sends no
      `authorization` header at all. */
  lemma CallOptionsBypassRelaxation(endpoint: Endpoint)
    ensures RequiredKeys(CallParametersType(AuthorizedRequest, AuthorizationDefaultsTy)["headers"].ty.props) == {"host"}
    ensures "authorization" !in
            BuildRequest(endpoint,
                         EffectiveOptions(AuthorizationDefaults, Defined(EmptyOptions.(headers := Present(Defined(map[]))))),
                         CallParameters(Absent, Present(Defined(map["host" := "host"])), Absent)).headers
  {
    AuthorizationBecomesOptional();
  }
}
