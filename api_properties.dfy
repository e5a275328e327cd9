/** What a call of the API factory promises: how options layer, that
    validation without a policy never consults the validator, that a throwing
    request validation keeps the connector from being called, that each
    non-throwing failure warns exactly once and leaves the response as the
    connector gave it, the order of the steps, and that a registry key means
    the same as its descriptor. */
module ApiProperties {
  import opened Interfaces
  import opened Api

  // ---------------------------------------------------------------------
  // Traces

  lemma {:induction false} WarningsAppend(a: seq<Effect>, b: seq<Effect>)
    ensures Warnings(a + b) == Warnings(a) + Warnings(b)
  {
    if a == [] {
      assert a + b == b;
    } else {
      var head := if a[0].Warned? then [a[0].message] else [];
      assert (a + b)[0] == a[0];
      assert (a + b)[1..] == a[1..] + b;
      assert Warnings(a + b) == head + Warnings(a[1..] + b);
      assert Warnings(a) == head + Warnings(a[1..]);
      WarningsAppend(a[1..], b);
    }
  }

  lemma {:induction false} ConnectorRequestsAppend(a: seq<Effect>, b: seq<Effect>)
    ensures ConnectorRequests(a + b) == ConnectorRequests(a) + ConnectorRequests(b)
  {
    if a == [] {
      assert a + b == b;
    } else {
      var head := if a[0].Connected? then [a[0].request] else [];
      assert (a + b)[0] == a[0];
      assert (a + b)[1..] == a[1..] + b;
      assert ConnectorRequests(a + b) == head + ConnectorRequests(a[1..] + b);
      assert ConnectorRequests(a) == head + ConnectorRequests(a[1..]);
      ConnectorRequestsAppend(a[1..], b);
    }
  }

  lemma {:induction false} ValidationsAppend(a: seq<Effect>, b: seq<Effect>)
    ensures Validations(a + b) == Validations(a) + Validations(b)
  {
    if a == [] {
      assert a + b == b;
    } else {
      var head := if a[0].Validated? then [a[0]] else [];
      assert (a + b)[0] == a[0];
      assert (a + b)[1..] == a[1..] + b;
      assert Validations(a + b) == head + Validations(a[1..] + b);
      assert Validations(a) == head + Validations(a[1..]);
      ValidationsAppend(a[1..], b);
    }
  }

  /** The step of a call an effect belongs to: 0 before the connector, 1 the
      connector call, 2 after it. */
  function Stage(e: Effect): nat {
    match e
    case Validated(phase, _, _, _) => if phase == RequestPhase then 0 else 2
    case Warned(message) => if message == RequestWarning then 0 else 2
    case Connected(_) => 1
  }

  predicate Ordered(effects: seq<Effect>) {
    forall i, j :: 0 <= i < j < |effects| ==> Stage(effects[i]) <= Stage(effects[j])
  }

  predicate AllAt(effects: seq<Effect>, stage: nat) {
    forall i :: 0 <= i < |effects| ==> Stage(effects[i]) == stage
  }

  lemma GateStage(g: Gate, phase: Phase)
    requires forall i :: 0 <= i < |g.effects| ==>
               (g.effects[i].Validated? && g.effects[i].phase == phase) || g.effects[i] == Warned(WarningFor(phase))
    ensures AllAt(g.effects, if phase == RequestPhase then 0 else 2)
  {
  }

  lemma OrderedConcat(a: seq<Effect>, b: seq<Effect>, c: seq<Effect>)
    requires AllAt(a, 0) && AllAt(b, 1) && AllAt(c, 2)
    ensures Ordered(a + b + c)
  {
    var s := a + b + c;
    forall i, j | 0 <= i < j < |s| ensures Stage(s[i]) <= Stage(s[j]) {
      assert Stage(s[i]) == if i < |a| then 0 else if i < |a| + |b| then 1 else 2;
      assert Stage(s[j]) == if j < |a| then 0 else if j < |a| + |b| then 1 else 2;
    }
  }

  // ---------------------------------------------------------------------
  // Names for the pieces of one call

  function RequestPolicy(api: ApiInstance, callOptions: Maybe<Options>): Maybe<ValidatorOptions> {
    EffectiveOptions(api.defaultOptions, callOptions).validateRequest.Read()
  }

  function ResponsePolicy(api: ApiInstance, callOptions: Maybe<Options>): Maybe<ValidatorOptions> {
    EffectiveOptions(api.defaultOptions, callOptions).validateResponse.Read()
  }

  /** The request the connector is given, if the call gets that far. */
  function SentRequest(api: ApiInstance, endpoint: Endpoint, params: CallParameters,
                       callOptions: Maybe<Options>): RequestParameter {
    BuildRequest(endpoint, EffectiveOptions(api.defaultOptions, callOptions), params)
  }

  /** What the validator says of the caller's parameters, when it is asked. */
  function RequestVerdict(api: ApiInstance, endpoint: Endpoint, params: CallParameters,
                          callOptions: Maybe<Options>): Maybe<Verdict> {
    var policy := RequestPolicy(api, callOptions);
    if policy.Defined? then Defined(api.validator(RequestInstance(params), endpoint.request, policy.value))
    else Undefined
  }

  /** What the validator says of a response, when it is asked. */
  function ResponseVerdict(api: ApiInstance, endpoint: Endpoint, response: ResponseParameter,
                           callOptions: Maybe<Options>): Maybe<Verdict> {
    var policy := ResponsePolicy(api, callOptions);
    if policy.Defined? then Defined(api.validator(ResponseInstance(response), endpoint.response, policy.value))
    else Undefined
  }

  predicate Throws(v: Maybe<Verdict>) {
    v.Defined? && v.value.Thrown?
  }

  /** One warning for a failed phase, none otherwise. */
  function WarningsOf(v: Maybe<Verdict>, phase: Phase): seq<string> {
    if v == Defined(Invalid) then [WarningFor(phase)] else []
  }

  function PreGate(api: ApiInstance, endpoint: Endpoint, params: CallParameters,
                   callOptions: Maybe<Options>): Gate {
    Check(RequestPhase, RequestPolicy(api, callOptions), RequestInstance(params), endpoint.request, api.validator)
  }

  function PostGate(api: ApiInstance, endpoint: Endpoint, response: ResponseParameter,
                    callOptions: Maybe<Options>): Gate {
    Check(ResponsePhase, ResponsePolicy(api, callOptions), ResponseInstance(response), endpoint.response, api.validator)
  }

  // ---------------------------------------------------------------------
  // The three ways a call goes

  lemma AbortedCall(api: ApiInstance, endpoint: Endpoint, params: CallParameters, callOptions: Maybe<Options>)
    requires Throws(RequestVerdict(api, endpoint, params, callOptions))
    ensures PreGate(api, endpoint, params, callOptions).Abort?
    ensures CallWithObject(api, endpoint, params, callOptions) ==
            Call(Raised(ValidationError(RequestPhase, RequestVerdict(api, endpoint, params, callOptions).value.error)),
                 PreGate(api, endpoint, params, callOptions).effects)
  {
  }

  lemma RejectedCall(api: ApiInstance, endpoint: Endpoint, params: CallParameters, callOptions: Maybe<Options>)
    requires !Throws(RequestVerdict(api, endpoint, params, callOptions))
    requires api.connector(SentRequest(api, endpoint, params, callOptions)).Rejected?
    ensures !PreGate(api, endpoint, params, callOptions).Abort?
    ensures CallWithObject(api, endpoint, params, callOptions) ==
            Call(Raised(ConnectorError(api.connector(SentRequest(api, endpoint, params, callOptions)).reason)),
                 PreGate(api, endpoint, params, callOptions).effects + [Connected(SentRequest(api, endpoint, params, callOptions))])
  {
  }

  lemma ResolvedCall(api: ApiInstance, endpoint: Endpoint, params: CallParameters, callOptions: Maybe<Options>,
                     response: ResponseParameter)
    requires !Throws(RequestVerdict(api, endpoint, params, callOptions))
    requires api.connector(SentRequest(api, endpoint, params, callOptions)) == Resolved(response)
    ensures !PreGate(api, endpoint, params, callOptions).Abort?
    ensures PostGate(api, endpoint, response, callOptions).Abort? <==> Throws(ResponseVerdict(api, endpoint, response, callOptions))
    ensures CallWithObject(api, endpoint, params, callOptions) ==
            Call(if Throws(ResponseVerdict(api, endpoint, response, callOptions))
                 then Raised(ValidationError(ResponsePhase, ResponseVerdict(api, endpoint, response, callOptions).value.error))
                 else Returned(response),
                 PreGate(api, endpoint, params, callOptions).effects
                 + [Connected(SentRequest(api, endpoint, params, callOptions))]
                 + PostGate(api, endpoint, response, callOptions).effects)
  {
  }

  // ---------------------------------------------------------------------
  // The shape of a call

  /** How a call settles: a throwing request check rejects it with the
      thrown error; otherwise a rejecting connector rejects it with its
      reason, and a resolved response is returned as it is unless the
      response check throws. */
  lemma CallOutcome(api: ApiInstance, endpoint: Endpoint, params: CallParameters, callOptions: Maybe<Options>)
    ensures var call := CallWithObject(api, endpoint, params, callOptions);
            var pre := RequestVerdict(api, endpoint, params, callOptions);
            var reply := api.connector(SentRequest(api, endpoint, params, callOptions));
            call.outcome ==
              if Throws(pre) then Raised(ValidationError(RequestPhase, pre.value.error))
              else if reply.Rejected? then Raised(ConnectorError(reply.reason))
              else if Throws(ResponseVerdict(api, endpoint, reply.response, callOptions))
              then Raised(ValidationError(ResponsePhase, ResponseVerdict(api, endpoint, reply.response, callOptions).value.error))
              else Returned(reply.response)
  {
    var pre := RequestVerdict(api, endpoint, params, callOptions);
    var reply := api.connector(SentRequest(api, endpoint, params, callOptions));
    if Throws(pre) {
      AbortedCall(api, endpoint, params, callOptions);
    } else if reply.Rejected? {
      RejectedCall(api, endpoint, params, callOptions);
    } else {
      ResolvedCall(api, endpoint, params, callOptions, reply.response);
    }
  }

  /** The connector is called at most once: not at all when the request
      check throws, otherwise exactly once, with the assembled request. */
  lemma {:induction false} CallConnects(api: ApiInstance, endpoint: Endpoint, params: CallParameters,
                                        callOptions: Maybe<Options>)
    ensures ConnectorRequests(CallWithObject(api, endpoint, params, callOptions).effects) ==
            if Throws(RequestVerdict(api, endpoint, params, callOptions)) then []
            else [SentRequest(api, endpoint, params, callOptions)]
  {
    var request := SentRequest(api, endpoint, params, callOptions);
    var pre := PreGate(api, endpoint, params, callOptions);
    if Throws(RequestVerdict(api, endpoint, params, callOptions)) {
      AbortedCall(api, endpoint, params, callOptions);
    } else {
      assert ConnectorRequests([Connected(request)]) == [request];
      ConnectorRequestsAppend(pre.effects, [Connected(request)]);
      match api.connector(request)
      case Rejected(_) =>
        RejectedCall(api, endpoint, params, callOptions);
      case Resolved(response) =>
        ResolvedCall(api, endpoint, params, callOptions, response);
        ConnectorRequestsAppend(pre.effects + [Connected(request)], PostGate(api, endpoint, response, callOptions).effects);
    }
  }

  /** The warnings of a call that reached the connector: the request
      check's, then (when the connector resolved) the response check's. */
  lemma {:induction false} SentWarnings(pre: Gate, request: RequestParameter, post: seq<Effect>)
    ensures Warnings(pre.effects + [Connected(request)] + post) == Warnings(pre.effects) + Warnings(post)
  {
    assert Warnings([Connected(request)]) == [];
    WarningsAppend(pre.effects, [Connected(request)]);
    WarningsAppend(pre.effects + [Connected(request)], post);
  }

  /** Exactly one warning per check that fails without throwing, request
      first; none otherwise. */
  lemma {:induction false} CallWarnings(api: ApiInstance, endpoint: Endpoint, params: CallParameters,
                                        callOptions: Maybe<Options>)
    ensures var call := CallWithObject(api, endpoint, params, callOptions);
            var pre := RequestVerdict(api, endpoint, params, callOptions);
            var reply := api.connector(SentRequest(api, endpoint, params, callOptions));
            Warnings(call.effects) ==
              if Throws(pre) then []
              else if reply.Rejected? then WarningsOf(pre, RequestPhase)
              else WarningsOf(pre, RequestPhase) + WarningsOf(ResponseVerdict(api, endpoint, reply.response, callOptions), ResponsePhase)
  {
    var request := SentRequest(api, endpoint, params, callOptions);
    var pre := PreGate(api, endpoint, params, callOptions);
    if Throws(RequestVerdict(api, endpoint, params, callOptions)) {
      AbortedCall(api, endpoint, params, callOptions);
    } else {
      assert Warnings(pre.effects) == WarningsOf(RequestVerdict(api, endpoint, params, callOptions), RequestPhase);
      match api.connector(request)
      case Rejected(_) =>
        RejectedCall(api, endpoint, params, callOptions);
        SentWarnings(pre, request, []);
        assert pre.effects + [Connected(request)] + [] == pre.effects + [Connected(request)];
      case Resolved(response) =>
        ResolvedCall(api, endpoint, params, callOptions, response);
        var post := PostGate(api, endpoint, response, callOptions);
        assert Warnings(post.effects) == WarningsOf(ResponseVerdict(api, endpoint, response, callOptions), ResponsePhase);
        SentWarnings(pre, request, post.effects);
    }
  }

  /** The validator is consulted at most twice: once on the caller's
      parameters when a request policy is in effect, then once on the response
      when a response policy is in effect and the connector resolved (after a
      request check that did not throw). */
  lemma {:induction false} CallValidations(api: ApiInstance, endpoint: Endpoint, params: CallParameters,
                                           callOptions: Maybe<Options>)
    ensures var call := CallWithObject(api, endpoint, params, callOptions);
            var request := RequestPolicy(api, callOptions);
            var response := ResponsePolicy(api, callOptions);
            var reply := api.connector(SentRequest(api, endpoint, params, callOptions));
            Validations(call.effects) ==
              (if request.Defined? then [Validated(RequestPhase, RequestInstance(params), endpoint.request, request.value)]
               else [])
              + (if !Throws(RequestVerdict(api, endpoint, params, callOptions)) && reply.Resolved? && response.Defined?
                 then [Validated(ResponsePhase, ResponseInstance(reply.response), endpoint.response, response.value)]
                 else [])
  {
    var request := SentRequest(api, endpoint, params, callOptions);
    var pre := PreGate(api, endpoint, params, callOptions);
    if Throws(RequestVerdict(api, endpoint, params, callOptions)) {
      AbortedCall(api, endpoint, params, callOptions);
    } else {
      assert Validations([Connected(request)]) == [];
      ValidationsAppend(pre.effects, [Connected(request)]);
      match api.connector(request)
      case Rejected(_) =>
        RejectedCall(api, endpoint, params, callOptions);
      case Resolved(response) =>
        ResolvedCall(api, endpoint, params, callOptions, response);
        ValidationsAppend(pre.effects + [Connected(request)], PostGate(api, endpoint, response, callOptions).effects);
    }
  }

  /** Request validation and its warning come before the connector call, and
      response validation and its warning after it. */
  lemma CallOrdered(api: ApiInstance, endpoint: Endpoint, params: CallParameters, callOptions: Maybe<Options>)
    ensures Ordered(CallWithObject(api, endpoint, params, callOptions).effects)
  {
    var request := SentRequest(api, endpoint, params, callOptions);
    var pre := PreGate(api, endpoint, params, callOptions);
    GateStage(pre, RequestPhase);
    if Throws(RequestVerdict(api, endpoint, params, callOptions)) {
      AbortedCall(api, endpoint, params, callOptions);
      assert pre.effects == pre.effects + [] + [];
      OrderedConcat(pre.effects, [], []);
    } else {
      match api.connector(request)
      case Rejected(_) =>
        RejectedCall(api, endpoint, params, callOptions);
        assert pre.effects + [Connected(request)] == pre.effects + [Connected(request)] + [];
        OrderedConcat(pre.effects, [Connected(request)], []);
      case Resolved(response) =>
        ResolvedCall(api, endpoint, params, callOptions, response);
        var post := PostGate(api, endpoint, response, callOptions);
        GateStage(post, ResponsePhase);
        OrderedConcat(pre.effects, [Connected(request)], post.effects);
    }
  }

  /** Without a request policy the validator never sees the request and no
      request warning is emitted. */
  lemma NoRequestPolicyNoRequestValidation(api: ApiInstance, endpoint: Endpoint, params: CallParameters,
                                           callOptions: Maybe<Options>)
    requires RequestPolicy(api, callOptions).Undefined?
    ensures RequestWarning !in Warnings(CallWithObject(api, endpoint, params, callOptions).effects)
    ensures forall e | e in Validations(CallWithObject(api, endpoint, params, callOptions).effects) ::
              e.Validated? && e.phase == ResponsePhase
  {
    CallWarnings(api, endpoint, params, callOptions);
    CallValidations(api, endpoint, params, callOptions);
  }

  /** Without a response policy the validator never sees the response and no
      response warning is emitted. */
  lemma NoResponsePolicyNoResponseValidation(api: ApiInstance, endpoint: Endpoint, params: CallParameters,
                                             callOptions: Maybe<Options>)
    requires ResponsePolicy(api, callOptions).Undefined?
    ensures ResponseWarning !in Warnings(CallWithObject(api, endpoint, params, callOptions).effects)
    ensures forall e | e in Validations(CallWithObject(api, endpoint, params, callOptions).effects) ::
              e.Validated? && e.phase == RequestPhase
  {
    CallWarnings(api, endpoint, params, callOptions);
    CallValidations(api, endpoint, params, callOptions);
  }

  /** A request validation that throws rejects the call with that error; the
      connector is never called and nothing is warned. */
  lemma RequestThrowSkipsConnector(api: ApiInstance, endpoint: Endpoint, params: CallParameters,
                                   callOptions: Maybe<Options>, error: Json)
    requires RequestVerdict(api, endpoint, params, callOptions) == Defined(Thrown(error))
    ensures var call := CallWithObject(api, endpoint, params, callOptions);
            && call.outcome == Raised(ValidationError(RequestPhase, error))
            && ConnectorRequests(call.effects) == []
            && Warnings(call.effects) == []
  {
    AbortedCall(api, endpoint, params, callOptions);
    CallConnects(api, endpoint, params, callOptions);
    CallWarnings(api, endpoint, params, callOptions);
  }

  /** A request that fails validation without throwing is still sent, as
      assembled; when the connector resolves and the response check neither
      throws nor fails, the call returns the connector's response unchanged
      and the only warning is the request one. */
  lemma InvalidRequestWarnsOnce(api: ApiInstance, endpoint: Endpoint, params: CallParameters,
                                callOptions: Maybe<Options>, response: ResponseParameter)
    requires RequestVerdict(api, endpoint, params, callOptions) == Defined(Invalid)
    requires api.connector(SentRequest(api, endpoint, params, callOptions)) == Resolved(response)
    requires ResponseVerdict(api, endpoint, response, callOptions) in {Undefined, Defined(Valid)}
    ensures var call := CallWithObject(api, endpoint, params, callOptions);
            && call.outcome == Returned(response)
            && Warnings(call.effects) == [RequestWarning]
            && ConnectorRequests(call.effects) == [SentRequest(api, endpoint, params, callOptions)]
  {
    CallOutcome(api, endpoint, params, callOptions);
    CallWarnings(api, endpoint, params, callOptions);
    CallConnects(api, endpoint, params, callOptions);
  }

  /** A response that fails validation without throwing is returned as the
      connector gave it, with exactly one response warning. */
  lemma InvalidResponseWarnsOnce(api: ApiInstance, endpoint: Endpoint, params: CallParameters,
                                 callOptions: Maybe<Options>, response: ResponseParameter)
    requires RequestVerdict(api, endpoint, params, callOptions) in {Undefined, Defined(Valid)}
    requires api.connector(SentRequest(api, endpoint, params, callOptions)) == Resolved(response)
    requires ResponseVerdict(api, endpoint, response, callOptions) == Defined(Invalid)
    ensures var call := CallWithObject(api, endpoint, params, callOptions);
            && call.outcome == Returned(response)
            && Warnings(call.effects) == [ResponseWarning]
  {
    CallOutcome(api, endpoint, params, callOptions);
    CallWarnings(api, endpoint, params, callOptions);
  }

  /** Whatever a call returns is what the connector resolved with for the
      assembled request, and the connector was called exactly once. */
  lemma ReturnsConnectorResponse(api: ApiInstance, endpoint: Endpoint, params: CallParameters,
                                 callOptions: Maybe<Options>)
    ensures var call := CallWithObject(api, endpoint, params, callOptions);
            && |ConnectorRequests(call.effects)| <= 1
            && (call.outcome.Returned? ==>
                  && ConnectorRequests(call.effects) == [SentRequest(api, endpoint, params, callOptions)]
                  && api.connector(SentRequest(api, endpoint, params, callOptions)) == Resolved(call.outcome.response))
  {
    CallOutcome(api, endpoint, params, callOptions);
    CallConnects(api, endpoint, params, callOptions);
  }

  /** A validator that throws only when asked to. */
  ghost predicate ThrowsOnlyOnRequest(validator: Validator) {
    forall i, s, o :: validator(i, s, o).Thrown? ==> o.throwError
  }

  predicate Lenient(policy: Maybe<ValidatorOptions>) {
    policy.Defined? ==> !policy.value.throwError
  }

  /** With policies that do not ask for throwing, validation never stops a
      call: whatever the connector resolves with is returned. */
  lemma LenientValidationNeverRaises(api: ApiInstance, endpoint: Endpoint, params: CallParameters,
                                     callOptions: Maybe<Options>, response: ResponseParameter)
    requires ThrowsOnlyOnRequest(api.validator)
    requires Lenient(RequestPolicy(api, callOptions)) && Lenient(ResponsePolicy(api, callOptions))
    requires api.connector(SentRequest(api, endpoint, params, callOptions)) == Resolved(response)
    ensures CallWithObject(api, endpoint, params, callOptions).outcome == Returned(response)
  {
    CallOutcome(api, endpoint, params, callOptions);
  }

  // ---------------------------------------------------------------------
  // Option layering

  /** A single property `k` holding the slot's value, as an object: `{}` when
      the slot is absent. */
  function OneKey<T>(k: string, s: Slot<T>): map<string, Maybe<T>> {
    if s.Present? then map[k := s.held] else map[]
  }

  /** Overriding one property is the spread `{...base, ...over}` of the two
      one-property objects: a present `over` (even holding `undefined`) wins,
      an absent one leaves `base`. */
  lemma OverrideIsSpread<T>(k: string, base: Slot<T>, over: Slot<T>)
    ensures OneKey(k, Override(base, over)) == OneKey(k, base) + OneKey(k, over)
  {
  }

  /** Each property of the effective options is the call options' when
      they have it, the defaults' otherwise. */
  lemma {:induction false} PropertyOverride(defaults: Options, callOptions: Options, k: string)
    ensures Property(EffectiveOptions(defaults, Defined(callOptions)), k) ==
            Override(Property(defaults, k), Property(callOptions, k))
  {
  }

  /** Effective options are the JavaScript spread of the call options over
      the defaults: the right-biased union of the two objects. */
  lemma {:induction false} EffectiveOptionsIsSpread(defaults: Options, callOptions: Options)
    ensures AsObject(EffectiveOptions(defaults, Defined(callOptions))) == AsObject(defaults) + AsObject(callOptions)
  {
    var lhs := AsObject(EffectiveOptions(defaults, Defined(callOptions)));
    var rhs := AsObject(defaults) + AsObject(callOptions);
    forall k | k in OptionKeys
      ensures (k in lhs <==> k in rhs) && (k in lhs ==> lhs[k] == rhs[k])
    {
      PropertyOverride(defaults, callOptions, k);
    }
    assert lhs.Keys == rhs.Keys;
  }

  /** No call options, or an empty object, leave the defaults as they are;
      layering twice is layering once with the spread of the two. */
  lemma LayeringLaws(defaults: Options, first: Options, second: Options)
    ensures EffectiveOptions(defaults, Undefined) == defaults
    ensures EffectiveOptions(defaults, Defined(EmptyOptions)) == defaults
    ensures EffectiveOptions(EffectiveOptions(defaults, Defined(first)), Defined(second)) ==
            EffectiveOptions(defaults, Defined(EffectiveOptions(first, Defined(second))))
  {
  }

  /** A call option holding `undefined` switches validation off for that
      call, whatever the defaults say. */
  lemma UndefinedPolicyDisablesValidation(api: ApiInstance, endpoint: Endpoint, params: CallParameters,
                                          callOptions: Options)
    requires callOptions.validateRequest == Present(Undefined)
    ensures RequestPolicy(api, Defined(callOptions)) == Undefined
    ensures RequestWarning !in Warnings(CallWithObject(api, endpoint, params, Defined(callOptions)).effects)
  {
    NoRequestPolicyNoRequestValidation(api, endpoint, params, Defined(callOptions));
  }

  // ---------------------------------------------------------------------
  // Dispatch

  /** A registry key means exactly what its descriptor means; an unknown key
      rejects the call before anything else happens. */
  lemma KeyMeansDescriptor(api: ApiInstance, key: string, params: CallParameters, callOptions: Maybe<Options>)
    ensures key in api.endpoints ==>
              Invoke(api, Key(key), params, callOptions) ==
              Invoke(api, Descriptor(api.endpoints[key]), params, callOptions)
    ensures key !in api.endpoints ==>
              Invoke(api, Key(key), params, callOptions) == Call(Raised(EndpointUndefined(key)), [])
  {
  }

  /** The URL and method sent are the descriptor's, never the options'. */
  lemma RequestTargetsEndpoint(api: ApiInstance, endpoint: Endpoint, params: CallParameters,
                               callOptions: Maybe<Options>)
    ensures forall r :: r in ConnectorRequests(CallWithObject(api, endpoint, params, callOptions).effects) ==>
              r.url == endpoint.url && r.httpMethod == endpoint.httpMethod
  {
    CallConnects(api, endpoint, params, callOptions);
  }
}
