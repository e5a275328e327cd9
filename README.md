# js-api request dispatch, modelled in Dafny

This project models the core of `js-api`: the function returned by
`apiFactory(defaultOptions, endpoints, connector)` and the types that shape
its calls.

A call names an endpoint, either by a key into the endpoint registry or by an
inline descriptor (URL, HTTP method, request and response schemas). It then:

1. layers the call options over the default options (`{...defaults, ...callOptions}`);
2. validates the caller's parameters against the request schema, if a
   `validateRequest` policy is in effect;
3. builds the request record (URL and method from the descriptor, query and
   headers merged with the caller's values winning, the caller's body or `{}`);
4. awaits the connector once;
5. validates the response's body and headers, if a `validateResponse` policy is
   in effect;
6. returns the connector's response as it is.

A validation that throws rejects the call. A validation that fails without
throwing emits one fixed warning and the call carries on.

On the type side, `CallParameters<T, O>` makes a `query` or `headers` key
optional at the call site when the default options' type `O` already has it
(`MaskRequired`, `MaskRequiredParameter`, `Filter`).

Files:

- `interfaces.dfy` (module `Interfaces`) is the runtime data model: methods,
  JSON, request and response records, options. JavaScript's optional
  properties are written out as `Slot<T>` (absent, or present holding a
  possibly `undefined` value), because object spread treats a present
  `undefined` differently from an absent key.
- `requiredness.dfy` (module `Requiredness`) models the type-level rule.
  Object types are property maps (key, type, optional flag), and the mapped
  and conditional types are functions over key sets.
- `api.dfy` (module `Api`) models `callWithObject`, `callWithId` and the
  dispatching `api` function. The jsonschema `validate` function and the
  connector are function-typed parameters (abstract oracles). A call returns
  its outcome together with its effects in order: each validator
  consultation, each warning, each connector call.
- `api_properties.dfy` (module `ApiProperties`) holds the lemmas about calls:
  outcome, connector calls, warnings, ordering, option layering, dispatch.
- `relaxation.dfy` (module `Relaxation`) connects the type-level rule to the
  runtime merge. It also works through the `authorization` default-header
  example from the tests.

Points of the source's behaviour worth spelling out:

- The request validator receives the caller's own parameters as an object
  `{queryStringParameters: parameters.query, ...parameters}`, not the merged
  request that is sent to the connector.
- An unknown registry key does not raise a dedicated "unknown endpoint"
  error. The lookup yields `undefined`, and the first property read on it
  (`endpoint.request` or `endpoint.url`) throws a TypeError. That happens
  before the validator or the connector runs. The model reports it as
  `EndpointUndefined` with an empty effect trace.
- Call options have the type `Options`, not `CallOptions`. So they can replace
  `query`, `headers`, `url`, `method` and `body` wholesale, not only the
  validation policy. The options' `url`, `method` and `body` are never sent.
- There are no interceptors, request/response preprocessors, endpoint handles
  or default-value synthesis in the modelled source.

## Model

| member | source | states |
|---|---|---|
| Interfaces.ParseMethod | src/interfaces.ts:6 | a string denotes a method exactly when it is one of `get`, `post`, `put`, `patch`, `delete` |
| Interfaces.MethodName | src/interfaces.ts:19 | every request method is written as one of the five literals, and ParseMethod gives the same method back |
| Interfaces.ParseMethodInverse | src/interfaces.ts:6 | each accepted literal names exactly one method (the other direction of the round trip) |
| Interfaces.OptionsDecompose | src/interfaces.ts:31-35 | `Options` is exactly a `Partial<RequestParameter>` together with the two optional policy fields: intersection and projections are mutually inverse |
| Requiredness.MaskRequired | src/interfaces.ts:37 | masking keeps the key set and every property type; keys in `O` become optional, all others keep their requiredness; required keys = required keys of `T` minus `O` |
| Requiredness.MaskRequiredParameter | src/interfaces.ts:38-44 | the section type is `unknown` exactly when the request type has no required object at `K`; its other shapes are stated by MaskRequiredParameterShape and RequiredCallKeys |
| Requiredness.SharedKeys | src/interfaces.ts:41 | `Extract<keyof T[K], keyof U[K]>` is a subset of `T[K]`'s keys, so masking is always applicable |
| Requiredness.MaskRequiredParameterShape | src/interfaces.ts:38-44 | `unknown` when the request type has no required object at `K`; the request type's own section, unchanged, when the defaults have no object at `K`; otherwise an object type with the same keys |
| Requiredness.CallParametersType | src/interfaces.ts:52-60 | the call parameter type has exactly the request type's fields plus `query` and `headers`; field by field it is stated by CallParametersKeepsOtherFields and SectionRequirement, which also state what the `Filter<T, object>` helper (`Requiredness.Filter`, src/interfaces.ts:48-50) keeps |
| Requiredness.CallParametersKeepsOtherFields | src/interfaces.ts:52-53 | the call parameter type has every request field other than `query`/`headers` unchanged, plus both sections |
| Requiredness.SectionRequirement | src/interfaces.ts:52-60 | a section is required at the call site if and only if the request type requires an object there; otherwise it is an optional string record |
| Requiredness.RequiredCallKeys | src/interfaces.ts:37-44 | the keys a caller must still give = the keys the request type requires minus the keys the defaults type declares (none if the defaults declare a record; unchanged if the defaults lack the section) |
| ApiProperties.OverrideIsSpread | src/index.ts:29 | overriding one property (`Api.Override`) equals the spread of the two one-property objects: a property present in the call options (even as `undefined`) wins, an absent one leaves the default |
| Api.EffectiveOptions | src/index.ts:29 | with no call options the effective options are the defaults; a validation policy present in the call options (even as `undefined`) is the effective one |
| ApiProperties.PropertyOverride | src/index.ts:29 | each property of the effective options is the call options' property when present, otherwise the default's |
| Api.Merge | src/index.ts:42-49 | a spread merge has both key sets; on a shared key the caller's value wins; other keys keep the default's value; `undefined` spreads as `{}` |
| Api.BuildRequest | src/index.ts:39-51 | URL and method are the descriptor's; query and headers are the merges with call values winning; body is the caller's `body` property when present, otherwise `{}` |
| Api.RequestInstance | src/index.ts:31-33 | the request validator sees the caller's own parameters (`query`, `headers` and `body` exactly when given, each with the caller's value), with `query` repeated under `queryStringParameters`, and nothing else |
| Api.Check | src/index.ts:30-60 | for each of the request gate (lines 30-38) and the response gate (lines 52-60): without a policy the validator is not consulted and nothing happens; with one it is consulted exactly once, first, on the given instance and schema, and the only other effect can be the warning; a throw aborts with that error; a non-throwing failure warns exactly once with the phase's fixed message |
| Api.CallWithObject | src/index.ts:24-62 | a call never fails for want of an endpoint, and a returned response is what the connector resolved with for the assembled request; the full outcome, connector calls, warnings, consultations and order are stated by CallOutcome, CallConnects, CallWarnings, CallValidations and CallOrdered |
| Api.CallWithId | src/index.ts:64-71 | a call raises the undefined-endpoint error exactly when the key is not registered, and then with nothing consulted or sent; KeyMeansDescriptor states that a registered key gives the call of its descriptor |
| Api.Invoke | src/index.ts:73-82 | a call rejects as an undefined endpoint exactly when it names a key the registry lacks, and then does nothing else; KeyMeansDescriptor states that a registered key behaves as its descriptor |
| ApiProperties.CallOutcome | src/index.ts:28-62 | a call rejects with the request validator's error, else with the connector's rejection, else with the response validator's error, else returns the connector's response unchanged |
| ApiProperties.CallConnects | src/index.ts:30-51 | the connector is called not at all when request validation throws, otherwise exactly once, with the assembled request |
| ApiProperties.CallWarnings | src/index.ts:30-60 | the warnings are exactly one request warning if request validation failed without throwing, then one response warning if response validation did |
| ApiProperties.CallValidations | src/index.ts:30-56 | the validator is consulted on the caller's parameters and the request schema once if a request policy is in effect, then on exactly the response's body and headers (`Api.ResponseInstance`) and the response schema once if a response policy is in effect and the call reached a resolved response; never otherwise |
| ApiProperties.CallOrdered | src/index.ts:30-60 | request validation and its warning come before the connector call; response validation and its warning come after it |
| ApiProperties.NoRequestPolicyNoRequestValidation | src/index.ts:30-38 | with no effective `validateRequest` the validator never sees the request and no request warning appears |
| ApiProperties.NoResponsePolicyNoResponseValidation | src/index.ts:52-60 | with no effective `validateResponse` the validator never sees the response and no response warning appears |
| ApiProperties.RequestThrowSkipsConnector | src/index.ts:30-39 | a throwing request validation rejects the call with that error; the connector is never called and nothing is warned |
| ApiProperties.InvalidRequestWarnsOnce | src/index.ts:35-37 | a non-throwing request failure still sends the request and returns the connector's response, with exactly the one request warning |
| ApiProperties.InvalidResponseWarnsOnce | src/index.ts:57-61 | a non-throwing response failure returns the connector's response unchanged, with exactly the one response warning |
| ApiProperties.ReturnsConnectorResponse | src/index.ts:39-61 | the connector is called at most once, and a returned response is what the connector resolved with for the assembled request |
| ApiProperties.LenientValidationNeverRaises | src/index.ts:30-61 | if the validator throws only when `throwError` is set and neither policy sets it, the call returns whatever the connector resolves with |
| ApiProperties.EffectiveOptionsIsSpread | src/index.ts:29 | the effective options, seen as a JavaScript object, are the right-biased union of the defaults object and the call options object |
| ApiProperties.LayeringLaws | src/index.ts:29 | no call options, or `{}`, leave the defaults unchanged; layering twice equals layering once with the spread of the two |
| ApiProperties.UndefinedPolicyDisablesValidation | src/index.ts:29-30 | a call option `validateRequest: undefined` turns request validation off whatever the defaults say |
| ApiProperties.KeyMeansDescriptor | src/index.ts:64-82 | a registered key gives the same call as passing its descriptor; an unknown key rejects with an empty trace |
| ApiProperties.RequestTargetsEndpoint | src/index.ts:40-41 | every request sent carries the descriptor's URL and method |
| Relaxation.QueryRelaxationIsSound | src/interfaces.ts:52-59 | if the defaults supply every key their type declares and the call options leave `query` alone, then a query meeting the call-site type yields a merged query with every key the request type requires |
| Relaxation.HeadersRelaxationIsSound | src/interfaces.ts:52-59 | the same for `headers` |
| Relaxation.AuthorizationBecomesOptional | tests/index.test.ts:42-68 | with `headers.authorization` in the defaults, only `host` stays required at the call site |
| Relaxation.AuthorizationDefaultMerged | src/index.ts:46-49 | with the default headers `{authorization: '1234'}` of the tests' example, giving only `host` sends both headers with the default `authorization`; giving another `authorization` overrides the default |
| Relaxation.CallOptionsBypassRelaxation | src/index.ts:26-29 | call options can replace the default headers with `{}`, and then a call accepted by the call-site type sends no `authorization` header |

## Left out

- Endpoint handles (`api(endpoint).call`, `.validate`, `.assertValid`, `.defaultRequestParameters`), default-value synthesis, interceptors and validation preprocessors are not part of the modelled source, so they are not modelled.
- The jsonschema validation algorithm and its error objects are not modelled. The validator is an abstract function returning valid, invalid, or a thrown error. Of its options only `throwError` is represented. `LenientValidationNeverRaises` states, as a hypothesis, that it throws only when asked to.
- The connector's network I/O and the Promise machinery are not modelled. The connector is a pure function from the request record to a resolved response or a rejection, and a rejection propagates unchanged.
- `console.warn`'s second argument (the validation result) is dropped; only the message and the number of warnings are kept.
- The TypeScript overload signatures of the callable (src/index.ts:9-21) are reduced to the key-versus-descriptor dispatch.
- Call parameters carry only `query`, `headers` and `body`. Any further field of a request type would also be spread into the request validator's input; that is not modelled.
- The registry is a finite map. Keys that JavaScript would resolve through the object prototype (such as `toString`) are treated as unknown.
- JSON numbers are integers; floating point is not modelled.
- Requiredness.CallParametersType: the intersection of a kept section with the fall-back record type is represented by the relaxed type alone. The record only bounds the value types.
- Requiredness.MaskRequiredParameter: when the request section is itself a string-keyed record, it is returned unchanged. It has no required keys to relax.
- Relaxation.QueryRelaxationIsSound and Relaxation.HeadersRelaxationIsSound assume the defaults supply every key their type declares, and that the call options leave the section alone. `keyof` also counts optional keys, and `CallOptionsBypassRelaxation` shows what goes wrong without the second assumption.
