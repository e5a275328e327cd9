/** The type-level rule that makes a `query` or `headers` field optional at
    the call site when the default options already supply it.  TypeScript
    object types are modelled by their property maps: each property has a key,
    a type and an optional marker, so the mapped and conditional types of the
    source become functions over key sets. */
module Requiredness {

  /** The TypeScript types the rule distinguishes: object types with named
      properties, string-keyed records (`Record<string, V>`), other
      (non-object) types, and `unknown`. */
  datatype Ty =
    | ObjectTy(props: map<string, Prop>)
    | RecordTy(valueType: string)
    | ScalarTy(name: string)
    | UnknownTy

  datatype Prop = Prop(optional: bool, ty: Ty)

  /** `t extends object`. */
  predicate IsObject(t: Ty) {
    t.ObjectTy? || t.RecordTy?
  }

  /** The keys a value of this object type must have. */
  function RequiredKeys(props: map<string, Prop>): set<string> {
    set k | k in props && !props[k].optional
  }

  /** `MaskRequired<T, O> = Omit<T, O> & Partial<Pick<T, O>>`: the keys in `o`
      become optional, every other key keeps its requiredness, and no key or
      property type changes. */
  function MaskRequired(t: map<string, Prop>, o: set<string>): (r: map<string, Prop>)
    requires o <= t.Keys
    ensures r.Keys == t.Keys
    ensures forall k :: k in r ==> r[k].ty == t[k].ty
    ensures forall k :: k in o ==> r[k].optional
    ensures forall k :: k in r && k !in o ==> r[k] == t[k]
    ensures RequiredKeys(r) == RequiredKeys(t) - o
  {
    map k | k in t :: if k in o then t[k].(optional := true) else t[k]
  }

  /** `T extends { [Key in K]: object }`: `t` has a required property `k`
      whose type is an object type. */
  predicate HasObjectAt(t: Ty, k: string) {
    t.ObjectTy? && k in t.props && !t.props[k].optional && IsObject(t.props[k].ty)
  }

  /** `Extract<keyof T[K], keyof U[K]>`: the keys of `tk` that `uk` also has.
      A string-keyed record has every string as a key. */
  function SharedKeys(tk: map<string, Prop>, uk: Ty): (s: set<string>)
    requires IsObject(uk)
    ensures s <= tk.Keys
  {
    if uk.ObjectTy? then tk.Keys * uk.props.Keys else tk.Keys
  }

  /** `MaskRequiredParameter<T, U, K>`: the type of section `k` of the request
      type `t` once the defaults type `u` is taken into account.  When `t[k]`
      is itself a string-keyed record it has no required keys to relax, and
      masking leaves it a record. */
  function MaskRequiredParameter(t: Ty, u: Ty, k: string): (r: Ty)
    ensures r.UnknownTy? <==> !HasObjectAt(t, k)
  {
    if !HasObjectAt(t, k) then UnknownTy
    else
      var tk := t.props[k].ty;
      if HasObjectAt(u, k) && tk.ObjectTy? then
        ObjectTy(MaskRequired(tk.props, SharedKeys(tk.props, u.props[k].ty)))
      else tk
  }

  /** `Filter<T, object>`: keeps the fields whose type is an object type. */
  function Filter(fields: map<string, Ty>): (r: map<string, Ty>)
    ensures r.Keys == set k | k in fields && IsObject(fields[k])
    ensures forall k :: k in r ==> r[k] == fields[k]
  {
    map k | k in fields && IsObject(fields[k]) :: fields[k]
  }

  const SectionKeys: set<string> := {"query", "headers"}

  /** The declared fall-back type of an optional section:
      `Record<string, string | string[]>` for `query`,
      `Record<string, string>` for `headers`. */
  function Fallback(k: string): Ty {
    if k == "query" then RecordTy("string | string[]") else RecordTy("string")
  }

  /** `CallParameters<T, O>`: the parameter type of a call to an endpoint
      with request type `t` when the defaults have type `o`.  A section kept
      by the filter is required with its relaxed type (its intersection with
      the fall-back record only bounds the value types and is not modelled);
      any other section is optional with the fall-back type. */
  function CallParametersType(t: Ty, o: Ty): (r: map<string, Prop>)
    requires t.ObjectTy?
    ensures r.Keys == t.props.Keys + SectionKeys
  {
    var kept := Filter(map["query" := MaskRequiredParameter(t, o, "query"),
                           "headers" := MaskRequiredParameter(t, o, "headers")]);
    var rest := map k | k in t.props && k !in SectionKeys :: t.props[k];
    rest + map k | k in SectionKeys ::
      if k in kept then Prop(false, kept[k]) else Prop(true, Fallback(k))
  }

  /** The relaxed section type never changes which keys it has, and when the
      defaults carry no object at `k` it is the request type's own section. */
  lemma MaskRequiredParameterShape(t: Ty, u: Ty, k: string)
    ensures !HasObjectAt(t, k) ==> MaskRequiredParameter(t, u, k) == UnknownTy
    ensures HasObjectAt(t, k) && !HasObjectAt(u, k) ==>
              MaskRequiredParameter(t, u, k) == t.props[k].ty
    ensures HasObjectAt(t, k) ==> IsObject(MaskRequiredParameter(t, u, k))
    ensures HasObjectAt(t, k) && t.props[k].ty.ObjectTy? ==>
              MaskRequiredParameter(t, u, k).ObjectTy? &&
              MaskRequiredParameter(t, u, k).props.Keys == t.props[k].ty.props.Keys
  {
  }

  /** Every field of the request type other than `query` and `headers` is a
      field of the call parameters, unchanged; the sections are always there. */
  lemma {:induction false} CallParametersKeepsOtherFields(t: Ty, o: Ty)
    requires t.ObjectTy?
    ensures forall k :: k in t.props && k !in SectionKeys ==>
              CallParametersType(t, o)[k] == t.props[k]
  {
  }

  /** A section is required at the call site exactly when the request type
      requires an object there; otherwise it is an optional record. */
  lemma {:induction false} SectionRequirement(t: Ty, o: Ty, k: string)
    requires t.ObjectTy? && k in SectionKeys
    ensures !CallParametersType(t, o)[k].optional <==> HasObjectAt(t, k)
    ensures !HasObjectAt(t, k) ==> CallParametersType(t, o)[k] == Prop(true, Fallback(k))
    ensures HasObjectAt(t, k) ==>
              CallParametersType(t, o)[k].ty == MaskRequiredParameter(t, o, k)
  {
    MaskRequiredParameterShape(t, o, k);
  }

  /** The keys a caller must still supply in section `k` are the keys the
      request type requires there minus the keys the defaults type declares
      there (all of them when the defaults declare a string-keyed record). */
  lemma {:induction false} RequiredCallKeys(t: Ty, o: Ty, k: string)
    requires t.ObjectTy? && k in SectionKeys
    requires HasObjectAt(t, k) && t.props[k].ty.ObjectTy?
    ensures CallParametersType(t, o)[k].ty.ObjectTy?
    ensures !HasObjectAt(o, k) ==>
              RequiredKeys(CallParametersType(t, o)[k].ty.props) == RequiredKeys(t.props[k].ty.props)
    ensures HasObjectAt(o, k) && o.props[k].ty.ObjectTy? ==>
              RequiredKeys(CallParametersType(t, o)[k].ty.props) ==
              RequiredKeys(t.props[k].ty.props) - o.props[k].ty.props.Keys
    ensures HasObjectAt(o, k) && o.props[k].ty.RecordTy? ==>
              RequiredKeys(CallParametersType(t, o)[k].ty.props) == {}
  {
    SectionRequirement(t, o, k);
    var tk := t.props[k].ty;
    if HasObjectAt(o, k) {
      var shared := SharedKeys(tk.props, o.props[k].ty);
      assert MaskRequiredParameter(t, o, k) == ObjectTy(MaskRequired(tk.props, shared));
      assert RequiredKeys(tk.props) <= tk.props.Keys;
    }
  }
}
