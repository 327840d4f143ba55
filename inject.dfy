/**
 * The injection registrar of the IoC container and its metadata queries.
 *
 * The ambient `Reflector` metadata store is made explicit: a map from
 * (metadata key, target object, optional member name) to the value stored
 * there. The `inject(...)` decorator writes one parameter slot or one property
 * entry into that store; `DescribeInjectedArguments` and
 * `DescribeInjectedProperties` read it back, the latter merging the property
 * maps found along the target's prototype chain.
 */
module Inject {
  import opened Wrappers

  /** Metadata key under which parameter descriptors are stored. */
  const PARAMETERS_KEY: string := "inject:parameters"
  /** Metadata key under which property descriptors are stored. */
  const PROPERTIES_KEY: string := "inject:properties"

  /** Identity of a JavaScript object (a class, or a prototype). */
  type TargetId = nat
  /** A property or method name (symbols are not modelled). */
  type MemberName = string

  /** An arbitrary JavaScript value, known only by its identity. */
  datatype BoundValue = BoundValue(handle: nat)
  /** A custom resolver function, known only by its identity. */
  datatype ResolverFunction = ResolverFunction(handle: nat)

  /** Descriptor of one injection point. */
  datatype Injection = Injection(
    bindingKey: string,
    metadata: Option<map<string, BoundValue>>,
    resolve: Option<ResolverFunction>)

  /** A sparse JavaScript array of descriptors; `None` is a hole. */
  type ParameterSlots = seq<Option<Injection>>
  /** A dictionary from property name to descriptor. */
  type PropertyMap = map<MemberName, Injection>

  /** The tuple `(metadataKey, target, propertyKey?)` a Reflector call names. */
  datatype MetadataKey = MetadataKey(key: string, target: TargetId, member: Option<MemberName>)

  /** What the store holds under one key. `Other` is metadata of other clients. */
  datatype MetadataValue =
    | Parameters(slots: ParameterSlots)
    | Properties(entries: PropertyMap)
    | Other(value: BoundValue)

  /** The Reflector store. It starts empty. */
  type Store = map<MetadataKey, MetadataValue>

  /** The two injection keys only ever hold values of their own kind. */
  predicate WellTyped(s: Store) {
    forall k | k in s ::
      && (k.key == PARAMETERS_KEY ==> s[k].Parameters?)
      && (k.key == PROPERTIES_KEY ==> s[k].Properties?)
  }

  function ParametersKey(target: TargetId, member: Option<MemberName>): MetadataKey {
    MetadataKey(PARAMETERS_KEY, target, member)
  }

  function PropertiesKey(target: TargetId): MetadataKey {
    MetadataKey(PROPERTIES_KEY, target, None)
  }

  /** `Reflector.getOwnMetadata(PARAMETERS_KEY, target, member) || []` */
  function OwnParameters(s: Store, target: TargetId, member: Option<MemberName>): ParameterSlots {
    var k := ParametersKey(target, member);
    if k in s && s[k].Parameters? then s[k].slots else []
  }

  /** `Reflector.getOwnMetadata(PROPERTIES_KEY, target) || {}` */
  function OwnProperties(s: Store, target: TargetId): PropertyMap {
    var k := PropertiesKey(target);
    if k in s && s[k].Properties? then s[k].entries else map[]
  }

  /** JavaScript truthiness of an optional name: `undefined` and `""` are falsy. */
  predicate Truthy(name: Option<MemberName>) {
    name.Some? && name.value != ""
  }

  /**
   * `slots[i] = Some(inj)` on a JavaScript array: the slot is overwritten, and
   * an array that is too short grows, with holes in between.
   */
  function Assign(slots: ParameterSlots, i: nat, inj: Injection): (r: ParameterSlots)
    ensures |r| == if i < |slots| then |slots| else i + 1
    ensures r[i] == Some(inj)
    ensures forall j | 0 <= j < |r| && j != i :: r[j] == if j < |slots| then slots[j] else None
  {
    if i < |slots| then slots[i := Some(inj)]
    else slots + seq(i - |slots|, _ => None) + [Some(inj)]
  }

  /** The store after a parameter injection at `index` of `member`. */
  function RegisterParameter(s: Store, target: TargetId, member: Option<MemberName>, index: nat, inj: Injection): (r: Store)
    ensures r.Keys == s.Keys + {ParametersKey(target, member)}
    ensures OwnParameters(r, target, member) == Assign(OwnParameters(s, target, member), index, inj)
    ensures forall k | k in s && k != ParametersKey(target, member) :: r[k] == s[k]
  {
    s[ParametersKey(target, member) := Parameters(Assign(OwnParameters(s, target, member), index, inj))]
  }

  /** The store after a property injection of `name`. */
  function RegisterProperty(s: Store, target: TargetId, name: MemberName, inj: Injection): (r: Store)
    ensures r.Keys == s.Keys + {PropertiesKey(target)}
    ensures OwnProperties(r, target) == OwnProperties(s, target)[name := inj]
    ensures forall k | k in s && k != PropertiesKey(target) :: r[k] == s[k]
  {
    s[PropertiesKey(target) := Properties(OwnProperties(s, target)[name := inj])]
  }

  /** One JavaScript object as the registrar sees it. */
  datatype ObjectInfo = ObjectInfo(
    proto: Option<TargetId>,  // Object.getPrototypeOf(o); None is null
    isFunction: bool,         // typeof o === 'function'
    name: string,             // String(o.name)
    height: nat)              // a bound on the length of the chain above o

  /** The objects a program has, with their prototype links. */
  type Heap = map<TargetId, ObjectInfo>

  /** Prototype links stay inside the heap and are acyclic (heights strictly drop). */
  predicate WellFormed(h: Heap) {
    forall t | t in h :: h[t].proto.Some? ==> h[t].proto.value in h && h[h[t].proto.value].height < h[t].height
  }

  /** `typeof Object.getPrototypeOf(target) === 'function'`: target is a class itself. */
  predicate IsStaticSurface(h: Heap, target: TargetId): (r: bool)
    requires WellFormed(h) && target in h
    ensures h[target].proto.None? ==> !r
    ensures r <==> h[target].proto.Some? && h[target].proto.value in h && h[h[target].proto.value].isFunction
  {
    match h[target].proto
    case None => false
    case Some(p) => h[p].isFunction
  }

  /** The errors the registrar throws. */
  datatype InjectError =
    | StaticPropertyUnsupported(property: string)
    | NotPropertyOrParameter

  // The two messages are written in two pieces each: the verifier reads a
  // character of a string literal by unfolding it from the end, so a short
  // first piece keeps the characters the proofs compare within reach.

  /** The fixed start of the static-property message. */
  const STATIC_PREFIX: string := "@inject is not " + "supported for a static property: "

  /** The message for a decorator applied to neither a property nor a parameter. */
  const USAGE_MESSAGE: string := "@inject can only " + "be used on properties or method parameters."

  /** The message of the `Error` thrown for each kind. */
  function Message(e: InjectError): string {
    match e
    case StaticPropertyUnsupported(p) => STATIC_PREFIX + p
    case NotPropertyOrParameter => USAGE_MESSAGE
  }

  /** The message alone tells the two errors apart, and the static one names its property. */
  lemma MessageIdentifiesError(e1: InjectError, e2: InjectError)
    ensures Message(e1) == Message(e2) ==> e1 == e2
  {
    if Message(e1) == Message(e2) {
      if e1.StaticPropertyUnsupported? && e2.StaticPropertyUnsupported? {
        assert e1.property == Message(e1)[|STATIC_PREFIX|..];
      } else if e1.StaticPropertyUnsupported? || e2.StaticPropertyUnsupported? {
        var p := if e1.StaticPropertyUnsupported? then e1.property else e2.property;
        StaticMessageDiffersFromUsage(p);
      }
    }
  }

  /** The static-property message never equals the usage message: they differ at index 8. */
  lemma StaticMessageDiffersFromUsage(p: string)
    ensures STATIC_PREFIX + p != USAGE_MESSAGE
  {
    assert (STATIC_PREFIX + p)[8] == STATIC_PREFIX[8] == "@inject is not "[8] == 'i';
    assert USAGE_MESSAGE[8] == "@inject can only "[8] == 'c';
  }

  /** The process-wide registry of injection metadata. */
  class MetadataRegistry {
    var entries: Store

    /**
     * The store is well typed, so `|| []` and `|| {}` in the lookups only
     * ever replace a missing value (`WellTypedLookupsExact`).
     */
    ghost predicate Valid()
      reads this
    {
      WellTyped(entries)
    }

    constructor ()
      ensures Valid() && entries == map[]
    {
      entries := map[];
    }

    /**
     * `inject(bindingKey, metadata, resolve)` applied to
     * `(target, propertyKey, parameterIndex)`. A numeric third argument makes
     * it a parameter injection; otherwise a truthy property key makes it a
     * property injection, refused on the static side of a class; otherwise it
     * throws. The returned error, if any, is the one thrown.
     */
    method Inject(h: Heap, bindingKey: string, metadata: Option<map<string, BoundValue>>,
                  resolve: Option<ResolverFunction>, target: TargetId,
                  propertyKey: Option<MemberName>, parameterIndex: Option<nat>)
      returns (thrown: Option<InjectError>)
      requires Valid() && WellFormed(h) && target in h
      modifies this
      ensures Valid()
      ensures parameterIndex.Some? ==>
        && thrown == None
        && entries == RegisterParameter(old(entries), target, propertyKey, parameterIndex.value,
                                        Injection(bindingKey, metadata, resolve))
      ensures parameterIndex.None? && Truthy(propertyKey) && IsStaticSurface(h, target) ==>
        && thrown == Some(StaticPropertyUnsupported(h[target].name + "." + propertyKey.value))
        && entries == old(entries)
      ensures parameterIndex.None? && Truthy(propertyKey) && !IsStaticSurface(h, target) ==>
        && thrown == None
        && entries == RegisterProperty(old(entries), target, propertyKey.value,
                                       Injection(bindingKey, metadata, resolve))
      ensures parameterIndex.None? && !Truthy(propertyKey) ==>
        thrown == Some(NotPropertyOrParameter) && entries == old(entries)
    {
      if parameterIndex.Some? {
        var injectedArgs := OwnParameters(entries, target, propertyKey);
        injectedArgs := Assign(injectedArgs, parameterIndex.value, Injection(bindingKey, metadata, resolve));
        entries := entries[ParametersKey(target, propertyKey) := Parameters(injectedArgs)];
        thrown := None;
      } else if Truthy(propertyKey) {
        if IsStaticSurface(h, target) {
          thrown := Some(StaticPropertyUnsupported(h[target].name + "." + propertyKey.value));
          return;
        }
        var injections := OwnProperties(entries, target);
        injections := injections[propertyKey.value := Injection(bindingKey, metadata, resolve)];
        entries := entries[PropertiesKey(target) := Properties(injections)];
        thrown := None;
      } else {
        thrown := Some(NotPropertyOrParameter);
      }
    }
  }

  /**
   * `describeInjectedArguments(target, method)`: the parameter descriptors of
   * `method`, or of the constructor when `method` is falsy; `[]` when none
   * were registered. The lookup is single-level: no prototype walk.
   */
  function DescribeInjectedArguments(s: Store, target: TargetId, methodName: Option<MemberName>): (r: ParameterSlots)
    ensures var k := ParametersKey(target, LookupMember(methodName));
            && (k in s && s[k].Parameters? ==> r == s[k].slots)
            && (k !in s ==> r == [])
  {
    OwnParameters(s, target, LookupMember(methodName))
  }

  /** The member key a lookup with `method` reads: `""` reads the constructor's. */
  function LookupMember(methodName: Option<MemberName>): Option<MemberName> {
    if Truthy(methodName) then methodName else None
  }

  // ---------------------------------------------------------------------------
  // Parameter registration

  /**
   * Registering at index `i` sets slot `i` to the descriptor; every other slot
   * keeps what it held, and slots the array had to grow by are holes.
   */
  lemma RegisteredArgumentVisible(s: Store, target: TargetId, member: Option<MemberName>, i: nat, inj: Injection)
    requires LookupMember(member) == member
    ensures var before := DescribeInjectedArguments(s, target, member);
            var after := DescribeInjectedArguments(RegisterParameter(s, target, member, i, inj), target, member);
            && |after| == (if i < |before| then |before| else i + 1)
            && after[i] == Some(inj)
            && forall j | 0 <= j < |after| && j != i :: after[j] == if j < |before| then before[j] else None
  {
  }

  /** With no array stored yet, one registration at `i` defines slot `i` and nothing else. */
  lemma FirstRegistrationStartsEmpty(s: Store, target: TargetId, member: Option<MemberName>, i: nat, inj: Injection)
    requires ParametersKey(target, member) !in s
    requires LookupMember(member) == member
    ensures var after := DescribeInjectedArguments(RegisterParameter(s, target, member, i, inj), target, member);
            && |after| == i + 1
            && after[i] == Some(inj)
            && forall j | 0 <= j < i :: after[j] == None
  {
  }

  /** A parameter registration changes the one key it writes and no other entry of the store. */
  lemma RegisterParameterFrame(s: Store, target: TargetId, member: Option<MemberName>, i: nat, inj: Injection, k: MetadataKey)
    requires k != ParametersKey(target, member)
    ensures var s' := RegisterParameter(s, target, member, i, inj);
            (k in s' <==> k in s) && (k in s ==> s'[k] == s[k])
  {
  }

  /** Hence the other members' parameters, and every property map, read back unchanged. */
  lemma RegisterParameterLeavesOthers(s: Store, target: TargetId, member: Option<MemberName>, i: nat, inj: Injection,
                                      t: TargetId, m: Option<MemberName>)
    requires (t, LookupMember(m)) != (target, member)
    ensures var s' := RegisterParameter(s, target, member, i, inj);
            && DescribeInjectedArguments(s', t, m) == DescribeInjectedArguments(s, t, m)
            && OwnProperties(s', t) == OwnProperties(s, t)
  {
  }

  /** Registering twice at the same index: only the latest registration survives. */
  lemma {:induction false} LatestRegistrationWins(s: Store, target: TargetId, member: Option<MemberName>, i: nat, first: Injection, second: Injection)
    ensures RegisterParameter(RegisterParameter(s, target, member, i, first), target, member, i, second)
         == RegisterParameter(s, target, member, i, second)
  {
    var slots := OwnParameters(s, target, member);
    var once := Assign(slots, i, first);
    assert OwnParameters(RegisterParameter(s, target, member, i, first), target, member) == once;
    var twice := Assign(once, i, second);
    var direct := Assign(slots, i, second);
    assert |twice| == |direct|;
    forall j | 0 <= j < |twice|
      ensures twice[j] == direct[j]
    {
    }
    assert twice == direct;
  }

  /** Constructor (`undefined` member) and method lookups use distinct keys. */
  lemma ConstructorAndMethodSlotsDistinct(s: Store, target: TargetId, methodName: MemberName, i: nat, inj: Injection)
    requires methodName != ""
    ensures DescribeInjectedArguments(RegisterParameter(s, target, None, i, inj), target, Some(methodName))
         == DescribeInjectedArguments(s, target, Some(methodName))
    ensures DescribeInjectedArguments(RegisterParameter(s, target, Some(methodName), i, inj), target, None)
         == DescribeInjectedArguments(s, target, None)
  {
  }

  /** A lookup for nothing registered answers the empty sequence. */
  lemma DescribeArgumentsDefault(s: Store, target: TargetId, methodName: Option<MemberName>)
    requires ParametersKey(target, LookupMember(methodName)) !in s
    ensures DescribeInjectedArguments(s, target, methodName) == []
  {
  }

  /**
   * `if (method)` treats the empty method name as absent: its lookup reads the
   * constructor's descriptors, not those registered under `""`.
   */
  lemma EmptyMethodNameReadsConstructor(s: Store, target: TargetId, i: nat, inj: Injection)
    ensures DescribeInjectedArguments(s, target, Some("")) == DescribeInjectedArguments(s, target, None)
    ensures DescribeInjectedArguments(RegisterParameter(s, target, Some(""), i, inj), target, Some(""))
         == DescribeInjectedArguments(s, target, None)
  {
  }

  // ---------------------------------------------------------------------------
  // Property registration

  /** A property registration sets one key of the target's own map; other targets' maps are unchanged. */
  lemma RegisteredPropertyVisible(s: Store, target: TargetId, name: MemberName, inj: Injection, t: TargetId)
    ensures OwnProperties(RegisterProperty(s, target, name, inj), target) == OwnProperties(s, target)[name := inj]
    ensures t != target ==> OwnProperties(RegisterProperty(s, target, name, inj), t) == OwnProperties(s, t)
  {
  }

  /** A property registration leaves every parameter array as it was. */
  lemma RegisterPropertyLeavesParameters(s: Store, target: TargetId, name: MemberName, inj: Injection,
                                         t: TargetId, m: Option<MemberName>)
    ensures DescribeInjectedArguments(RegisterProperty(s, target, name, inj), t, m)
         == DescribeInjectedArguments(s, t, m)
  {
  }

  /** Both registrations keep the store well typed. */
  lemma RegistrationKeepsWellTyped(s: Store, target: TargetId, member: Option<MemberName>, i: nat,
                                   name: MemberName, inj: Injection)
    requires WellTyped(s)
    ensures WellTyped(RegisterParameter(s, target, member, i, inj))
    ensures WellTyped(RegisterProperty(s, target, name, inj))
  {
  }

  /** In a well-typed store the `|| []` and `|| {}` defaults only replace missing entries. */
  lemma WellTypedLookupsExact(s: Store, target: TargetId, member: Option<MemberName>)
    requires WellTyped(s)
    ensures ParametersKey(target, member) in s ==> OwnParameters(s, target, member) == s[ParametersKey(target, member)].slots
    ensures PropertiesKey(target) in s ==> OwnProperties(s, target) == s[PropertiesKey(target)].entries
  {
  }

  // ---------------------------------------------------------------------------
  // The prototype chain and describeInjectedProperties

  /**
   * The objects `describeInjectedProperties` visits from `t`: `t` itself, then
   * each prototype in turn, ending at the object whose prototype is null.
   */
  function Chain(h: Heap, t: TargetId): (c: seq<TargetId>)
    requires WellFormed(h) && t in h
    ensures |c| > 0 && c[0] == t
    ensures forall k | 0 <= k < |c| :: c[k] in h
    ensures forall k | 0 <= k < |c| - 1 :: h[c[k]].proto == Some(c[k + 1])
    ensures h[c[|c| - 1]].proto == None
    decreases h[t].height
  {
    match h[t].proto
    case None => [t]
    case Some(p) => [t] + Chain(h, p)
  }

  /** One pass of the inner loop: add the entries of `m` whose names `acc` lacks. */
  function AddMissing(acc: PropertyMap, m: PropertyMap): (r: PropertyMap)
    ensures r.Keys == acc.Keys + m.Keys
    ensures forall p | p in acc :: r[p] == acc[p]
    ensures forall p | p in m && p !in acc :: r[p] == m[p]
  {
    map p | p in acc.Keys + m.Keys :: if p in acc then acc[p] else m[p]
  }

  /** The loop's result from accumulator `acc` over the remaining `chain`. */
  function MergeFrom(s: Store, acc: PropertyMap, chain: seq<TargetId>): PropertyMap
    decreases |chain|
  {
    if chain == [] then acc
    else MergeFrom(s, AddMissing(acc, OwnProperties(s, chain[0])), chain[1..])
  }

  /** Some object of `chain` has an own descriptor for `p`. */
  predicate DefinedAlong(s: Store, chain: seq<TargetId>, p: MemberName) {
    exists i | 0 <= i < |chain| :: p in OwnProperties(s, chain[i])
  }

  /** The key set of a merge is the accumulator's keys plus every own map's keys along the chain. */
  lemma {:induction false} MergedKeys(s: Store, acc: PropertyMap, chain: seq<TargetId>, p: MemberName)
    ensures p in MergeFrom(s, acc, chain) <==> p in acc || DefinedAlong(s, chain, p)
    decreases |chain|
  {
    if chain != [] {
      var acc' := AddMissing(acc, OwnProperties(s, chain[0]));
      MergedKeys(s, acc', chain[1..], p);
      if DefinedAlong(s, chain, p) && p !in OwnProperties(s, chain[0]) {
        var i :| 0 <= i < |chain| && p in OwnProperties(s, chain[i]);
        assert chain[1..][i - 1] == chain[i];
      }
      if DefinedAlong(s, chain[1..], p) {
        var i :| 0 <= i < |chain[1..]| && p in OwnProperties(s, chain[1..][i]);
        assert chain[i + 1] == chain[1..][i];
      }
    }
  }

  /** What the accumulator already holds is never overwritten. */
  lemma {:induction false} MergeKeepsAccumulated(s: Store, acc: PropertyMap, chain: seq<TargetId>, p: MemberName)
    requires p in acc
    ensures p in MergeFrom(s, acc, chain) && MergeFrom(s, acc, chain)[p] == acc[p]
    decreases |chain|
  {
    if chain != [] {
      MergeKeepsAccumulated(s, AddMissing(acc, OwnProperties(s, chain[0])), chain[1..], p);
    }
  }

  /** A name the accumulator lacks gets the descriptor of the first object along the chain that defines it. */
  lemma {:induction false} MergeTakesFirstDefining(s: Store, acc: PropertyMap, chain: seq<TargetId>, p: MemberName, j: nat)
    requires j < |chain| && p in OwnProperties(s, chain[j]) && p !in acc
    requires forall i | 0 <= i < j :: p !in OwnProperties(s, chain[i])
    ensures p in MergeFrom(s, acc, chain) && MergeFrom(s, acc, chain)[p] == OwnProperties(s, chain[j])[p]
    decreases |chain|
  {
    var acc' := AddMissing(acc, OwnProperties(s, chain[0]));
    if j == 0 {
      MergeKeepsAccumulated(s, acc', chain[1..], p);
    } else {
      assert p !in OwnProperties(s, chain[0]);
      forall i | 0 <= i < j - 1
        ensures p !in OwnProperties(s, chain[1..][i])
      {
        assert chain[1..][i] == chain[i + 1];
      }
      MergeTakesFirstDefining(s, acc', chain[1..], p, j - 1);
    }
  }

  /** One iteration of the outer loop: merge the own map of `obj`, then go on from its prototype. */
  lemma MergeChainStep(s: Store, h: Heap, obj: TargetId, acc: PropertyMap)
    requires WellFormed(h) && obj in h
    ensures var acc' := AddMissing(acc, OwnProperties(s, obj));
            MergeFrom(s, acc, Chain(h, obj)) == match h[obj].proto
              case None => acc'
              case Some(parent) => MergeFrom(s, acc', Chain(h, parent))
  {
    var c := Chain(h, obj);
    assert c != [] && c[0] == obj;
    var acc' := AddMissing(acc, OwnProperties(s, obj));
    assert MergeFrom(s, acc, c) == MergeFrom(s, acc', c[1..]);
    match h[obj].proto
    case None =>
      assert c[1..] == [];
    case Some(parent) =>
      assert c[1..] == Chain(h, parent);
  }

  /** An object without own property metadata adds nothing. */
  lemma AddMissingNothing(acc: PropertyMap)
    ensures AddMissing(acc, map[]) == acc
  {
  }

  /** One iteration of the inner loop keeps its invariant. */
  lemma AddMissingStep(before: PropertyMap, m: PropertyMap, pending: set<MemberName>, p: MemberName)
    requires p in pending && pending <= m.Keys
    ensures var acc := AddMissing(before, m - pending);
            AddMissing(before, m - (pending - {p})) == if p in acc then acc else acc[p := m[p]]
  {
    var acc := AddMissing(before, m - pending);
    var next := AddMissing(before, m - (pending - {p}));
    assert (m - (pending - {p})).Keys == (m - pending).Keys + {p};
    if p in acc {
      assert p in before;
      assert next == acc;
    } else {
      assert next == acc[p := m[p]];
    }
  }

  /**
   * The inner `for (const p in m)` loop of `describeInjectedProperties`: add
   * each entry of `m` whose name `metadata` does not hold yet.
   */
  method AddNonExistent(metadata: PropertyMap, m: PropertyMap) returns (r: PropertyMap)
    ensures r == AddMissing(metadata, m)
  {
    r := metadata;
    var pending := m.Keys;
    while pending != {}
      invariant pending <= m.Keys
      invariant r == AddMissing(metadata, m - pending)
      decreases pending
    {
      var p :| p in pending;
      AddMissingStep(metadata, m, pending, p);
      if p !in r {
        r := r[p := m[p]];
      }
      pending := pending - {p};
    }
    assert m - {} == m;
  }

  /**
   * `describeInjectedProperties(target)`: walk the prototype chain from
   * `target` to its root, adding each own property descriptor whose name has
   * not been seen yet.
   */
  method DescribeInjectedProperties(s: Store, h: Heap, target: TargetId) returns (metadata: PropertyMap)
    requires WellFormed(h) && target in h
    ensures metadata == MergeFrom(s, map[], Chain(h, target))
  {
    metadata := map[];
    var obj := target;
    while true
      invariant obj in h
      invariant MergeFrom(s, metadata, Chain(h, obj)) == MergeFrom(s, map[], Chain(h, target))
      decreases h[obj].height
    {
      MergeChainStep(s, h, obj, metadata);
      var key := PropertiesKey(obj);
      if key in s && s[key].Properties? {
        metadata := AddNonExistent(metadata, s[key].entries);
      } else {
        AddMissingNothing(metadata);
      }
      match h[obj].proto
      case None =>
        break;
      case Some(parent) =>
        obj := parent;
    }
  }

  /** The described properties are exactly the names defined somewhere along the chain. */
  lemma DescribedPropertyKeys(s: Store, h: Heap, target: TargetId, p: MemberName)
    requires WellFormed(h) && target in h
    ensures p in MergeFrom(s, map[], Chain(h, target)) <==> DefinedAlong(s, Chain(h, target), p)
  {
    MergedKeys(s, map[], Chain(h, target), p);
  }

  /** Each described property carries the descriptor of the most-derived object defining it. */
  lemma DescribedPropertyMostDerived(s: Store, h: Heap, target: TargetId, p: MemberName, j: nat)
    requires WellFormed(h) && target in h
    requires j < |Chain(h, target)| && p in OwnProperties(s, Chain(h, target)[j])
    requires forall i | 0 <= i < j :: p !in OwnProperties(s, Chain(h, target)[i])
    ensures p in MergeFrom(s, map[], Chain(h, target))
    ensures MergeFrom(s, map[], Chain(h, target))[p] == OwnProperties(s, Chain(h, target)[j])[p]
  {
    MergeTakesFirstDefining(s, map[], Chain(h, target), p, j);
  }

  /** A descriptor on the target itself shadows any ancestor's descriptor of the same name. */
  lemma OwnDescriptorShadowsAncestors(s: Store, h: Heap, target: TargetId, p: MemberName)
    requires WellFormed(h) && target in h
    requires p in OwnProperties(s, target)
    ensures p in MergeFrom(s, map[], Chain(h, target))
    ensures MergeFrom(s, map[], Chain(h, target))[p] == OwnProperties(s, target)[p]
  {
    MergeTakesFirstDefining(s, map[], Chain(h, target), p, 0);
  }

  // ---------------------------------------------------------------------------
  // The membership test as written

  /** The names an empty object literal already answers `in` for: those of `Object.prototype`. */
  const OBJECT_PROTOTYPE_NAMES: set<string> := {
    "constructor", "hasOwnProperty", "isPrototypeOf", "propertyIsEnumerable",
    "toString", "toLocaleString", "valueOf", "__proto__",
    "__defineGetter__", "__defineSetter__", "__lookupGetter__", "__lookupSetter__"
  }

  /**
   * The inner loop as written: `!(p in metadata)` on an object literal is
   * false for every `Object.prototype` name, so those names are never added.
   */
  function AddMissingAsWritten(acc: PropertyMap, m: PropertyMap): (r: PropertyMap)
    ensures r.Keys == acc.Keys + (m.Keys - OBJECT_PROTOTYPE_NAMES)
    ensures forall p | p in acc :: r[p] == acc[p]
  {
    map p | p in acc.Keys + (m.Keys - OBJECT_PROTOTYPE_NAMES) :: if p in acc then acc[p] else m[p]
  }

  /** `describeInjectedProperties` as written, from accumulator `acc`. */
  function MergeFromAsWritten(s: Store, acc: PropertyMap, chain: seq<TargetId>): (r: PropertyMap)
    ensures forall p | p in OBJECT_PROTOTYPE_NAMES :: p in r <==> p in acc
    decreases |chain|
  {
    if chain == [] then acc
    else MergeFromAsWritten(s, AddMissingAsWritten(acc, OwnProperties(s, chain[0])), chain[1..])
  }

  /** Off the `Object.prototype` names, the as-written merge and the corrected one agree. */
  lemma {:induction false} AsWrittenAgreesOffPrototypeNames(s: Store, acc: PropertyMap, chain: seq<TargetId>)
    requires acc.Keys !! OBJECT_PROTOTYPE_NAMES
    requires forall i | 0 <= i < |chain| :: OwnProperties(s, chain[i]).Keys !! OBJECT_PROTOTYPE_NAMES
    ensures MergeFromAsWritten(s, acc, chain) == MergeFrom(s, acc, chain)
    decreases |chain|
  {
    if chain != [] {
      var own := OwnProperties(s, chain[0]);
      assert own.Keys - OBJECT_PROTOTYPE_NAMES == own.Keys;
      assert AddMissingAsWritten(acc, own) == AddMissing(acc, own);
      forall i | 0 <= i < |chain[1..]|
        ensures OwnProperties(s, chain[1..][i]).Keys !! OBJECT_PROTOTYPE_NAMES
      {
        assert chain[1..][i] == chain[i + 1];
      }
      AsWrittenAgreesOffPrototypeNames(s, AddMissing(acc, own), chain[1..]);
    }
  }

  /** A class whose prototype injects `toString`: as written it is lost, corrected it is described. */
  lemma AsWrittenLosesToString(inj: Injection)
    ensures var s: Store := map[PropertiesKey(0) := Properties(map["toString" := inj])];
            var h: Heap := map[0 := ObjectInfo(None, false, "Greeter", 0)];
            && WellFormed(h)
            && "toString" in OwnProperties(s, 0)
            && "toString" !in MergeFromAsWritten(s, map[], Chain(h, 0))
            && MergeFrom(s, map[], Chain(h, 0))["toString"] == inj
  {
  }
}
