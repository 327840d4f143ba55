# Injection metadata and the passport strategy adapter, modelled in Dafny

This project models two small cores of the LoopBack IoC framework.

**The injection registrar** (`inject.dfy`, module `Inject`) models `@inject(...)` and the two queries that read its metadata back.

- The ambient `Reflector` store is an explicit map from `(metadataKey, target, member?)` to the stored value. It is kept in the `MetadataRegistry` class, which starts empty.
- Its values are a sparse parameter array (`seq<Option<Injection>>`, where `None` is a hole), a property dictionary, or metadata of other clients.
- `MetadataRegistry.Inject` is the decorator body. A numeric index writes one parameter slot under key `inject:parameters`. Otherwise a truthy property key writes one entry of the target's own map under key `inject:properties`. Two cases throw instead, and the thrown error is returned:
  - the target's prototype is a function (a static member);
  - there is neither an index nor a truthy key.
- `DescribeInjectedArguments` reads the parameter array back, or `[]`.
- `DescribeInjectedProperties` walks the prototype chain to the object whose prototype is `null`. It adds each own descriptor whose name it has not seen yet.
- The prototype graph is a map from object ids to their prototype, their `typeof` being `'function'`, their `name` and a height that strictly drops along prototype links. This makes the chain finite and acyclic, and the loop terminates.

JavaScript truthiness is kept as the code has it:
- a property key `""` is refused as "neither a parameter nor a property";
- `describeInjectedArguments(target, "")` reads the constructor's descriptors, not those a method named `""` registered (`EmptyMethodNameReadsConstructor`). This assumes the `Reflector` keeps the member key `""` apart from an absent one (see "Left out").

The store's `getMetadata` and `getOwnMetadata` are both taken to be single-level lookups, because the `Reflector` implementation is not part of this model. The parameter query therefore does not walk the prototype chain.

**The strategy adapter** (`strategy_adapter.dfy`, module `Authentication`) models `ShimRequest` and `StrategyAdapter`.

- `ShimRequest` copies five fields of the parsed request, or leaves all five unset when there is no request.
- A passport strategy is represented by the one handler call (`success`, `fail` or `error`) its `authenticate` makes for a given shimmed request.
- `StrategyAdapter.Authenticate` builds a fresh `StrategyInstance` (the `Object.create` result) on top of the wrapped strategy. It installs the three handlers on that instance, all settling one fresh `Promise`, and runs the strategy.
- The promise ends `Resolved(user)` on `success(user)`, and `Rejected(Error(m))` on `fail(m)` or `error(m)`. A strategy that throws before calling a handler rejects the promise with the thrown value, as a throw inside a promise executor does.
- `StrategyAdapter.Authenticate` creates the shim, the instance and the promise fresh, and installs the handlers on the fresh instance only. It has no `modifies` clause, so no object that existed before the call changes; in particular the wrapped strategy gets no handlers.

## Model

| member | source | states |
|---|---|---|
| `Inject.Assign` | packages/context/src/inject.ts:74-78 | assigning slot i of a sparse array sets slot i, keeps every other slot, fills any growth with holes, and gives length max(len, i+1) |
| `Inject.MetadataRegistry.Inject` | packages/context/src/inject.ts:61-102 | a numeric index writes one parameter slot; otherwise a truthy key on a non-static target writes one own property entry; a static target throws the static-property message with `name.key` and leaves the store unchanged; otherwise it throws the "properties or method parameters" error and leaves the store unchanged; the store stays well typed |
| `Inject.RegisterParameter` | packages/context/src/inject.ts:72-84 | the write stores the assigned array under `(inject:parameters, target, member)`, that array is what the own lookup then reads, and every other store entry is kept |
| `Inject.RegisterProperty` | packages/context/src/inject.ts:93-96 | the write stores the target's own map with `name` set under `(inject:properties, target)`, that map is what the own lookup then reads, and every other store entry is kept |
| `Inject.IsStaticSurface` | packages/context/src/inject.ts:86 | a target is a static surface exactly when it has a prototype and that prototype's `typeof` is `'function'`; an object without a prototype never is |
| `Inject.MessageIdentifiesError` | packages/context/src/inject.ts:86-100 | the thrown message determines the error: the two kinds have different messages, and the static-property message determines the `name.key` it names |
| `Inject.RegisteredArgumentVisible` | packages/context/src/inject.ts:69-84 | after registering at index i, `describeInjectedArguments` shows the descriptor at slot i, every other old slot unchanged, and holes for new slots |
| `Inject.FirstRegistrationStartsEmpty` | packages/context/src/inject.ts:72-73 | with no array stored yet, one registration at i gives length i+1 with only slot i defined |
| `Inject.LatestRegistrationWins` | packages/context/src/inject.ts:74-78 | registering twice at the same index gives the same store as registering only the second descriptor |
| `Inject.RegisterParameterFrame` | packages/context/src/inject.ts:79-84 | a parameter registration changes no store entry other than its own (metadata key, target, member) |
| `Inject.RegisterParameterLeavesOthers` | packages/context/src/inject.ts:79-84 | the parameter arrays of every other (target, member), and all property maps, read back unchanged |
| `Inject.ConstructorAndMethodSlotsDistinct` | packages/context/src/inject.ts:116-120 | constructor and named-method registrations do not affect each other's lookups |
| `Inject.DescribeArgumentsDefault` | packages/context/src/inject.ts:116-120 | with nothing stored for the member looked up, `describeInjectedArguments` returns the empty sequence |
| `Inject.EmptyMethodNameReadsConstructor` | packages/context/src/inject.ts:116-120 | the falsy method name `""` reads the constructor's array, so a registration under `""` is not seen by that lookup |
| `Inject.RegisteredPropertyVisible` | packages/context/src/inject.ts:93-96 | a property registration sets `map[key]` in the target's own map; every other target's own map is unchanged |
| `Inject.RegisterPropertyLeavesParameters` | packages/context/src/inject.ts:93-96 | a property registration leaves every parameter lookup unchanged |
| `Inject.RegistrationKeepsWellTyped` | packages/context/src/inject.ts:72-96 | both kinds of registration keep each injection key holding values of its own kind |
| `Inject.WellTypedLookupsExact` | packages/context/src/inject.ts:73-94 | in a well-typed store, the `\|\| []` and `\|\| {}` defaults only stand in for a missing entry: a stored array or map is read back as it is |
| `Inject.DescribeInjectedArguments` | packages/context/src/inject.ts:111-121 | the result is the array stored for the method, or for the constructor when the method name is falsy, and `[]` when nothing is stored under that key |
| `Inject.Chain` | packages/context/src/inject.ts:133-147 | the visited objects start at the target, follow prototype links, stay in the heap and end at the object whose prototype is null |
| `Inject.MergeChainStep` | packages/context/src/inject.ts:134-147 | one pass of the outer loop merges the current object's own map and continues from its prototype, or stops at the root |
| `Inject.AddMissing` | packages/context/src/inject.ts:138-142 | one own map merged in keeps every accumulated entry and adds exactly the entries whose names were missing |
| `Inject.AddMissingStep` | packages/context/src/inject.ts:138-142 | one pass of the inner loop adds the entry exactly when its name is not yet present |
| `Inject.AddNonExistent` | packages/context/src/inject.ts:138-142 | the `for..in` loop yields the old entries plus exactly those of `m` whose names were absent |
| `Inject.DescribeInjectedProperties` | packages/context/src/inject.ts:128-149 | the loop's result equals the first-found-wins merge of the own property maps along the whole chain, and the loop terminates at the root |
| `Inject.MergedKeys` | packages/context/src/inject.ts:135-142 | a name is in the merge exactly when it is in the accumulator or in some own map along the chain |
| `Inject.MergeKeepsAccumulated` | packages/context/src/inject.ts:139-141 | an entry already in the accumulator is never overwritten by an ancestor's |
| `Inject.MergeTakesFirstDefining` | packages/context/src/inject.ts:138-142 | a name the accumulator lacks maps to the descriptor of the first object in the chain that defines it |
| `Inject.DescribedPropertyKeys` | packages/context/src/inject.ts:128-149 | the described key set is the union of the own property maps' keys along the chain, both directions |
| `Inject.DescribedPropertyMostDerived` | packages/context/src/inject.ts:128-149 | each described name carries the descriptor of the most-derived object defining it |
| `Inject.OwnDescriptorShadowsAncestors` | packages/context/src/inject.ts:135-142 | a descriptor on the target itself wins over any ancestor's descriptor of the same name |
| `Inject.AddMissingAsWritten` | packages/context/src/inject.ts:138-142 | as written, one pass keeps every accumulated entry and adds only the names that are neither accumulated nor `Object.prototype` names |
| `Inject.MergeFromAsWritten` | packages/context/src/inject.ts:132-147 | as written, the merge holds an `Object.prototype` name exactly when the accumulator already held it: no such property is ever added |
| `Inject.AsWrittenAgreesOffPrototypeNames` | packages/context/src/inject.ts:139 | when neither the accumulator nor any own map along the chain uses an `Object.prototype` name, the as-written walk and the corrected one give the same result |
| `Inject.AsWrittenLosesToString` | packages/context/src/inject.ts:132-142 | a class whose own map injects `toString` gets no `toString` entry as written, but gets it under the corrected test |
| `Authentication.ShimRequest.constructor` | packages/authentication/src/strategy-adapter.ts:38-46 | from a request, exactly `headers`, `query`, `url`, `path` and `method` equal the request's; without one, all five are unset |
| `Authentication.Settle` | packages/authentication/src/strategy-adapter.ts:69 | a settled promise keeps its state whatever is applied later; a pending promise takes the verdict it is given, so a verdict leaves it settled |
| `Authentication.Promise.Resolve` | packages/authentication/src/strategy-adapter.ts:75-77 | `resolve(user)` settles a pending promise to the user and has no effect on a settled one |
| `Authentication.Promise.Reject` | packages/authentication/src/strategy-adapter.ts:80-87 | `reject(err)` settles a pending promise to the error and has no effect on a settled one |
| `Authentication.StrategyInstance.Authenticate` | packages/authentication/src/strategy-adapter.ts:74-90 | the strategy's chosen handler settles its own promise: `success(user)` resolves with user; `fail(c)` and `error(e)` reject with an `Error` whose message is c or e; promises of handlers not called are untouched; a strategy that throws settles nothing and its thrown value is handed back |
| `Authentication.StrategyAdapter.constructor` | packages/authentication/src/strategy-adapter.ts:56-58 | the adapter stores the strategy it wraps |
| `Authentication.StrategyAdapter.Authenticate` | packages/authentication/src/strategy-adapter.ts:67-92 | each call returns a fresh promise and builds a fresh shim and a fresh instance whose prototype is the wrapped strategy and whose three handlers all settle that promise; the promise is settled as the call the strategy makes on the shimmed request dictates, and rejected with the thrown value when the strategy throws; no object that existed before the call changes |
| `Authentication.Outcome` | packages/authentication/src/strategy-adapter.ts:69-90 | every handler call, and a throw, settles the promise (never left pending) |
| `Authentication.OutcomeCharacterized` | packages/authentication/src/strategy-adapter.ts:69-90 | the result is `Resolved(u)` exactly when the strategy called `success(u)`, and `Rejected(Error(m))` exactly when it called `fail(m)` or `error(m)` or threw an `Error` with message m |

## Findings

| source | as written | input that shows it | evidently intended | confidence | as-written member | corrected member |
|---|---|---|---|---|---|---|
| packages/context/src/inject.ts:139 | `!(p in metadata)` where `metadata` is the literal `{}`; `in` also finds the names `metadata` inherits from `Object.prototype` | a class whose prototype injects a property named `toString` (or `valueOf`, `constructor`, and so on): `describeInjectedProperties` omits it | skip only names already added to `metadata` (an own-property test) | not executed; follows from the semantics of `in` | `Inject.AsWrittenLosesToString` | `Inject.DescribeInjectedProperties` |

The as-written merge is `MergeFromAsWritten`. The corrected merge `MergeFrom` is what `DescribeInjectedProperties` computes and what every other lemma is about.

## Left out

- The `Reflector` implementation, `Context` and `Binding` are not part of this model. Resolution, scoping, providers and cycle detection are not modelled. `getMetadata` is assumed to be the same single-level lookup as `getOwnMetadata`.
- Decorator syntax and TypeScript design-type metadata are not modelled. `MetadataRegistry.Inject` takes the decorator's three arguments directly. A property descriptor and `undefined` as the third argument behave alike, so both are `None`.
- The `Reflector` is assumed to store metadata under the member key `""` apart from metadata stored with no member key. `EmptyMethodNameReadsConstructor` depends on this; a `Reflector` that folded `""` into "no member" would make `describeInjectedArguments(target, "")` see a registration under `""`.
- `MetadataRegistry.Inject`: a parameter index is a `nat`. Decorators only ever pass small non-negative integer indices; a negative, fractional or very large number would set an ordinary property of the array rather than a slot, and that is not modelled.
- Symbol keys are not modelled: member names are strings. As code, `for..in` would also skip symbol-keyed property descriptors.
- Registering a property named `__proto__` is not modelled. In JavaScript that assignment replaces the dictionary's prototype instead of adding a key. The model treats `__proto__` as an ordinary name.
- Aliasing is not modelled: stored arrays and dictionaries are values. In the source, `describeInjectedArguments` returns the stored array itself, so a caller that mutates it changes the store.
- Key order is not modelled: property maps are unordered, so the insertion order of the merged dictionary is left out.
- A target that is not an object (`undefined`) is not modelled: `MetadataRegistry.Inject` and `DescribeInjectedProperties` require the target to be an object of the heap.
- Errors are returned as a value rather than thrown. `Message` gives the text of each error.
- Descriptor metadata is modelled as a dictionary of opaque values, and a custom resolver as an opaque identity. Resolvers are never called here.
- `Authentication.StrategyAdapter.Authenticate`: `Object.create` on a value that is not an object also throws inside the executor; here the wrapped strategy is an object by typing, so that path does not arise. A strategy that throws after it has called a handler is not modelled: `Threw` stands for a throw before any handler call. Thrown values other than an `Error` are not modelled.
- Strategies that call no handler or several, and the JavaScript promise scheduler, are not modelled. A strategy is the one handler call it makes. `Promise` only keeps the settle-once rule.
- Extra handler arguments (`info`, a status for `fail`), and non-string challenges and errors, are not modelled.
- Of a parsed request, only the five copied fields and `pathname` are modelled. The other HTTP fields are left out.
- The passport library, HTTP server, basic-auth acceptance test and its `UserRepository` helper, and the juggler repository example are I/O, foreign libraries or test scaffolding. They are not modelled.
