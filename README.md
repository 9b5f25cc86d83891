# ScanningRecipe, modelled in Dafny

This project models the orchestration core of OpenRewrite's `ScanningRecipe<T>`.
A scanning recipe first scans every source file into an accumulator. It may then
generate new files from that accumulator. Finally it transforms files with a
visitor bound to the finished accumulator. The model covers three pieces of state:

- **The accumulator key.** Each recipe instance holds a string key
  `org.openrewrite.recipe.acc.<uuid>`. It is made at construction. It is made
  again, from a new random UUID, if the field is ever found null.
- **The accumulator lookup.** `GetAccumulator` does a get-or-compute under that
  key in the message store of the cursor's root. On a miss it stores the
  recipe's initial value.
- **The transform-pass wrapper.** `getVisitor()` returns a wrapper visitor. On
  its first call it binds `getVisitor(getAccumulator(cursor, ctx))`. From then
  on it forwards `isAcceptable`, `visit` and `visit` with a parent cursor to
  that same visitor.

Files:

- `ScanningRecipe.dfy`: module `ScanningRecipes`. It holds the key, the defaults
  (`Generate`, `GenerateWithPeers`, `GetVisitor`), the classes `ScanningRecipe`
  and `DelegatingVisitor`, and pure models of repeated calls with their lemmas.
- `Cursor.dfy`: module `Cursors`. It holds the root's get-or-compute, first as a
  function and then as the `Root` class that holds the message map.
- `Uuid.dfy`: module `Uuids`. It holds the text form of a UUID (`java.util.UUID.toString`)
  and the proof that distinct UUIDs have distinct texts.
- `TreeVisitor.dfy`: module `TreeVisitors`. It holds opaque trees, source files
  and contexts, a visitor seen as its three entry points, and the no-op visitor.
- `Wrappers.dfy`: the `Option` type. `None` stands for Java's `null`.

Modelling choices:

- **Overridable members.** What a concrete subclass supplies is a `Hooks` value.
  Its fields are the abstract members `getInitialValue` and `getScanner`, and
  optional overrides of the two `generate` methods and of `getVisitor(T)`. A
  `None` override means the inherited default applies. This is how virtual
  dispatch is modelled: the default three-argument `generate` calls whatever
  two-argument `generate` the subclass has.
- **Randomness.** `UUID.randomUUID()` becomes an arbitrary choice of a 128-bit
  value (`:|`). The ghost field `keyUuid` records the UUID the current key was
  made from.
- **The null key.** A key that was never initialised is `None`. The constructor
  `Reconstituted` produces such an instance, standing for one built without its
  field initialiser. The regular constructor always sets a key.
- **The cursor.** The cursor that the wrapper's `getCursor()` returns at the time
  of a call is an explicit `cursor` argument of each forwarding method. A
  `Cursor` leads directly to its `Root`.
- **Counted calls.** The ghost counters `ScanningRecipe.initialValueCalls` and
  `DelegatingVisitor.getVisitorCalls` count the calls of the hooks. This is how
  "called at most once" is stated.
- **Repeated calls.** `GetAccumulatorCalls` and `RunDelegatingVisitor` describe a
  whole run of calls, one step after another. They use the same step functions
  (`ComputeIfAbsent`, `Binding`) as the contracts of the class methods. The
  methods `ScanningRecipe.GetAccumulatorEach` and `DelegatingVisitor.CallEach`
  make such a run on the classes themselves, the way the engine calls them file
  after file. Their contracts prove that the run gives exactly what the pure
  description gives, so the at-most-once lemmas hold of the classes. The
  contract of `CallEach` also states what a run does to the recipe's key, to
  every root store and to the count of initial values. `ScanThenTransformEach`
  puts a scan pass and a transform pass together.

## Model

| member | source | states |
|---|---|---|
| `ScanningRecipes.AccMessage` | rewrite-core/src/main/java/org/openrewrite/ScanningRecipe.java:36 | The key made from a UUID starts with `org.openrewrite.recipe.acc.` and is exactly 36 characters (the UUID text) longer than that prefix |
| `ScanningRecipes.AccMessageInjective` | rewrite-core/src/main/java/org/openrewrite/ScanningRecipe.java:36 | Two keys are equal only if they were made from the same UUID |
| `ScanningRecipes.RecipesDoNotShareAccumulators` | rewrite-core/src/main/java/org/openrewrite/ScanningRecipe.java:95-97 | A lookup by one recipe leaves the entry of a recipe with a different UUID as it was, whether that entry is present or absent |
| `ScanningRecipes.ScanningRecipe.constructor` | rewrite-core/src/main/java/org/openrewrite/ScanningRecipe.java:36 | A new recipe has a key, made from some UUID, and has called `getInitialValue` zero times |
| `ScanningRecipes.ScanningRecipe.Reconstituted` | rewrite-core/src/main/java/org/openrewrite/ScanningRecipe.java:38-41 | An instance whose key field is null, the state the defensive regeneration handles |
| `ScanningRecipes.ScanningRecipe.GetRecipeAccMessage` | rewrite-core/src/main/java/org/openrewrite/ScanningRecipe.java:38-43 | Afterwards the field holds the returned key, and the key starts with the prefix. A key already present is returned unchanged and its UUID is kept. A null key is replaced by one made from a new UUID |
| `ScanningRecipes.ScanningRecipe.GetAccumulator` | rewrite-core/src/main/java/org/openrewrite/ScanningRecipe.java:95-97 | On a hit it returns the stored value, leaves the store unchanged and does not call `getInitialValue`. On a miss it calls `getInitialValue(ctx)` once, stores the result under this recipe's key only, and returns it. A present key is kept |
| `ScanningRecipes.ScanningRecipe.GetAccumulatorEach` | rewrite-core/src/main/java/org/openrewrite/ScanningRecipe.java:95-97 | Successive lookups with one cursor give the results, the root store and the `getInitialValue` count of `GetAccumulatorCalls` from the store held before. So `getInitialValue` runs at most once over the whole run, and a present key is kept |
| `ScanningRecipes.ScanningRecipe.GetDelegatingVisitor` | rewrite-core/src/main/java/org/openrewrite/ScanningRecipe.java:99-103 | Every call yields a new wrapper for this recipe, with no bound delegate and no `getVisitor` calls yet |
| `ScanningRecipes.DelegatingVisitor.constructor` | rewrite-core/src/main/java/org/openrewrite/ScanningRecipe.java:101-103 | A new wrapper starts with its delegate unset |
| `ScanningRecipes.DelegatingVisitor.Delegate` | rewrite-core/src/main/java/org/openrewrite/ScanningRecipe.java:105-110 | When already bound, it returns the bound visitor and changes nothing (recipe, root store and counter). When unbound, it looks up the accumulator as `GetAccumulator` does: a present key is kept, and the root store gains at most this recipe's entry. On a miss `getInitialValue` is counted once. It then binds `getVisitor` of that accumulator, counting one `getVisitor` call. Either way the delegate is set to the returned visitor |
| `ScanningRecipes.DelegatingVisitor.IsAcceptable` | rewrite-core/src/main/java/org/openrewrite/ScanningRecipe.java:112-115 | Binds as `Delegate` does, then answers exactly what the bound visitor's `isAcceptable` answers |
| `ScanningRecipes.DelegatingVisitor.VisitWithParent` | rewrite-core/src/main/java/org/openrewrite/ScanningRecipe.java:117-120 | Binds as `Delegate` does, then returns exactly the bound visitor's result for the tree, context and parent cursor, null (deletion) included |
| `ScanningRecipes.DelegatingVisitor.Visit` | rewrite-core/src/main/java/org/openrewrite/ScanningRecipe.java:122-125 | Binds as `Delegate` does, then returns exactly the bound visitor's result for the tree and context, null (deletion) included |
| `ScanningRecipes.DelegatingVisitor.Respond` | rewrite-core/src/main/java/org/openrewrite/ScanningRecipe.java:112-125 | A call of any of the three kinds binds as `Delegate` does, then gets the bound visitor's answer to that call |
| `ScanningRecipes.DelegatingVisitor.ForwardEach` | rewrite-core/src/main/java/org/openrewrite/ScanningRecipe.java:105-125 | On a bound wrapper, every call of a run is answered by the bound visitor, and nothing changes: not the delegate, not the `getVisitor` count, not the recipe, and no root store |
| `ScanningRecipes.DelegatingVisitor.CallEach` | rewrite-core/src/main/java/org/openrewrite/ScanningRecipe.java:100-126 | A run of calls, each with its own context and cursor, gives the answers, the bound visitor and the `getVisitor` count of `RunDelegatingVisitor`. Each call sees the store its cursor's root held just before it. So `getVisitor` runs exactly once if the wrapper was unbound and there was a call, and otherwise never. A present key is kept. Only the first call of an unbound wrapper changes any store: its root gains this recipe's accumulator, `getInitialValue` is counted once on a miss and not at all on a hit, and every other root is unchanged. A bound wrapper or an empty run changes no store, no key and no count |
| `ScanningRecipes.FirstCallBinds` | rewrite-core/src/main/java/org/openrewrite/ScanningRecipe.java:105-125 | A run whose first call binds `v` (or finds it bound) answers every call with `v`, ends bound to `v`, and calls `getVisitor` once only if the first call found the wrapper unbound |
| `ScanningRecipes.ScanThenTransform` | rewrite-core/src/main/java/org/openrewrite/ScanningRecipe.java:95-126 | After a scan-pass lookup, a new wrapper visiting under a cursor with the same root binds `getVisitor` of exactly the accumulator the scan got, and answers with that visitor. `getInitialValue` runs at most once across both |
| `ScanningRecipes.ScanThenTransformEach` | rewrite-core/src/main/java/org/openrewrite/ScanningRecipe.java:95-126 | A scan pass of one or more lookups, then a transform pass of any number of calls through a new wrapper under cursors with the same root. `getInitialValue` runs at most once in all. Every scan lookup gets the same accumulator, and the store gains only that entry. The transform pass binds `getVisitor` of that accumulator once if it makes a call, and answers every call with that visitor |
| `ScanningRecipes.Generate` | rewrite-core/src/main/java/org/openrewrite/ScanningRecipe.java:79-81 | Without an override it generates no files; with one it generates what the override returns |
| `ScanningRecipes.GenerateWithPeers` | rewrite-core/src/main/java/org/openrewrite/ScanningRecipe.java:69-71 | Without an override it returns what the two-argument generation returns for the same accumulator and context (whether or not that one is overridden) |
| `ScanningRecipes.DefaultGenerationIsEmpty` | rewrite-core/src/main/java/org/openrewrite/ScanningRecipe.java:69-81 | With neither generation overridden, the result is empty and does not depend on the files other recipes generated |
| `ScanningRecipes.GetVisitor` | rewrite-core/src/main/java/org/openrewrite/ScanningRecipe.java:91-93 | Without an override it is the no-op visitor; with one it is the override's visitor for the accumulator |
| `TreeVisitors.NoopChangesNothing` | rewrite-core/src/main/java/org/openrewrite/ScanningRecipe.java:92 | The default visitor accepts every file and returns every tree it visits, null included, with or without a parent cursor |
| `ScanningRecipes.StoredAccumulatorIsReused` | rewrite-core/src/main/java/org/openrewrite/ScanningRecipe.java:96 | Once the root holds the accumulator, any number of lookups answer it, leave the store unchanged and compute no initial value |
| `ScanningRecipes.InitialValueComputedAtMostOnce` | rewrite-core/src/main/java/org/openrewrite/ScanningRecipe.java:95-97 | Over any sequence of lookups against one root, `getInitialValue` runs at most once, and exactly once when the root lacked the key and there was a lookup. Every lookup answers the same accumulator: the stored one, or else the first lookup's initial value. That is the only entry added |
| `ScanningRecipes.BoundWrapperKeepsItsVisitor` | rewrite-core/src/main/java/org/openrewrite/ScanningRecipe.java:105-125 | A bound wrapper never calls `getVisitor` again and never changes its delegate. It answers every call as the bound visitor does, under any cursor |
| `ScanningRecipes.GetVisitorCalledAtMostOnce` | rewrite-core/src/main/java/org/openrewrite/ScanningRecipe.java:103-126 | For a fresh wrapper and any sequence of calls, `getVisitor` runs at most once, and exactly once if there was a call. The visitor bound is the one for the accumulator under the first call's cursor, and all calls are answered by it, even those under other cursors |
| `Cursors.ComputeIfAbsent` | rewrite-core/src/main/java/org/openrewrite/ScanningRecipe.java:96 | The store afterwards binds the key to the answer and nothing else changes. The supplier runs exactly when the key was absent. A present value is answered as stored; otherwise the supplier's value is answered |
| `Cursors.Root.ComputeMessageIfAbsent` | rewrite-core/src/main/java/org/openrewrite/ScanningRecipe.java:96 | The assumed behaviour of the root cursor's get-or-compute: on a hit it returns the stored value and leaves the store unchanged; on a miss it stores and returns the supplier's value under that key only |
| `Cursors.ComputeIfAbsentStable` | rewrite-core/src/main/java/org/openrewrite/ScanningRecipe.java:96 | A second get-or-compute of the same key is a hit: it answers the first one's value, leaves the store unchanged and runs no supplier |
| `Cursors.OtherMessagesUnchanged` | rewrite-core/src/main/java/org/openrewrite/ScanningRecipe.java:96 | A get-or-compute leaves every other key present or absent as before, with the same value |
| `Uuids.Hex` | rewrite-core/src/main/java/org/openrewrite/ScanningRecipe.java:36 | The hexadecimal text has exactly the requested number of characters, all lower-case hexadecimal digits |
| `Uuids.HexInjective` | rewrite-core/src/main/java/org/openrewrite/ScanningRecipe.java:36 | Two numbers that fit in the given number of digits have equal texts only if they are equal |
| `Uuids.UuidText` | rewrite-core/src/main/java/org/openrewrite/ScanningRecipe.java:36 | The UUID text is 36 characters, with dashes exactly at positions 8, 13, 18 and 23 |
| `Uuids.UuidTextInjective` | rewrite-core/src/main/java/org/openrewrite/ScanningRecipe.java:36 | Distinct UUIDs have distinct texts |

## Left out

- Concurrency. Nothing synchronises the `delegate` field (lines 106-108). The atomicity of the root's get-or-compute under parallel scanning is engine behaviour. Every call here runs to completion before the next one starts.
- Exceptions. The hooks here are total functions. In the source any exception propagates, and what stays cached depends on where it is thrown:
  - If `getInitialValue` throws, the root store is left untouched, so the next lookup computes again.
  - If `getVisitor(T)` throws (line 107), the accumulator is already stored on a miss, but `delegate` stays null, so the next call binds again.
  - If the bound visitor throws (lines 114, 119, 124), `delegate` is already set and stays set.
- A null initial value. `java.util.Map.computeIfAbsent` does not store a null returned by the supplier, so such a value would be recomputed on every lookup. The accumulator type here has no null.
- `ScanningRecipes.ScanningRecipe.GetRecipeAccMessage` and `ScanningRecipes.ScanningRecipe.constructor`: the key, whether made at construction or regenerated, is made from an arbitrary 128-bit value. The version and variant bits that `UUID.randomUUID()` fixes are not modelled, and neither is global uniqueness, which holds only with high probability. What is proved instead is that distinct UUIDs give distinct keys.
- `getScanner` (line 60) and `getInitialValue` (line 48) are abstract members, so they appear only as fields of `Hooks`. The scan, generate and transform phases are scheduled by the engine, which also discards the scanner's edits. None of that is in this file.
- `Cursors.Cursor`: the chain of parent cursors is collapsed to a direct reference to the root. The cursor's own implementation of get-or-compute is not part of this model; `Cursors.Root.ComputeMessageIfAbsent` states the behaviour assumed of it.
- `TreeVisitors.Noop`: it is assumed that `TreeVisitor.noop()` accepts every file and returns every tree it visits unchanged. `TreeVisitor` is not part of this model.
- `Cursors.Root`: the real message store holds values of any type, put there by many recipes. Here it is a `map<string, T>` for one accumulator type `T`. Entries of other recipes are modelled only as other keys of the same type.
- The `Recipe` base class, tree walking, visitor dispatch, and a visitor's own cursor handling. A visitor is modelled by its answers alone.
- `getAccumulator` can be overridden by a subclass, and the wrapper would then call the override. That case is not modelled.
