/**
 * A recipe that first scans every source file into an accumulator, may then
 * generate new files from it, and finally transforms files with a visitor
 * bound to the finished accumulator.
 *
 * The accumulator lives in the message store of the traversal's root cursor,
 * under a key unique to the recipe instance; the transforming visitor handed
 * to the engine is a wrapper that binds the real visitor on its first call
 * and forwards every call to it.
 */
module ScanningRecipes {
  import opened Wrappers
  import opened Uuids
  import opened TreeVisitors
  import opened Cursors

  /** Every accumulator key starts with this namespace. */
  const ACC_MESSAGE_PREFIX: string := "org.openrewrite.recipe.acc."

  /** The accumulator key made from a random UUID. */
  function AccMessage(u: Uuid): (key: string)
    ensures |key| == |ACC_MESSAGE_PREFIX| + 36
    ensures ACC_MESSAGE_PREFIX <= key
  {
    ACC_MESSAGE_PREFIX + UuidText(u)
  }

  /** Instances keyed by distinct UUIDs get distinct keys. */
  lemma AccMessageInjective(u: Uuid, v: Uuid)
    requires AccMessage(u) == AccMessage(v)
    ensures u == v
  {
    assert AccMessage(u)[|ACC_MESSAGE_PREFIX|..] == UuidText(u);
    assert AccMessage(v)[|ACC_MESSAGE_PREFIX|..] == UuidText(v);
    UuidTextInjective(u, v);
  }

  /**
   * Two recipe instances keyed by distinct UUIDs never touch each other's
   * accumulator: the get-or-compute of one leaves the other's entry as it was.
   */
  lemma RecipesDoNotShareAccumulators<T>(messages: map<string, T>, mine: Uuid, theirs: Uuid, supplier: string -> T)
    requires mine != theirs
    ensures var r := ComputeIfAbsent(messages, AccMessage(mine), supplier);
            (AccMessage(theirs) in r.messages <==> AccMessage(theirs) in messages) &&
            (AccMessage(theirs) in messages ==> r.messages[AccMessage(theirs)] == messages[AccMessage(theirs)])
  {
    if AccMessage(mine) == AccMessage(theirs) {
      AccMessageInjective(mine, theirs);
      assert false;
    }
    OtherMessagesUnchanged(messages, AccMessage(mine), supplier, AccMessage(theirs));
  }

  /**
   * What a concrete recipe supplies: the two abstract members, and the
   * overridable members (`None` keeps the inherited default).
   */
  datatype Hooks<!T> = Hooks(
    initialValue: ExecutionContext -> T,
    scanner: T -> Visitor,
    generate: Option<(T, ExecutionContext) -> seq<SourceFile>>,
    generateWithPeers: Option<(T, seq<SourceFile>, ExecutionContext) -> seq<SourceFile>>,
    getVisitor: Option<T -> Visitor>)

  /** The files a recipe generates from its accumulator; by default none. */
  function Generate<T>(h: Hooks<T>, acc: T, ctx: ExecutionContext): (files: seq<SourceFile>)
    ensures h.generate.None? ==> files == []
    ensures h.generate.Some? ==> files == h.generate.value(acc, ctx)
  {
    match h.generate
    case None => []
    case Some(generate) => generate(acc, ctx)
  }

  /**
   * Generation told about the files other recipes generated in this cycle; by
   * default it ignores them and answers what `Generate` answers.
   */
  function GenerateWithPeers<T>(h: Hooks<T>, acc: T, generatedInThisCycle: seq<SourceFile>, ctx: ExecutionContext): (files: seq<SourceFile>)
    ensures h.generateWithPeers.None? ==> files == Generate(h, acc, ctx)
  {
    match h.generateWithPeers
    case None => Generate(h, acc, ctx)
    case Some(generate) => generate(acc, generatedInThisCycle, ctx)
  }

  /** Without overrides, generation yields nothing whatever the other recipes generated. */
  lemma DefaultGenerationIsEmpty<T>(h: Hooks<T>, acc: T, peers: seq<SourceFile>, others: seq<SourceFile>, ctx: ExecutionContext)
    requires h.generate.None? && h.generateWithPeers.None?
    ensures GenerateWithPeers(h, acc, peers, ctx) == GenerateWithPeers(h, acc, others, ctx) == []
  {
  }

  /** The visitor that transforms files given the accumulator; by default the no-op visitor. */
  function GetVisitor<T>(h: Hooks<T>, acc: T): (v: Visitor)
    ensures h.getVisitor.None? ==> v == Noop
    ensures h.getVisitor.Some? ==> v == h.getVisitor.value(acc)
  {
    match h.getVisitor
    case None => Noop
    case Some(getVisitor) => getVisitor(acc)
  }

  /** The supplier handed to the root's get-or-compute: it ignores the key. */
  function InitialValueSupplier<T>(h: Hooks<T>, ctx: ExecutionContext): string -> T
  {
    key => h.initialValue(ctx)
  }

  /** The accumulator a lookup under `key` answers when the root holds `messages`. */
  function AccumulatorIn<T>(h: Hooks<T>, messages: map<string, T>, key: string, ctx: ExecutionContext): T
  {
    ComputeIfAbsent(messages, key, InitialValueSupplier(h, ctx)).value
  }

  /** The visitor the wrapper binds on a first call made while the root holds `messages`. */
  function Binding<T>(h: Hooks<T>, messages: map<string, T>, key: string, ctx: ExecutionContext): Visitor
  {
    GetVisitor(h, AccumulatorIn(h, messages, key, ctx))
  }

  /** The store, the accumulators answered, and the initial values computed by a run of lookups. */
  datatype AccumulatorRun<T> = AccumulatorRun(messages: map<string, T>, results: seq<T>, initialValueCalls: nat)

  /** Successive lookups of one recipe's accumulator against one root, each with its own context. */
  function GetAccumulatorCalls<T>(h: Hooks<T>, messages: map<string, T>, key: string, contexts: seq<ExecutionContext>): AccumulatorRun<T>
    decreases |contexts|
  {
    if contexts == [] then AccumulatorRun(messages, [], 0)
    else
      var r := ComputeIfAbsent(messages, key, InitialValueSupplier(h, contexts[0]));
      var rest := GetAccumulatorCalls(h, r.messages, key, contexts[1..]);
      AccumulatorRun(rest.messages, [r.value] + rest.results, rest.initialValueCalls + if r.computed then 1 else 0)
  }

  /** Once the root holds the accumulator, every lookup answers it and computes nothing. */
  lemma {:induction false} StoredAccumulatorIsReused<T>(h: Hooks<T>, messages: map<string, T>, key: string, contexts: seq<ExecutionContext>)
    requires key in messages
    ensures var run := GetAccumulatorCalls(h, messages, key, contexts);
            && run.messages == messages
            && run.initialValueCalls == 0
            && |run.results| == |contexts|
            && forall i :: 0 <= i < |run.results| ==> run.results[i] == messages[key]
  {
    if contexts != [] {
      StoredAccumulatorIsReused(h, messages, key, contexts[1..]);
    }
  }

  /**
   * However many lookups are made against one root, the initial value is
   * computed at most once (exactly once when the root did not hold it), and
   * every lookup answers the same accumulator: the stored one, or else the
   * first lookup's initial value, which is the only entry added to the store.
   */
  lemma {:induction false} InitialValueComputedAtMostOnce<T>(h: Hooks<T>, messages: map<string, T>, key: string, contexts: seq<ExecutionContext>)
    ensures var run := GetAccumulatorCalls(h, messages, key, contexts);
            && run.initialValueCalls == (if key in messages || contexts == [] then 0 else 1)
            && |run.results| == |contexts|
            && (contexts == [] ==> run.messages == messages)
            && (contexts != [] ==>
                  var acc := AccumulatorIn(h, messages, key, contexts[0]);
                  && acc == (if key in messages then messages[key] else h.initialValue(contexts[0]))
                  && run.messages == messages[key := acc]
                  && forall i :: 0 <= i < |run.results| ==> run.results[i] == acc)
  {
    if contexts != [] {
      var r := ComputeIfAbsent(messages, key, InitialValueSupplier(h, contexts[0]));
      StoredAccumulatorIsReused(h, r.messages, key, contexts[1..]);
    }
  }

  /** A run of lookups extended by one more lookup is that lookup made on the run's store. */
  lemma {:induction false} GetAccumulatorCallsSnoc<T>(h: Hooks<T>, messages: map<string, T>, key: string, contexts: seq<ExecutionContext>, ctx: ExecutionContext)
    decreases |contexts|
    ensures var run := GetAccumulatorCalls(h, messages, key, contexts);
            var r := ComputeIfAbsent(run.messages, key, InitialValueSupplier(h, ctx));
            GetAccumulatorCalls(h, messages, key, contexts + [ctx]) ==
              AccumulatorRun(r.messages, run.results + [r.value], run.initialValueCalls + if r.computed then 1 else 0)
  {
    if contexts != [] {
      var r0 := ComputeIfAbsent(messages, key, InitialValueSupplier(h, contexts[0]));
      assert (contexts + [ctx])[1..] == contexts[1..] + [ctx];
      GetAccumulatorCallsSnoc(h, r0.messages, key, contexts[1..], ctx);
    }
  }

  /** A call the engine makes on the transform-pass wrapper. */
  datatype Call =
    | IsAcceptableCall(sourceFile: SourceFile)
    | VisitCall(tree: Option<Tree>)
    | VisitWithParentCall(tree: Option<Tree>, parent: object)

  /** A call, its context, and what the root of the cursor it runs under holds at that moment. */
  datatype Invocation<T> = Invocation(call: Call, ctx: ExecutionContext, messages: map<string, T>)

  /** A call as the engine issues it: with its context and the cursor the wrapper runs under. */
  datatype Request<T> = Request(call: Call, ctx: ExecutionContext, cursor: Cursor<T>)

  datatype Answer = Accepted(accepted: bool) | Visited(result: Option<Tree>)

  /** What a visitor answers to a call. */
  function Forward(v: Visitor, call: Call, ctx: ExecutionContext): Answer
  {
    match call
    case IsAcceptableCall(f) => Accepted(v.isAcceptable(f, ctx))
    case VisitCall(t) => Visited(v.visit(t, ctx))
    case VisitWithParentCall(t, parent) => Visited(v.visitWithParent(t, ctx, parent))
  }

  /** The wrapper's bound visitor, its answers, and its calls of `GetVisitor` after a run of calls. */
  datatype WrapperRun = WrapperRun(delegate: Option<Visitor>, answers: seq<Answer>, getVisitorCalls: nat)

  /** Successive calls on one wrapper of a recipe keyed by `key`, starting from `delegate`. */
  function RunDelegatingVisitor<T>(h: Hooks<T>, key: string, delegate: Option<Visitor>, calls: seq<Invocation<T>>): WrapperRun
    decreases |calls|
  {
    if calls == [] then WrapperRun(delegate, [], 0)
    else
      var v := if delegate.Some? then delegate.value else Binding(h, calls[0].messages, key, calls[0].ctx);
      var rest := RunDelegatingVisitor(h, key, Some(v), calls[1..]);
      WrapperRun(rest.delegate, [Forward(v, calls[0].call, calls[0].ctx)] + rest.answers,
                 rest.getVisitorCalls + if delegate.None? then 1 else 0)
  }

  /** A bound wrapper keeps its visitor and answers every call as that visitor does. */
  lemma {:induction false} BoundWrapperKeepsItsVisitor<T>(h: Hooks<T>, key: string, v: Visitor, calls: seq<Invocation<T>>)
    ensures var run := RunDelegatingVisitor(h, key, Some(v), calls);
            && run.delegate == Some(v)
            && run.getVisitorCalls == 0
            && |run.answers| == |calls|
            && forall i :: 0 <= i < |calls| ==> run.answers[i] == Forward(v, calls[i].call, calls[i].ctx)
  {
    if calls != [] {
      BoundWrapperKeepsItsVisitor(h, key, v, calls[1..]);
    }
  }

  /**
   * A run whose first call leaves the wrapper bound to `v`: every later call
   * is answered by `v`, and `GetVisitor` was called only if that first call
   * found the wrapper unbound.
   */
  lemma FirstCallBinds<T>(h: Hooks<T>, key: string, delegate: Option<Visitor>, first: Invocation<T>, rest: seq<Invocation<T>>,
                          v: Visitor, answer: Answer, answers: seq<Answer>)
    requires v == if delegate.Some? then delegate.value else Binding(h, first.messages, key, first.ctx)
    requires answer == Forward(v, first.call, first.ctx)
    requires |answers| == |rest|
    requires forall j :: 0 <= j < |rest| ==> answers[j] == Forward(v, rest[j].call, rest[j].ctx)
    ensures RunDelegatingVisitor(h, key, delegate, [first] + rest) ==
            WrapperRun(Some(v), [answer] + answers, if delegate.None? then 1 else 0)
  {
    assert ([first] + rest)[1..] == rest;
    BoundWrapperKeepsItsVisitor(h, key, v, rest);
  }

  /**
   * A fresh wrapper calls `GetVisitor` at most once, on its first call, for the
   * accumulator under the cursor of that call; every call, under whatever
   * cursor, is answered by the visitor bound then.
   */
  lemma {:induction false} GetVisitorCalledAtMostOnce<T>(h: Hooks<T>, key: string, calls: seq<Invocation<T>>)
    ensures var run := RunDelegatingVisitor(h, key, None, calls);
            && run.getVisitorCalls == (if calls == [] then 0 else 1)
            && |run.answers| == |calls|
            && (calls == [] ==> run.delegate == None)
            && (calls != [] ==>
                  var v := Binding(h, calls[0].messages, key, calls[0].ctx);
                  && run.delegate == Some(v)
                  && forall i :: 0 <= i < |calls| ==> run.answers[i] == Forward(v, calls[i].call, calls[i].ctx))
  {
    if calls != [] {
      var v := Binding(h, calls[0].messages, key, calls[0].ctx);
      BoundWrapperKeepsItsVisitor(h, key, v, calls[1..]);
    }
  }

  /** The first request's invocation followed by those of the remaining requests matches all the requests. */
  lemma InvocationsOfRequests<T>(requests: seq<Request<T>>, first: Invocation<T>, rest: seq<Invocation<T>>)
    requires requests != [] && first.call == requests[0].call && first.ctx == requests[0].ctx
    requires |rest| == |requests| - 1
    requires forall j :: 0 <= j < |rest| ==>
               rest[j] == Invocation(requests[1..][j].call, requests[1..][j].ctx, requests[1..][j].cursor.root.messages)
    ensures var invocations := [first] + rest;
            && |invocations| == |requests|
            && (forall j :: 0 <= j < |requests| ==> invocations[j].call == requests[j].call && invocations[j].ctx == requests[j].ctx)
            && forall j :: 0 < j < |requests| ==> invocations[j].messages == requests[j].cursor.root.messages
  {
    var invocations := [first] + rest;
    forall j | 0 < j < |requests|
      ensures invocations[j] == Invocation(requests[j].call, requests[j].ctx, requests[j].cursor.root.messages)
    {
      assert invocations[j] == rest[j - 1] && requests[1..][j - 1] == requests[j];
    }
  }

  class ScanningRecipe<T> {
    const hooks: Hooks<T>
    /** The accumulator key; `None` is the null the regeneration guards against. */
    var recipeAccMessage: Option<string>
    /** The UUID the current key was made from. */
    ghost var keyUuid: Uuid
    /** How many times `hooks.initialValue` has been called. */
    ghost var initialValueCalls: nat

    ghost predicate Valid()
      reads this
    {
      recipeAccMessage.Some? ==> recipeAccMessage.value == AccMessage(keyUuid)
    }

    /** A new instance, keyed by a randomly chosen UUID. */
    constructor (hooks: Hooks<T>)
      ensures Valid() && this.hooks == hooks
      ensures recipeAccMessage.Some? && initialValueCalls == 0
    {
      var u: Uuid :| true;
      this.hooks := hooks;
      recipeAccMessage := Some(AccMessage(u));
      keyUuid := u;
      initialValueCalls := 0;
    }

    /** An instance rebuilt without running the field initialiser: its key is null. */
    constructor Reconstituted(hooks: Hooks<T>)
      ensures Valid() && this.hooks == hooks
      ensures recipeAccMessage == None && initialValueCalls == 0
    {
      this.hooks := hooks;
      recipeAccMessage := None;
      initialValueCalls := 0;
    }

    /**
     * The accumulator key. A null key is replaced by one made from a freshly
     * chosen UUID; a key that is present is returned as it is.
     */
    method GetRecipeAccMessage() returns (key: string)
      requires Valid()
      modifies this`recipeAccMessage, this`keyUuid
      ensures Valid() && recipeAccMessage == Some(key)
      ensures ACC_MESSAGE_PREFIX <= key
      ensures old(recipeAccMessage).Some? ==> key == old(recipeAccMessage).value && keyUuid == old(keyUuid)
    {
      if recipeAccMessage.None? {
        var u: Uuid :| true;
        recipeAccMessage := Some(AccMessage(u));
        keyUuid := u;
      }
      key := recipeAccMessage.value;
    }

    /**
     * This recipe's accumulator in the store of the cursor's root: the stored
     * one if there is one; otherwise a new initial value, stored under this
     * recipe's key. No other entry of the store changes.
     */
    method GetAccumulator(cursor: Cursor<T>, ctx: ExecutionContext) returns (acc: T)
      requires Valid()
      modifies this`recipeAccMessage, this`keyUuid, this`initialValueCalls, cursor.root
      ensures Valid() && recipeAccMessage.Some?
      ensures old(recipeAccMessage).Some? ==> recipeAccMessage == old(recipeAccMessage) && keyUuid == old(keyUuid)
      ensures var key := recipeAccMessage.value;
              key in old(cursor.root.messages) ==>
                && acc == old(cursor.root.messages)[key]
                && cursor.root.messages == old(cursor.root.messages)
                && initialValueCalls == old(initialValueCalls)
      ensures var key := recipeAccMessage.value;
              key !in old(cursor.root.messages) ==>
                && acc == hooks.initialValue(ctx)
                && cursor.root.messages == old(cursor.root.messages)[key := acc]
                && initialValueCalls == old(initialValueCalls) + 1
    {
      var key := GetRecipeAccMessage();
      ghost var computed: bool;
      acc, computed := cursor.root.ComputeMessageIfAbsent(key, InitialValueSupplier(hooks, ctx));
      if computed {
        initialValueCalls := initialValueCalls + 1;
      }
    }

    /**
     * One lookup per context against one cursor, as the scan pass makes them
     * for successive files: the results, the new store and the count of
     * initial values are those of `GetAccumulatorCalls`, so the initial value
     * is computed at most once.
     */
    method GetAccumulatorEach(cursor: Cursor<T>, contexts: seq<ExecutionContext>) returns (results: seq<T>)
      requires Valid()
      modifies this`recipeAccMessage, this`keyUuid, this`initialValueCalls, cursor.root
      ensures Valid() && recipeAccMessage.Some?
      ensures old(recipeAccMessage).Some? ==> recipeAccMessage == old(recipeAccMessage) && keyUuid == old(keyUuid)
      ensures var run := GetAccumulatorCalls(hooks, old(cursor.root.messages), recipeAccMessage.value, contexts);
              && results == run.results
              && cursor.root.messages == run.messages
              && initialValueCalls == old(initialValueCalls) + run.initialValueCalls
      ensures initialValueCalls <= old(initialValueCalls) + 1
    {
      var key := GetRecipeAccMessage();
      ghost var messages := cursor.root.messages;
      ghost var calls := initialValueCalls;
      assert GetAccumulatorCalls(hooks, messages, key, contexts[..0]) == AccumulatorRun(messages, [], 0);
      results := [];
      var i := 0;
      while i < |contexts|
        invariant 0 <= i <= |contexts|
        invariant Valid() && recipeAccMessage == Some(key)
        invariant old(recipeAccMessage).Some? ==> keyUuid == old(keyUuid)
        invariant var run := GetAccumulatorCalls(hooks, messages, key, contexts[..i]);
                  && results == run.results
                  && cursor.root.messages == run.messages
                  && initialValueCalls == calls + run.initialValueCalls
      {
        GetAccumulatorCallsSnoc(hooks, messages, key, contexts[..i], contexts[i]);
        assert contexts[..i + 1] == contexts[..i] + [contexts[i]];
        var acc := GetAccumulator(cursor, contexts[i]);
        results := results + [acc];
        i := i + 1;
      }
      assert contexts[..i] == contexts;
      InitialValueComputedAtMostOnce(hooks, messages, key, contexts);
    }

    /** The visitor handed to the engine for the transform pass: a fresh, unbound wrapper. */
    method GetDelegatingVisitor() returns (w: DelegatingVisitor<T>)
      ensures fresh(w) && w.recipe == this
      ensures w.delegate == None && w.getVisitorCalls == 0
    {
      w := new DelegatingVisitor(this);
    }
  }

  /**
   * A lookup in the scan pass followed by a visit through a new wrapper under
   * a cursor with the same root: the wrapper binds the visitor for the very
   * accumulator the scan pass got, and no second initial value is computed.
   */
  method ScanThenTransform<T>(recipe: ScanningRecipe<T>, scanCursor: Cursor<T>, transformCursor: Cursor<T>,
                              scanCtx: ExecutionContext, transformCtx: ExecutionContext, tree: Option<Tree>)
    returns (acc: T, w: DelegatingVisitor<T>, result: Option<Tree>)
    requires recipe.Valid() && scanCursor.root == transformCursor.root
    modifies recipe`recipeAccMessage, recipe`keyUuid, recipe`initialValueCalls, scanCursor.root
    ensures fresh(w) && w.recipe == recipe && w.getVisitorCalls == 1
    ensures w.delegate == Some(GetVisitor(recipe.hooks, acc))
    ensures result == GetVisitor(recipe.hooks, acc).visit(tree, transformCtx)
    ensures recipe.initialValueCalls <= old(recipe.initialValueCalls) + 1
  {
    acc := recipe.GetAccumulator(scanCursor, scanCtx);
    w := recipe.GetDelegatingVisitor();
    result := w.Visit(tree, transformCtx, transformCursor);
  }

  /**
   * A whole scan pass over one root followed by a whole transform pass through
   * a new wrapper under cursors with that root: the initial value is computed
   * at most once, every call of the transform pass is answered by the visitor
   * for the accumulator the scan pass got, and the transform pass leaves the
   * store as the scan pass left it.
   */
  method ScanThenTransformEach<T>(recipe: ScanningRecipe<T>, cursor: Cursor<T>, contexts: seq<ExecutionContext>, requests: seq<Request<T>>)
    returns (results: seq<T>, w: DelegatingVisitor<T>, answers: seq<Answer>)
    requires recipe.Valid() && contexts != []
    requires forall j :: 0 <= j < |requests| ==> requests[j].cursor.root == cursor.root
    modifies recipe`recipeAccMessage, recipe`keyUuid, recipe`initialValueCalls, cursor.root
    ensures fresh(w) && w.recipe == recipe
    ensures recipe.recipeAccMessage.Some?
    ensures |results| == |contexts| && forall i :: 0 <= i < |results| ==> results[i] == results[0]
    ensures cursor.root.messages == old(cursor.root.messages)[recipe.recipeAccMessage.value := results[0]]
    ensures recipe.initialValueCalls <= old(recipe.initialValueCalls) + 1
    ensures requests != [] ==> w.delegate == Some(GetVisitor(recipe.hooks, results[0])) && w.getVisitorCalls == 1
    ensures |answers| == |requests|
    ensures forall j :: 0 <= j < |requests| ==>
              answers[j] == Forward(GetVisitor(recipe.hooks, results[0]), requests[j].call, requests[j].ctx)
  {
    ghost var messages := cursor.root.messages;
    results := recipe.GetAccumulatorEach(cursor, contexts);
    InitialValueComputedAtMostOnce(recipe.hooks, messages, recipe.recipeAccMessage.value, contexts);
    w := recipe.GetDelegatingVisitor();
    ghost var key, invocations;
    answers, key, invocations := w.CallEach(requests);
    GetVisitorCalledAtMostOnce(recipe.hooks, key, invocations);
  }

  /**
   * The wrapper returned for the transform pass. On its first call it asks
   * the recipe for the accumulator under the cursor it runs with, binds the
   * recipe's visitor for that accumulator, and afterwards forwards every call
   * to that same visitor.
   */
  class DelegatingVisitor<T> {
    const recipe: ScanningRecipe<T>
    var delegate: Option<Visitor>
    /** How many times the recipe's `GetVisitor` has been called for this wrapper. */
    ghost var getVisitorCalls: nat

    constructor (recipe: ScanningRecipe<T>)
      ensures this.recipe == recipe && delegate == None && getVisitorCalls == 0
    {
      this.recipe := recipe;
      delegate := None;
      getVisitorCalls := 0;
    }

    /**
     * What one forwarding call does to the state: a bound wrapper changes
     * nothing; an unbound one looks up the recipe's accumulator in the root of
     * `cursor` (keeping a key that is present, storing an initial value on a
     * miss) and binds the recipe's visitor for that accumulator.
     */
    twostate predicate Resolved(cursor: Cursor<T>, ctx: ExecutionContext)
      reads this, recipe, cursor.root
    {
      && recipe.Valid() && delegate.Some?
      && (old(delegate).Some? ==>
            && delegate == old(delegate)
            && getVisitorCalls == old(getVisitorCalls)
            && unchanged(recipe, cursor.root))
      && (old(delegate).None? ==>
            && recipe.recipeAccMessage.Some?
            && (old(recipe.recipeAccMessage).Some? ==>
                  recipe.recipeAccMessage == old(recipe.recipeAccMessage) && recipe.keyUuid == old(recipe.keyUuid))
            && var key := recipe.recipeAccMessage.value;
               && cursor.root.messages == old(cursor.root.messages)[key := AccumulatorIn(recipe.hooks, old(cursor.root.messages), key, ctx)]
               && recipe.initialValueCalls == old(recipe.initialValueCalls) + (if key in old(cursor.root.messages) then 0 else 1)
               && delegate == Some(Binding(recipe.hooks, old(cursor.root.messages), key, ctx))
               && getVisitorCalls == old(getVisitorCalls) + 1)
    }

    /** The bound visitor, binding it first if this is the wrapper's first call. */
    method Delegate(cursor: Cursor<T>, ctx: ExecutionContext) returns (v: Visitor)
      requires recipe.Valid()
      modifies this`delegate, this`getVisitorCalls, cursor.root
      modifies recipe`recipeAccMessage, recipe`keyUuid, recipe`initialValueCalls
      ensures Resolved(cursor, ctx) && delegate == Some(v)
    {
      if delegate.None? {
        var acc := recipe.GetAccumulator(cursor, ctx);
        delegate := Some(GetVisitor(recipe.hooks, acc));
        getVisitorCalls := getVisitorCalls + 1;
      }
      v := delegate.value;
    }

    /** Whether the bound visitor accepts the file. */
    method IsAcceptable(sourceFile: SourceFile, ctx: ExecutionContext, cursor: Cursor<T>) returns (accepted: bool)
      requires recipe.Valid()
      modifies this`delegate, this`getVisitorCalls, cursor.root
      modifies recipe`recipeAccMessage, recipe`keyUuid, recipe`initialValueCalls
      ensures Resolved(cursor, ctx)
      ensures accepted == delegate.value.isAcceptable(sourceFile, ctx)
    {
      var v := Delegate(cursor, ctx);
      accepted := v.isAcceptable(sourceFile, ctx);
    }

    /**
     * What the bound visitor returns for the tree and parent cursor (passed
     * through as an opaque reference); `None` deletes the tree.
     */
    method VisitWithParent(tree: Option<Tree>, ctx: ExecutionContext, parent: object, cursor: Cursor<T>) returns (result: Option<Tree>)
      requires recipe.Valid()
      modifies this`delegate, this`getVisitorCalls, cursor.root
      modifies recipe`recipeAccMessage, recipe`keyUuid, recipe`initialValueCalls
      ensures Resolved(cursor, ctx)
      ensures result == delegate.value.visitWithParent(tree, ctx, parent)
    {
      var v := Delegate(cursor, ctx);
      result := v.visitWithParent(tree, ctx, parent);
    }

    /** What the bound visitor returns for the tree; `None` deletes the tree. */
    method Visit(tree: Option<Tree>, ctx: ExecutionContext, cursor: Cursor<T>) returns (result: Option<Tree>)
      requires recipe.Valid()
      modifies this`delegate, this`getVisitorCalls, cursor.root
      modifies recipe`recipeAccMessage, recipe`keyUuid, recipe`initialValueCalls
      ensures Resolved(cursor, ctx)
      ensures result == delegate.value.visit(tree, ctx)
    {
      var v := Delegate(cursor, ctx);
      result := v.visit(tree, ctx);
    }

    /** One call of the engine, dispatched to the matching forwarding method. */
    method Respond(call: Call, ctx: ExecutionContext, cursor: Cursor<T>) returns (answer: Answer)
      requires recipe.Valid()
      modifies this`delegate, this`getVisitorCalls, cursor.root
      modifies recipe`recipeAccMessage, recipe`keyUuid, recipe`initialValueCalls
      ensures Resolved(cursor, ctx)
      ensures answer == Forward(delegate.value, call, ctx)
    {
      match call {
        case IsAcceptableCall(f) =>
          var accepted := IsAcceptable(f, ctx, cursor);
          answer := Accepted(accepted);
        case VisitCall(t) =>
          var result := Visit(t, ctx, cursor);
          answer := Visited(result);
        case VisitWithParentCall(t, parent) =>
          var result := VisitWithParent(t, ctx, parent, cursor);
          answer := Visited(result);
      }
    }

    /**
     * A run of requests on a bound wrapper: each is answered by the bound
     * visitor, under its own context, and nothing else changes. `invocations`
     * records each call with the store its cursor's root holds.
     */
    method ForwardEach(requests: seq<Request<T>>) returns (answers: seq<Answer>, ghost invocations: seq<Invocation<T>>)
      requires recipe.Valid() && delegate.Some?
      modifies this`delegate, this`getVisitorCalls, set r | r in requests :: r.cursor.root
      modifies recipe`recipeAccMessage, recipe`keyUuid, recipe`initialValueCalls
      ensures delegate == old(delegate) && getVisitorCalls == old(getVisitorCalls)
      ensures unchanged(recipe)
      ensures forall j :: 0 <= j < |requests| ==> requests[j].cursor.root.messages == old(requests[j].cursor.root.messages)
      ensures |answers| == |invocations| == |requests|
      ensures forall j :: 0 <= j < |requests| ==>
                && invocations[j] == Invocation(requests[j].call, requests[j].ctx, requests[j].cursor.root.messages)
                && answers[j] == Forward(delegate.value, requests[j].call, requests[j].ctx)
    {
      answers, invocations := [], [];
      var i := 0;
      while i < |requests|
        invariant 0 <= i <= |requests|
        invariant delegate == old(delegate) && getVisitorCalls == old(getVisitorCalls)
        invariant unchanged(recipe)
        invariant forall j :: 0 <= j < |requests| ==> requests[j].cursor.root.messages == old(requests[j].cursor.root.messages)
        invariant |answers| == |invocations| == i
        invariant forall j :: 0 <= j < i ==>
                    && invocations[j] == Invocation(requests[j].call, requests[j].ctx, requests[j].cursor.root.messages)
                    && answers[j] == Forward(delegate.value, requests[j].call, requests[j].ctx)
      {
        var request := requests[i];
        invocations := invocations + [Invocation(request.call, request.ctx, request.cursor.root.messages)];
        var answer := Respond(request.call, request.ctx, request.cursor);
        answers := answers + [answer];
        i := i + 1;
      }
    }

    /**
     * The wrapper answering a run of requests, each under its own context and
     * cursor, as the transform pass makes them for successive files. The
     * answers, the bound visitor and the count of `GetVisitor` calls are those
     * of `RunDelegatingVisitor` over the same calls, where each call sees the
     * store its cursor's root held just before it; so `GetVisitor` is called
     * at most once, on the first request of an unbound wrapper.
     *
     * Only that first request of an unbound wrapper changes anything else: it
     * keeps a key that is present, adds at most this recipe's entry to its own
     * root, and computes at most one initial value. Every later request finds
     * the wrapper bound and changes no store and no counter of the recipe.
     *
     * `key` is the recipe's key after the run. When the recipe has no key (a
     * bound wrapper of a recipe whose key is null, or an empty run), `key` is
     * the empty string; no lookup is made then, so its value plays no part.
     */
    method CallEach(requests: seq<Request<T>>) returns (answers: seq<Answer>, ghost key: string, ghost invocations: seq<Invocation<T>>)
      requires recipe.Valid()
      modifies this`delegate, this`getVisitorCalls, set r | r in requests :: r.cursor.root
      modifies recipe`recipeAccMessage, recipe`keyUuid, recipe`initialValueCalls
      ensures recipe.Valid()
      ensures |invocations| == |requests|
      ensures forall j :: 0 <= j < |requests| ==> invocations[j].call == requests[j].call && invocations[j].ctx == requests[j].ctx
      ensures requests != [] ==> invocations[0].messages == old(requests[0].cursor.root.messages)
      ensures recipe.recipeAccMessage.Some? ==> key == recipe.recipeAccMessage.value
      ensures old(delegate).None? && requests != [] ==> recipe.recipeAccMessage == Some(key)
      ensures var run := RunDelegatingVisitor(recipe.hooks, key, old(delegate), invocations);
              && answers == run.answers
              && delegate == run.delegate
              && getVisitorCalls == old(getVisitorCalls) + run.getVisitorCalls
      ensures getVisitorCalls == old(getVisitorCalls) + (if old(delegate).None? && requests != [] then 1 else 0)
      ensures forall j :: 0 < j < |requests| ==> invocations[j].messages == requests[j].cursor.root.messages
      ensures old(recipe.recipeAccMessage).Some? ==>
                recipe.recipeAccMessage == old(recipe.recipeAccMessage) && recipe.keyUuid == old(recipe.keyUuid)
      ensures old(delegate).Some? || requests == [] ==>
                && recipe.recipeAccMessage == old(recipe.recipeAccMessage)
                && recipe.initialValueCalls == old(recipe.initialValueCalls)
                && forall j :: 0 <= j < |requests| ==> requests[j].cursor.root.messages == old(requests[j].cursor.root.messages)
      ensures old(delegate).None? && requests != [] ==>
                var m := old(requests[0].cursor.root.messages);
                && requests[0].cursor.root.messages == m[key := AccumulatorIn(recipe.hooks, m, key, requests[0].ctx)]
                && recipe.initialValueCalls == old(recipe.initialValueCalls) + (if key in m then 0 else 1)
                && forall j :: 0 < j < |requests| && requests[j].cursor.root != requests[0].cursor.root ==>
                     requests[j].cursor.root.messages == old(requests[j].cursor.root.messages)
    {
      ghost var start := delegate;
      ghost var calls := getVisitorCalls;
      key := if recipe.recipeAccMessage.Some? then recipe.recipeAccMessage.value else "";
      answers, invocations := [], [];
      if requests == [] {
        return;
      }
      // The first request is the only one that can bind, and so the only one
      // that can change the recipe or a store; the rest are forwarded.
      var first := requests[0];
      var inv := Invocation(first.call, first.ctx, first.cursor.root.messages);
      var answer := Respond(first.call, first.ctx, first.cursor);
      if start.None? {
        key := recipe.recipeAccMessage.value;
      }
      var rest, restInvocations := ForwardEach(requests[1..]);
      answers, invocations := [answer] + rest, [inv] + restInvocations;
      FirstCallBinds(recipe.hooks, key, start, inv, restInvocations, delegate.value, answer, rest);
      InvocationsOfRequests(requests, inv, restInvocations);
    }
  }
}
