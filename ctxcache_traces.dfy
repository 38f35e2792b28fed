/**
 * Properties of the context cache over whole runs of operations
 * (ctxcache/ctxcache.go): write-once per key, clear-once, the type tag of
 * every entry, and the independence of distinct keys.
 */
module CtxCacheTraces {
  import opened Wrappers
  import opened CtxCache

  /** One call on a bound cache. */
  datatype Op<V> =
    | DeclareOp(keys: seq<TypeKey>)
    | SetOp(key: TypeKey, value: V)
    | GetOp(key: TypeKey)
    | KeepAliveOp(key: TypeKey)
    | ClearOp

  /** The cache after one call; `Get` changes nothing. */
  function Step<V>(s: State<V>, op: Op<V>): State<V> {
    match op
    case DeclareOp(keys) => DeclareState(s, keys)
    case SetOp(k, v) => SetState(s, k, v)
    case GetOp(_) => s
    case KeepAliveOp(k) => KeepAliveState(s, k)
    case ClearOp => ClearState(s)
  }

  /** The cache after the calls of `ops`, first to last. */
  function Run<V>(s: State<V>, ops: seq<Op<V>>): State<V>
    decreases |ops|
  {
    if ops == [] then s else Run(Step(s, ops[0]), ops[1..])
  }

  /** The keys whose entries a call may create or change (a teardown touches all). */
  predicate Mentions<V>(op: Op<V>, k: TypeKey) {
    match op
    case DeclareOp(keys) => k in keys
    case SetOp(k', _) => k' == k
    case GetOp(k') => k' == k
    case KeepAliveOp(k') => k' == k
    case ClearOp => true
  }

  /** No teardown among the calls. */
  predicate NoClear<V>(ops: seq<Op<V>>) {
    forall i :: 0 <= i < |ops| ==> !ops[i].ClearOp?
  }

  /** Cleared is terminal: once cleared, no sequence of calls changes the cache at all. */
  lemma {:induction false} ClearedIsTerminal<V>(s: State<V>, ops: seq<Op<V>>)
    requires s.cleared
    ensures Run(s, ops) == s
    decreases |ops|
  {
    if ops != [] {
      assert Step(s, ops[0]) == s;
      ClearedIsTerminal(s, ops[1..]);
    }
  }

  /** Only a teardown sets `cleared`. */
  lemma {:induction false} ActiveWithoutClear<V>(s: State<V>, ops: seq<Op<V>>)
    requires !s.cleared && NoClear(ops)
    ensures !Run(s, ops).cleared
    decreases |ops|
  {
    if ops != [] {
      assert !ops[0].ClearOp?;
      ActiveWithoutClear(Step(s, ops[0]), ops[1..]);
    }
  }

  /** Either cleared, or `k` holds the value `v` under its own type. */
  ghost predicate Holds<V>(s: State<V>, k: TypeKey, v: V) {
    s.cleared || (k in s.values && s.values[k] == Assigned(k.typ, v))
  }

  /** No call overwrites or removes a set value while the cache is active. */
  lemma StepKeepsHolds<V>(s: State<V>, op: Op<V>, k: TypeKey, v: V)
    requires Holds(s, k, v)
    ensures Holds(Step(s, op), k, v)
  {
  }

  lemma {:induction false} RunKeepsHolds<V>(s: State<V>, ops: seq<Op<V>>, k: TypeKey, v: V)
    requires Holds(s, k, v)
    ensures Holds(Run(s, ops), k, v)
    decreases |ops|
  {
    if ops != [] {
      StepKeepsHolds(s, ops[0], k, v);
      RunKeepsHolds(Step(s, ops[0]), ops[1..], k, v);
    }
  }

  /**
   * Write-once: after a successful `Set(k, v)`, whatever calls follow, a
   * `Get(k)` returns `v` or fails because the cache was cleared, and a
   * `Set(k, _)` fails with `ValueAlreadySet` or because the cache was
   * cleared; with no teardown in between, `Get(k)` returns `v`.
   */
  lemma WriteOnce<V>(s: State<V>, k: TypeKey, v: V, ops: seq<Op<V>>)
    requires SetError(Some(s), k).None?
    ensures var t := Run(SetState(s, k, v), ops);
            && (GetSpec(Some(t), k) == Ok(v) || GetSpec(Some(t), k) == Err(CacheError(k, CacheAlreadyCleared)))
            && (SetError(Some(t), k) == Some(CacheError(k, ValueAlreadySet))
                || SetError(Some(t), k) == Some(CacheError(k, CacheAlreadyCleared)))
    ensures NoClear(ops) ==> GetSpec(Some(Run(SetState(s, k, v), ops)), k) == Ok(v)
    ensures NoClear(ops) ==> SetError(Some(Run(SetState(s, k, v), ops)), k) == Some(CacheError(k, ValueAlreadySet))
  {
    var s1 := SetState(s, k, v);
    assert Holds(s1, k, v);
    RunKeepsHolds(s1, ops, k, v);
    if NoClear(ops) {
      ActiveWithoutClear(s1, ops);
    }
  }

  /** No call stores a box under a key of another type. */
  lemma StepKeepsWellTyped<V>(s: State<V>, op: Op<V>)
    requires WellTyped(s)
    ensures WellTyped(Step(s, op))
  {
  }

  lemma {:induction false} RunKeepsWellTyped<V>(s: State<V>, ops: seq<Op<V>>)
    requires WellTyped(s)
    ensures WellTyped(Run(s, ops))
    decreases |ops|
  {
    if ops != [] {
      StepKeepsWellTyped(s, ops[0]);
      RunKeepsWellTyped(Step(s, ops[0]), ops[1..]);
    }
  }

  /**
   * On a cache that `Init` created and only these calls changed,
   * `KeyTypeMismatch` is never reported: the check is defensive.
   */
  lemma MismatchUnreachable<V>(ops: seq<Op<V>>, k: TypeKey)
    ensures GetSpec(Some(Run(Fresh<V>(), ops)), k) != Err(CacheError(k, KeyTypeMismatch))
    ensures SetError(Some(Run(Fresh<V>(), ops)), k) != Some(CacheError(k, KeyTypeMismatch))
  {
    RunKeepsWellTyped(Fresh<V>(), ops);
  }

  /** A call that does not mention `k` leaves what `Get(k)` and `Set(k, _)` see unchanged. */
  lemma OtherKeysUnaffected<V>(s: State<V>, op: Op<V>, k: TypeKey)
    requires !Mentions(op, k)
    ensures GetSpec(Some(Step(s, op)), k) == GetSpec(Some(s), k)
    ensures SetError(Some(Step(s, op)), k) == SetError(Some(s), k)
  {
    var t := Step(s, op);
    assert t.cleared == s.cleared;
    assert k in t.values <==> k in s.values;
    assert k in s.values ==> t.values[k] == s.values[k];
  }

  /** Go's `any`, for the scenarios below. */
  datatype Any = IntValue(i: int) | StringValue(str: string)

  /**
   * Two keys with the same name and different types are declared and set
   * independently; each `Get` returns its own value.
   */
  lemma SameNameDifferentTypes()
    ensures var ks := Key("string", "k");
            var ki := Key("int", "k");
            var t := Run(Fresh<Any>(), [DeclareOp([ks]), DeclareOp([ki]), SetOp(ks, StringValue("v")), SetOp(ki, IntValue(42))]);
            && GetSpec(Some(t), ks) == Ok(StringValue("v"))
            && GetSpec(Some(t), ki) == Ok(IntValue(42))
  {
    var ks := Key("string", "k");
    var ki := Key("int", "k");
    var ops := [DeclareOp([ks]), DeclareOp([ki]), SetOp(ks, StringValue("v")), SetOp(ki, IntValue(42))];
    var t := Run(Fresh<Any>(), ops);
    var final := map[ks := Assigned("string", StringValue("v")), ki := Assigned("int", IntValue(42))];
    assert t.values == final && !t.cleared by {
      var s0 := Fresh<Any>();
      var s1 := DeclareState(s0, [ks]);
      assert s1.values == map[ks := Declared("string")];
      var s2 := DeclareState(s1, [ki]);
      assert s2.values == map[ks := Declared("string"), ki := Declared("int")];
      var s3 := SetState(s2, ks, StringValue("v"));
      assert s3.values == map[ks := Assigned("string", StringValue("v")), ki := Declared("int")];
      var s4 := SetState(s3, ki, IntValue(42));
      assert s4.values == final;
      assert Run(s0, ops) == Run(s1, ops[1..]);
      assert Run(s1, ops[1..]) == Run(s2, ops[2..]);
      assert Run(s2, ops[2..]) == Run(s3, ops[3..]);
      assert Run(s3, ops[3..]) == Run(s4, []);
    }
  }

  /** The first message the package example prints, for the key `user_id` of type int. */
  lemma ExampleNotInitializedMessage()
    ensures AsError(CacheError(Key("int", "user_id"), CacheNotInitialized)).text == "user_id(int): cache not initialized"
  {
    UserIdMessage(CacheNotInitialized);
    assert "user_id(int): " + CacheNotInitialized.Text() == "user_id(int): cache not initialized";
  }

  /** The second message the package example prints. */
  lemma ExampleNotDeclaredMessage()
    ensures AsError(CacheError(Key("int", "user_id"), KeyNotDeclared)).text == "user_id(int): key not declared"
  {
    UserIdMessage(KeyNotDeclared);
    assert "user_id(int): " + KeyNotDeclared.Text() == "user_id(int): key not declared";
  }

  /** The third message the package example prints. */
  lemma ExampleNotSetMessage()
    ensures AsError(CacheError(Key("int", "user_id"), ValueNotSet)).text == "user_id(int): value not set"
  {
    UserIdMessage(ValueNotSet);
    assert "user_id(int): " + ValueNotSet.Text() == "user_id(int): value not set";
  }

  /** The last message the package example prints. */
  lemma ExampleAlreadySetMessage()
    ensures AsError(CacheError(Key("int", "user_id"), ValueAlreadySet)).text == "user_id(int): value already set"
  {
    UserIdMessage(ValueAlreadySet);
    assert "user_id(int): " + ValueAlreadySet.Text() == "user_id(int): value already set";
  }

  /** Every error about `user_id` of type int starts with "user_id(int): ". */
  lemma UserIdMessage(kind: ErrorKind)
    ensures AsError(CacheError(Key("int", "user_id"), kind)).text == "user_id(int): " + kind.Text()
  {
    var k := Key("int", "user_id");
    ErrorShape(CacheError(k, kind));
    assert KeyString(k) == "user_id(int)";
  }

  /**
   * The package example, run on the methods themselves: the four errors it
   * prints, in order, and the value it reads back.
   */
  method ExampleErrors() returns (errs: seq<CacheError>, userId: int)
    ensures var k := Key("int", "user_id");
            errs == [CacheError(k, CacheNotInitialized), CacheError(k, KeyNotDeclared),
                     CacheError(k, ValueNotSet), CacheError(k, ValueAlreadySet)]
    ensures userId == 42
  {
    var k := Key("int", "user_id");
    var background: Context<int> := Context(None);

    var got := Get(background, k);
    var notInitialized := got.error;

    var ctx, cancel := Init(background);
    got := Get(ctx, k);
    var notDeclared := got.error;

    Declare(ctx, [k]);
    assert cancel.values == map[k := Declared("int")];
    got := Get(ctx, k);
    var notSet := got.error;

    var err := Set(ctx, k, 42);
    assert err == None;
    assert cancel.values == map[k := Assigned("int", 42)];
    got := Get(ctx, k);
    userId := got.value;

    err := Set(ctx, k, 43);
    errs := [notInitialized, notDeclared, notSet, err.value];
    cancel.Clear();
  }

  /**
   * The keep-alive example, run on the methods in the order its sleeps
   * impose: `task_id` is declared, set and kept alive; the background `Get`
   * (after 100ms) reads "task-12345"; then `cancel()` (after 200ms) keeps the
   * entry stored. A `Get` after the teardown, which the example's comment
   * expects to succeed, reports `CacheAlreadyCleared`.
   */
  method ExampleKeepAlive() returns (got: Result<string, CacheError>, stored: map<TypeKey, Entry<string>>,
                                     late: Result<string, CacheError>)
    ensures var k := Key("string", "task_id");
            && got == Ok("task-12345")
            && stored == map[k := Assigned("string", "task-12345")]
            && late == Err(CacheError(k, CacheAlreadyCleared))
  {
    var k := Key("string", "task_id");
    var ctx, cancel := Init(Context(None));
    Declare(ctx, [k]);
    assert cancel.values == map[k := Declared("string")];
    var err := Set(ctx, k, "task-12345");
    assert err == None;
    assert cancel.values == map[k := Assigned("string", "task-12345")];
    KeepAlive(ctx, k);
    assert cancel.keepAlive == {k};
    got := Get(ctx, k);

    cancel.Clear();
    stored := cancel.values;
    late := Get(ctx, k);
  }

  /**
   * The package test up to teardown, run on the methods with its two keys
   * declared first: `key` of type string and `key` of type int. Calls on an
   * unbound context report `CacheNotInitialized`; a repeated `Init` hands
   * back the same context and cache; the string key is unset, then set once;
   * the int key is set independently of it.
   */
  method TestBeforeCancel() returns (sameInit: bool, sets: seq<Option<CacheError>>, gets: seq<Result<Any, CacheError>>)
    ensures sameInit
    ensures var ks := Key("string", "key");
            sets == [Some(CacheError(ks, CacheNotInitialized)), None, Some(CacheError(ks, ValueAlreadySet)), None]
    ensures var ks := Key("string", "key");
            gets == [Err(CacheError(ks, CacheNotInitialized)), Err(CacheError(ks, ValueNotSet)),
                     Ok(StringValue("value")), Ok(IntValue(42))]
  {
    var ks := Key("string", "key");
    var ki := Key("int", "key");
    var background: Context<Any> := Context(None);
    var setUnbound := Set(background, ks, StringValue("value"));
    var getUnbound := Get(background, ks);

    var ctx1, cancel1 := Init(background);
    var ctx2, cancel2 := Init(ctx1);
    sameInit := ctx2 == ctx1 && cancel2 == cancel1;

    Declare(ctx1, [ks, ki]);
    assert ks in cancel1.values && cancel1.values[ks] == Declared("string") && !cancel1.cleared;
    assert ki in cancel1.values && cancel1.values[ki] == Declared("int");
    var getUnset := Get(ctx1, ks);

    var setString := Set(ctx1, ks, StringValue("value"));
    assert setString == None;
    assert cancel1.values[ks] == Assigned("string", StringValue("value")) && cancel1.values[ki] == Declared("int");
    var getString := Get(ctx1, ks);
    var setAgain := Set(ctx1, ks, StringValue("anotherValue"));

    var setInt := Set(ctx1, ki, IntValue(42));
    assert setInt == None;
    assert cancel1.values[ki] == Assigned("int", IntValue(42));
    var getInt := Get(ctx1, ki);

    sets := [setUnbound, setString, setAgain, setInt];
    gets := [getUnbound, getUnset, getString, getInt];
  }

  /**
   * The package test from teardown on: after the first cancel, and after a
   * second, harmless one through the repeated `Init`, every `Get` and `Set`
   * reports `CacheAlreadyCleared`, whatever the cache held.
   */
  method TestAfterCancel() returns (sets: seq<Option<CacheError>>, gets: seq<Result<Any, CacheError>>)
    ensures var ks := Key("string", "key");
            sets == [Some(CacheError(ks, CacheAlreadyCleared))]
    ensures var ks := Key("string", "key");
            var ki := Key("int", "key");
            gets == [Err(CacheError(ks, CacheAlreadyCleared)), Err(CacheError(ki, CacheAlreadyCleared))]
  {
    var ks := Key("string", "key");
    var ki := Key("int", "key");
    var ctx1, cancel1 := Init(Context(None));
    var ctx2, cancel2 := Init(ctx1);
    Declare(ctx1, [ks, ki]);
    var setString := Set(ctx1, ks, StringValue("value"));
    var setInt := Set(ctx1, ki, IntValue(42));

    cancel1.Clear();
    var getCleared := Get(ctx1, ks);
    cancel2.Clear();
    var setCleared := Set(ctx1, ks, StringValue("value"));
    var getIntCleared := Get(ctx1, ki);

    sets := [setCleared];
    gets := [getCleared, getIntCleared];
  }
}
