/**
 * The registry of custom functions as values: every operation of the trait is a
 * function of the current code-to-function map (and, for the three operations that
 * change it, gives the map afterwards together with the outcome).
 */
module Registry {
  import opened Wrappers
  import opened PhpStrings
  import opened Codes

  /** The offending argument an InvalidArgument error carries. */
  datatype Argument<V> =
    | CodeArgument(code: Code)       // a code without a string form
    | FunctionArgument(value: V)     // a non-callable value given to register
    | MapArgument(raw: Code)         // a bulk argument that is neither array nor Traversable
    | ArgsArgument(raw: Code)        // call arguments that are not an array

  /** The three kinds of error the registry raises. */
  datatype Error<V> =
    | InvalidArgument(argument: Argument<V>)
    | OutOfRange(key: string)          // no function under this normalised code
    | Domain(key: string, value: V)    // the function stored under `key` is not callable

  /** The argument of bulk registration: an array or Traversable, seen as the
      (code, function) pairs it yields in iteration order, or some other value. */
  datatype FunctionMap<V> = Iterable(pairs: seq<(Code, V)>) | NotIterable(raw: Code)

  /** The argument list of a call: an array of positional arguments, or some other value. */
  datatype Arguments<A> = Positional(values: seq<A>) | NotArray(raw: Code)

  /** What PHP provides for invoking values: `is_callable`, and the result of
      `call_user_func_array` (which, when the function throws, stands for that exception). */
  datatype Host<!V, !A, R> = Host(isCallable: V -> bool, invoke: (V, seq<A>) -> R)

  /** The map after an operation that may change it, and how the operation ended. */
  datatype Step<V> = Step(functions: map<string, V>, outcome: Outcome<Error<V>>)

  /** The map key `code` stands for. */
  function Key(code: Code): string
    requires IsConvertible(code)
  {
    NormalizeFunctionCode(code).value
  }

  /** Every key of `m` is a normalised code, as keys stored by registration are. */
  predicate KeysNormalized<V>(m: map<string, V>) {
    forall k :: k in m ==> Trim(k) == k
  }

  /** `_hasCustomFunction`: whether a function is stored under the normalised `code`. */
  function Has<V>(m: map<string, V>, code: Code): (r: Result<bool, Error<V>>)
    ensures r.Success? <==> IsConvertible(code)
    ensures r.Failure? ==> r.error == InvalidArgument(CodeArgument(code))
    ensures r.Success? ==> (r.value <==> Key(code) in m)
  {
    match NormalizeFunctionCode(code)
    case Failure(c) => Failure(InvalidArgument(CodeArgument(c)))
    case Success(k) => Success(k in m)
  }

  /** `_getCustomFunction`: the value stored under the normalised `code`, callable or not. */
  function Get<V>(m: map<string, V>, code: Code): (r: Result<V, Error<V>>)
    ensures r.Success? <==> IsConvertible(code) && Key(code) in m
    ensures r.Success? ==> r.value == m[Key(code)]
    ensures !IsConvertible(code) ==> r == Failure(InvalidArgument(CodeArgument(code)))
    ensures IsConvertible(code) && Key(code) !in m ==> r == Failure(OutOfRange(Key(code)))
  {
    match NormalizeFunctionCode(code)
    case Failure(c) => Failure(InvalidArgument(CodeArgument(c)))
    case Success(k) => if k in m then Success(m[k]) else Failure(OutOfRange(k))
  }

  /** `_callCustomFunction`: look the normalised code up again through `Get`, refuse a
      stored value that is not callable, and otherwise give exactly what invoking it with
      the positional arguments gives. */
  function Call<V, A, R>(host: Host<V, A, R>, m: map<string, V>, code: Code, args: Arguments<A>): (r: Result<R, Error<V>>)
    ensures args.NotArray? ==> r == Failure(InvalidArgument(ArgsArgument(args.raw)))
    ensures args.Positional? && !IsConvertible(code) ==> r == Failure(InvalidArgument(CodeArgument(code)))
    ensures args.Positional? && IsConvertible(code) ==>
      var k := Key(code);
      && (k !in m ==> r == Failure(OutOfRange(k)))
      && (k in m && !host.isCallable(m[k]) ==> r == Failure(Domain(k, m[k])))
      && (k in m && host.isCallable(m[k]) ==> r == Success(host.invoke(m[k], args.values)))
  {
    match args
    case NotArray(raw) => Failure(InvalidArgument(ArgsArgument(raw)))
    case Positional(values) =>
      match NormalizeFunctionCode(code)
      case Failure(c) => Failure(InvalidArgument(CodeArgument(c)))
      case Success(k) =>
        NormalizeIdempotent(code);
        match Get(m, Text(k))
        case Failure(e) => Failure(e)
        case Success(f) =>
          if !host.isCallable(f) then Failure(Domain(k, f)) else Success(host.invoke(f, values))
  }

  /** `_registerCustomFunction`: a non-callable function or a code without a string form
      is refused and the map stays as it was; otherwise the function is stored under the
      normalised code, replacing what was there, and no other entry changes. */
  function Register<V>(isCallable: V -> bool, m: map<string, V>, code: Code, f: V): (r: Step<V>)
    ensures r.outcome.Pass? <==> isCallable(f) && IsConvertible(code)
    ensures !isCallable(f) ==> r.outcome == Fail(InvalidArgument(FunctionArgument(f)))
    ensures isCallable(f) && !IsConvertible(code) ==> r.outcome == Fail(InvalidArgument(CodeArgument(code)))
    ensures r.outcome.Fail? ==> r.functions == m
    ensures r.outcome.Pass? ==>
      && Key(code) in r.functions && r.functions[Key(code)] == f
      && r.functions.Keys == m.Keys + {Key(code)}
      && forall k :: k in m && k != Key(code) ==> r.functions[k] == m[k]
  {
    if !isCallable(f) then
      Step(m, Fail(InvalidArgument(FunctionArgument(f))))
    else
      match NormalizeFunctionCode(code)
      case Failure(c) => Step(m, Fail(InvalidArgument(CodeArgument(c))))
      case Success(k) => Step(m[k := f], Pass)
  }

  /** `_unregisterCustomFunction`: a code without a string form, or one under which nothing
      is stored, is refused and the map stays as it was; otherwise exactly that entry goes. */
  function Unregister<V>(m: map<string, V>, code: Code): (r: Step<V>)
    ensures r.outcome.Pass? <==> IsConvertible(code) && Key(code) in m
    ensures !IsConvertible(code) ==> r.outcome == Fail(InvalidArgument(CodeArgument(code)))
    ensures IsConvertible(code) && Key(code) !in m ==> r.outcome == Fail(OutOfRange(Key(code)))
    ensures r.outcome.Fail? ==> r.functions == m
    ensures r.outcome.Pass? ==>
      && r.functions.Keys == m.Keys - {Key(code)}
      && forall k :: k in r.functions ==> r.functions[k] == m[k]
  {
    match NormalizeFunctionCode(code)
    case Failure(c) => Step(m, Fail(InvalidArgument(CodeArgument(c))))
    case Success(k) => if k !in m then Step(m, Fail(OutOfRange(k))) else Step(m - {k}, Pass)
  }

  /** Whether registering the pair `p` is accepted. */
  predicate PairAccepted<V>(isCallable: V -> bool, p: (Code, V)) {
    isCallable(p.1) && IsConvertible(p.0)
  }

  /** The loop of `_registerCustomFunctions`: register the pairs one after the other, and
      stop at the first one that is refused, keeping what was registered before it. */
  function RegisterPairs<V>(isCallable: V -> bool, m: map<string, V>, pairs: seq<(Code, V)>): (r: Step<V>)
    ensures m.Keys <= r.functions.Keys
    decreases |pairs|
  {
    if pairs == [] then Step(m, Pass)
    else
      var s := Register(isCallable, m, pairs[0].0, pairs[0].1);
      if s.outcome.Fail? then s else RegisterPairs(isCallable, s.functions, pairs[1..])
  }

  /** `_registerCustomFunctions`: a value that is neither an array nor a Traversable is
      refused and the map stays as it was; otherwise its pairs are registered in order. */
  function RegisterAll<V>(isCallable: V -> bool, m: map<string, V>, fm: FunctionMap<V>): (r: Step<V>)
    ensures fm.NotIterable? ==> r == Step(m, Fail(InvalidArgument(MapArgument(fm.raw))))
  {
    match fm
    case NotIterable(raw) => Step(m, Fail(InvalidArgument(MapArgument(raw))))
    case Iterable(pairs) => RegisterPairs(isCallable, m, pairs)
  }

  // ---------------------------------------------------------------------------
  // Registration and lookup

  /** After a successful registration, any code that normalises to the same key (a string,
      or a Stringable rendering the same text) finds the function, and calling it invokes it. */
  lemma RegisterThenLookUp<V, A, R>(host: Host<V, A, R>, m: map<string, V>, code: Code, f: V, other: Code, args: seq<A>)
    requires Register(host.isCallable, m, code, f).outcome.Pass?
    requires NormalizeFunctionCode(other) == NormalizeFunctionCode(code)
    ensures var m' := Register(host.isCallable, m, code, f).functions;
      && Has(m', other) == Success(true)
      && Get(m', other) == Success(f)
      && Call(host, m', other, Positional(args)) == Success(host.invoke(f, args))
  {
  }

  /** Registering under a key that is already taken replaces the entry: the map is what
      registering the second function alone would have made, with no trace of the first. */
  lemma RegisterOverwrites<V>(isCallable: V -> bool, m: map<string, V>, c1: Code, f1: V, c2: Code, f2: V)
    requires Register(isCallable, m, c1, f1).outcome.Pass?
    requires isCallable(f2) && NormalizeFunctionCode(c2) == NormalizeFunctionCode(c1)
    ensures Register(isCallable, Register(isCallable, m, c1, f1).functions, c2, f2) == Register(isCallable, m, c2, f2)
  {
    var k := Key(c1);
    assert NormalizeFunctionCode(c1) == Success(k);
    assert Register(isCallable, m, c1, f1) == Step(m[k := f1], Pass);
    assert Register(isCallable, m, c2, f2) == Step(m[k := f2], Pass);
    assert Register(isCallable, m[k := f1], c2, f2) == Step(m[k := f1][k := f2], Pass);
    assert m[k := f1][k := f2] == m[k := f2];
  }

  /** Registration only ever stores under normalised keys. */
  lemma RegisterKeepsKeysNormalized<V>(isCallable: V -> bool, m: map<string, V>, code: Code, f: V)
    requires KeysNormalized(m)
    ensures KeysNormalized(Register(isCallable, m, code, f).functions)
  {
    if Register(isCallable, m, code, f).outcome.Pass? {
      TrimmedIsFixedPoint(Key(code));
    }
  }

  // ---------------------------------------------------------------------------
  // Removal

  /** After a successful unregistration the code is unknown: `Has` says so, and `Get` and
      `Call` fail with OutOfRange. */
  lemma UnregisterThenLookUp<V, A, R>(host: Host<V, A, R>, m: map<string, V>, code: Code, args: Arguments<A>)
    requires Unregister(m, code).outcome.Pass?
    requires args.Positional?
    ensures var m' := Unregister(m, code).functions;
      && Has(m', code) == Success(false)
      && Get(m', code) == Failure(OutOfRange(Key(code)))
      && Call(host, m', code, args) == Failure(OutOfRange(Key(code)))
  {
  }

  /** Unregistration undoes the registration of a fresh code. */
  lemma RegisterUnregisterRoundTrip<V>(isCallable: V -> bool, m: map<string, V>, code: Code, f: V)
    requires Register(isCallable, m, code, f).outcome.Pass?
    requires Key(code) !in m
    ensures Unregister(Register(isCallable, m, code, f).functions, code) == Step(m, Pass)
  {
    var k := Key(code);
    assert m[k := f] - {k} == m;
  }

  /** Putting back the callable function an unregistration removed restores the map. */
  lemma UnregisterRegisterRoundTrip<V>(isCallable: V -> bool, m: map<string, V>, code: Code)
    requires Unregister(m, code).outcome.Pass?
    requires isCallable(m[Key(code)])
    ensures Register(isCallable, Unregister(m, code).functions, code, m[Key(code)]) == Step(m, Pass)
  {
    var k := Key(code);
    assert (m - {k})[k := m[k]] == m;
  }

  /** Unregistration keeps every remaining key normalised. */
  lemma UnregisterKeepsKeysNormalized<V>(m: map<string, V>, code: Code)
    requires KeysNormalized(m)
    ensures KeysNormalized(Unregister(m, code).functions)
  {
  }

  // ---------------------------------------------------------------------------
  // Bulk registration

  /** Registering `p + q` is registering `p` and then, if that went through, `q`: bulk
      registration is a left fold of single registration over the pairs. */
  lemma {:induction false} RegisterPairsAppend<V>(isCallable: V -> bool, m: map<string, V>, p: seq<(Code, V)>, q: seq<(Code, V)>)
    ensures RegisterPairs(isCallable, m, p + q) ==
      var s := RegisterPairs(isCallable, m, p);
      if s.outcome.Fail? then s else RegisterPairs(isCallable, s.functions, q)
    decreases |p|
  {
    if p == [] {
      assert p + q == q;
    } else {
      assert (p + q)[0] == p[0];
      assert (p + q)[1..] == p[1..] + q;
      var s := Register(isCallable, m, p[0].0, p[0].1);
      if s.outcome.Pass? {
        RegisterPairsAppend(isCallable, s.functions, p[1..], q);
      }
    }
  }

  /** Bulk registration goes through exactly when every pair is accepted. */
  lemma {:induction false} RegisterPairsPassIff<V>(isCallable: V -> bool, m: map<string, V>, pairs: seq<(Code, V)>)
    ensures RegisterPairs(isCallable, m, pairs).outcome.Pass? <==>
      forall j :: 0 <= j < |pairs| ==> PairAccepted(isCallable, pairs[j])
    decreases |pairs|
  {
    if pairs != [] {
      var s := Register(isCallable, m, pairs[0].0, pairs[0].1);
      var rest := pairs[1..];
      RegisterPairsPassIff(isCallable, s.functions, rest);
      if s.outcome.Pass? && forall j :: 0 <= j < |rest| ==> PairAccepted(isCallable, rest[j]) {
        forall j | 0 <= j < |pairs|
          ensures PairAccepted(isCallable, pairs[j])
        {
          if j > 0 { assert pairs[j] == rest[j - 1]; }
        }
      }
      if forall j :: 0 <= j < |pairs| ==> PairAccepted(isCallable, pairs[j]) {
        forall j | 0 <= j < |rest|
          ensures PairAccepted(isCallable, rest[j])
        {
          assert rest[j] == pairs[j + 1];
        }
      }
    }
  }

  /** Bulk registration stops at the first refused pair with that pair's error; the pairs
      before it stay registered. */
  lemma RegisterPairsStopsAtFirstRefusal<V>(isCallable: V -> bool, m: map<string, V>, pairs: seq<(Code, V)>, i: nat)
    requires i < |pairs| && !PairAccepted(isCallable, pairs[i])
    requires forall j :: 0 <= j < i ==> PairAccepted(isCallable, pairs[j])
    ensures var before := RegisterPairs(isCallable, m, pairs[..i]);
      && before.outcome == Pass
      && RegisterPairs(isCallable, m, pairs) ==
         Step(before.functions, Register(isCallable, before.functions, pairs[i].0, pairs[i].1).outcome)
  {
    assert pairs == pairs[..i] + pairs[i..];
    RegisterPairsAppend(isCallable, m, pairs[..i], pairs[i..]);
    RegisterPairsPassIff(isCallable, m, pairs[..i]);
    assert pairs[i..][0] == pairs[i];
  }

  /** With every pair accepted, bulk registration goes through and stores something under
      the key of each pair. */
  lemma {:induction false} RegisterPairsStoresEveryKey<V>(isCallable: V -> bool, m: map<string, V>, pairs: seq<(Code, V)>, j: nat)
    requires forall p :: p in pairs ==> isCallable(p.1) && IsConvertible(p.0)
    requires j < |pairs|
    ensures RegisterPairs(isCallable, m, pairs).outcome == Pass
    ensures Key(pairs[j].0) in RegisterPairs(isCallable, m, pairs).functions
    decreases |pairs|
  {
    assert pairs[0] in pairs && pairs[j] in pairs;
    var s := Register(isCallable, m, pairs[0].0, pairs[0].1);
    assert forall p :: p in pairs[1..] ==> p in pairs;
    if |pairs| > 1 {
      RegisterPairsStoresEveryKey(isCallable, s.functions, pairs[1..], if j == 0 then 0 else j - 1);
      if j > 0 {
        assert pairs[1..][j - 1] == pairs[j];
      }
    } else {
      assert pairs[1..] == [];
    }
  }

  /** A key that no convertible code among the pairs normalises to keeps its entry, or its
      absence, through bulk registration, whether the registration passes or is refused. */
  lemma {:induction false} RegisterPairsKeepsUnnamedKey<V>(isCallable: V -> bool, m: map<string, V>, pairs: seq<(Code, V)>, k: string)
    requires forall p :: p in pairs && IsConvertible(p.0) ==> Key(p.0) != k
    ensures var r := RegisterPairs(isCallable, m, pairs).functions;
      (k in r <==> k in m) && (k in m ==> r[k] == m[k])
    decreases |pairs|
  {
    if pairs != [] {
      assert pairs[0] in pairs;
      var s := Register(isCallable, m, pairs[0].0, pairs[0].1);
      if s.outcome.Pass? {
        assert forall p :: p in pairs[1..] ==> p in pairs;
        RegisterPairsKeepsUnnamedKey(isCallable, s.functions, pairs[1..], k);
      }
    }
  }

  /** With every pair accepted, the function of a pair that no later pair overrides is the
      one stored under its key: when keys repeat, the last pair wins. */
  lemma {:induction false} RegisterPairsLastWins<V>(isCallable: V -> bool, m: map<string, V>, pairs: seq<(Code, V)>, j: nat)
    requires forall p :: p in pairs ==> isCallable(p.1) && IsConvertible(p.0)
    requires j < |pairs|
    requires forall p :: p in pairs[j + 1..] ==> Key(p.0) != Key(pairs[j].0)
    ensures var r := RegisterPairs(isCallable, m, pairs).functions;
      Key(pairs[j].0) in r && r[Key(pairs[j].0)] == pairs[j].1
    decreases |pairs|
  {
    assert pairs[0] in pairs && pairs[j] in pairs;
    var s := Register(isCallable, m, pairs[0].0, pairs[0].1);
    assert forall p :: p in pairs[1..] ==> p in pairs;
    if j == 0 {
      RegisterPairsKeepsUnnamedKey(isCallable, s.functions, pairs[1..], Key(pairs[0].0));
    } else {
      assert pairs[1..][j - 1] == pairs[j];
      assert pairs[1..][j - 1 + 1..] == pairs[j + 1..];
      RegisterPairsLastWins(isCallable, s.functions, pairs[1..], j - 1);
    }
  }

  /** Bulk registration, refused or not, only ever stores under normalised keys. */
  lemma {:induction false} RegisterPairsKeepsKeysNormalized<V>(isCallable: V -> bool, m: map<string, V>, pairs: seq<(Code, V)>)
    requires KeysNormalized(m)
    ensures KeysNormalized(RegisterPairs(isCallable, m, pairs).functions)
    decreases |pairs|
  {
    if pairs != [] {
      var s := Register(isCallable, m, pairs[0].0, pairs[0].1);
      RegisterKeepsKeysNormalized(isCallable, m, pairs[0].0, pairs[0].1);
      if s.outcome.Pass? {
        RegisterPairsKeepsKeysNormalized(isCallable, s.functions, pairs[1..]);
      }
    }
  }
}
