/**
 * The object that uses the custom-functions trait: one field holding the map from
 * normalised codes to functions, updated in place by registration and removal, and
 * read by the queries.
 */
module CustomFunctionsTrait {
  import opened Wrappers
  import opened PhpStrings
  import opened Codes
  import opened Registry

  class CustomFunctions<V, A, R> {
    /** The map of normalised codes to functions. Code outside the registry may fill it
        directly, so it may hold values that are not callable. */
    var customFunctions: map<string, V>

    /** How the host language tests and invokes a value. */
    const host: Host<V, A, R>

    /** A fresh object starts with no functions. */
    constructor (host: Host<V, A, R>)
      ensures this.host == host && customFunctions == map[]
    {
      this.host := host;
      customFunctions := map[];
    }

    /** `_hasCustomFunction` on the current map. */
    function HasCustomFunction(code: Code): Result<bool, Error<V>>
      reads this
    {
      Has(customFunctions, code)
    }

    /** `_getCustomFunction` on the current map. */
    function GetCustomFunction(code: Code): Result<V, Error<V>>
      reads this
    {
      Get(customFunctions, code)
    }

    /** `_callCustomFunction` on the current map. */
    function CallCustomFunction(code: Code, args: Arguments<A>): Result<R, Error<V>>
      reads this
    {
      Call(host, customFunctions, code, args)
    }

    /** `_registerCustomFunction`: the callable check of the parameter type comes first,
        then the code is normalised and the function is assigned under it. */
    method RegisterCustomFunction(code: Code, f: V) returns (r: Outcome<Error<V>>)
      modifies this
      ensures Step(customFunctions, r) == Register(host.isCallable, old(customFunctions), code, f)
      ensures KeysNormalized(old(customFunctions)) ==> KeysNormalized(customFunctions)
    {
      if KeysNormalized(customFunctions) {
        RegisterKeepsKeysNormalized(host.isCallable, customFunctions, code, f);
      }
      if !host.isCallable(f) {
        return Fail(InvalidArgument(FunctionArgument(f)));
      }
      var key := NormalizeFunctionCode(code);
      if key.Failure? {
        return Fail(InvalidArgument(CodeArgument(key.error)));
      }
      customFunctions := customFunctions[key.value := f];
      r := Pass;
    }

    /** `_registerCustomFunctions`: refuse an argument that is not iterable, then register
        the pairs in iteration order, stopping at the first refusal. */
    method RegisterCustomFunctions(fm: FunctionMap<V>) returns (r: Outcome<Error<V>>)
      modifies this
      ensures Step(customFunctions, r) == RegisterAll(host.isCallable, old(customFunctions), fm)
    {
      if fm.NotIterable? {
        return Fail(InvalidArgument(MapArgument(fm.raw)));
      }
      var pairs := fm.pairs;
      var i := 0;
      while i < |pairs|
        invariant 0 <= i <= |pairs|
        invariant RegisterPairs(host.isCallable, old(customFunctions), pairs)
               == RegisterPairs(host.isCallable, customFunctions, pairs[i..])
      {
        assert pairs[i..][0] == pairs[i] && pairs[i..][1..] == pairs[i + 1..];
        ghost var before := customFunctions;
        r := RegisterCustomFunction(pairs[i].0, pairs[i].1);
        if r.Fail? {
          assert RegisterPairs(host.isCallable, before, pairs[i..]) == Step(customFunctions, r);
          return;
        }
        i := i + 1;
      }
      r := Pass;
    }

    /** `_unregisterCustomFunction`: normalise the code, refuse it when nothing is stored
        under it, and otherwise unset that entry. */
    method UnregisterCustomFunction(code: Code) returns (r: Outcome<Error<V>>)
      modifies this
      ensures Step(customFunctions, r) == Unregister(old(customFunctions), code)
      ensures KeysNormalized(old(customFunctions)) ==> KeysNormalized(customFunctions)
    {
      var key := NormalizeFunctionCode(code);
      if key.Failure? {
        return Fail(InvalidArgument(CodeArgument(key.error)));
      }
      if key.value !in customFunctions {
        return Fail(OutOfRange(key.value));
      }
      customFunctions := customFunctions - {key.value};
      r := Pass;
    }
  }

  /** A function registered under a Stringable is found, called and removed through the
      plain string it renders: the round trip of register, check, call and unregister. */
  method RegisterCheckCallUnregister<V, A, R>(host: Host<V, A, R>, code: string, f: V, arg: A)
    returns (before: Result<bool, Error<V>>, registered: Outcome<Error<V>>, during: Result<bool, Error<V>>,
             result: Result<R, Error<V>>, removed: Outcome<Error<V>>, after: Result<bool, Error<V>>)
    requires host.isCallable(f)
    ensures before == Success(false) && registered == Pass && during == Success(true)
    ensures result == Success(host.invoke(f, [arg]))
    ensures removed == Pass && after == Success(false)
  {
    var subject := new CustomFunctions(host);
    before := subject.HasCustomFunction(Text(code));
    registered := subject.RegisterCustomFunction(Stringable(code), f);
    during := subject.HasCustomFunction(Text(code));
    result := subject.CallCustomFunction(Text(code), Positional([arg]));
    removed := subject.UnregisterCustomFunction(Text(code));
    after := subject.HasCustomFunction(Text(code));
  }

  /** A value that is not callable, placed in the map directly, is returned by get but
      refused by call with a Domain error that carries it. */
  method CallStoredNonCallable<V, A, R>(host: Host<V, A, R>, code: string, v: V, args: seq<A>)
    returns (got: Result<V, Error<V>>, result: Result<R, Error<V>>)
    requires IsTrimmed(code) && !host.isCallable(v)
    ensures got == Success(v)
    ensures result == Failure(Domain(code, v))
  {
    TrimmedIsFixedPoint(code);
    var subject := new CustomFunctions(host);
    subject.customFunctions := map[code := v];
    got := subject.GetCustomFunction(Text(code));
    result := subject.CallCustomFunction(Text(code), Positional(args));
  }
}
