# Custom functions registry of the command invoker

This project models the custom-functions trait of the command invoker. The trait gives
an object a map from function codes to functions. Through it the object registers a
function under a code (one at a time or in bulk), unregisters it, checks for it, gets
it, and calls it with positional arguments. Every operation first normalises its code.
It converts the value to a string and then trims it with PHP's `trim`. Failures are
one of three errors:

- InvalidArgument: a code with no string form, a non-callable function given to
  register, a bulk argument that is neither an array nor a Traversable, or call
  arguments that are not an array.
- OutOfRange: no function is stored under the normalised code.
- Domain: the value stored under the code is not callable.

The model has five modules:

- `Wrappers` (wrappers.dfy): `Result` and `Outcome`. They stand in for the exceptions.
- `PhpStrings` (php_strings.dfy): PHP's `trim` with its default character list
  (space, tab, line feed, carriage return, NUL, vertical tab), and the decimal
  rendering of an integer.
- `Codes` (codes.dfy): the raw code values (`Text`, `Stringable`, `Integer`,
  `Boolean`, and `Opaque` for anything without a string form). Also `_normalizeString`
  and `_normalizeFunctionCode`.
- `Registry` (registry.dfy): every operation as a function of the current map. The
  three operations that change the map return a `Step`: the map afterwards plus the
  outcome. The lemmas relating the operations live here too.
- `CustomFunctionsTrait` (custom_functions.dfy): the class `CustomFunctions`. Its
  field `customFunctions` holds the map. Register, bulk register and unregister are
  methods. They update the field in place, and their `ensures` equate the new field
  and the outcome with the matching `Registry` function of the old field. The
  queries `HasCustomFunction`, `GetCustomFunction` and `CallCustomFunction` evaluate
  `Registry.Has`, `Registry.Get` and `Registry.Call` on the field, so the rows of those
  three `Registry` functions below cover them as well. Two methods replay
  tests of the repository against the class.

`is_callable` is a parameter, and so is the result of `call_user_func_array`. They form
a `Host` value that the object receives at construction. When an invoked function
throws, its exception is part of that result, so `Call` returns it unchanged. The
abstract `_normalizeString` is modelled by what its documentation
(src/CustomFunctionsTrait.php:173-187) says it does. Strings and Stringables give their
text. Integers and booleans are cast as PHP casts them. Null, arrays and objects
that are not Stringable are refused with InvalidArgument; floats are not modelled. The exception factories and the translator `__` become the `Error`
datatype, which keeps each error's payload: the offending argument, the missing key, or
the non-callable value with its code.

Three consequences of the code worth stating:

- Register refuses a non-callable function through its `callable` parameter type
  (src/CustomFunctionsTrait.php:36); the unit test expects InvalidArgument.
  `Registry.Register` refuses it before it normalises the code. The map may still hold
  non-callable values when it is filled directly, as the unit tests do, so the Domain
  error of `Call` can still happen.
- Keys may be empty: `"   "` and `false` both normalise to `""`, and the model stores
  under it.
- Bulk registration stops at any refused pair, including one whose function is not
  callable.

## Model

`PhpStrings.TrimLeft`, `PhpStrings.TrimRight`, `PhpStrings.Trim`, `PhpStrings.Digits` and
`PhpStrings.DecimalString` only compute; the `Trim*`, `Digits*` and `DecimalString*` lemma
rows below state what they mean.

| member | source | states |
|---|---|---|
| PhpStrings.TrimLeftShape | src/CustomFunctionsTrait.php:168 | stripping leading trim characters keeps a suffix, drops only trim characters, and leaves no leading trim character |
| PhpStrings.TrimRightShape | src/CustomFunctionsTrait.php:168 | stripping trailing trim characters keeps a prefix, drops only trim characters, and leaves no trailing trim character |
| PhpStrings.TrimSplits | src/CustomFunctionsTrait.php:168 | `trim(s)` is a middle slice of `s` with only trim characters on each side, and it is trimmed |
| PhpStrings.TrimPadded | src/CustomFunctionsTrait.php:168 | a trimmed string padded on both sides with trim characters trims back to itself |
| PhpStrings.TrimLeftPadded | src/CustomFunctionsTrait.php:168 | stripping the leading padding of `a + t + b` leaves `t + b`, or nothing when `t` is empty |
| PhpStrings.TrimRightPadded | src/CustomFunctionsTrait.php:168 | stripping the trailing padding of `t + b` leaves the trimmed `t` |
| PhpStrings.TrimmedIsFixedPoint | src/CustomFunctionsTrait.php:168 | `trim` leaves a trimmed string unchanged |
| PhpStrings.TrimIdempotent | src/CustomFunctionsTrait.php:168 | `trim(trim(s)) == trim(s)` |
| PhpStrings.DigitsRoundTrip | src/CustomFunctionsTrait.php:181 | reading back the decimal digits of a natural number gives that number |
| PhpStrings.DigitsNoLeadingZero | src/CustomFunctionsTrait.php:181 | the decimal rendering of a positive number has no leading zero, so it is the canonical one |
| PhpStrings.DecimalStringIsTrimmed | src/CustomFunctionsTrait.php:181 | a rendered integer has no trim character at either end, so `trim` leaves it alone |
| Codes.NormalizeString | src/CustomFunctionsTrait.php:173-187 | succeeds exactly for values with a string form, gives the text of a string or Stringable, and fails carrying the refused value |
| Codes.NormalizeFunctionCode | src/CustomFunctionsTrait.php:165-171 | succeeds exactly when `_normalizeString` does, always with a trimmed key, and fails carrying the refused value |
| Codes.NormalizeIdempotent | src/CustomFunctionsTrait.php:102-103 | normalising an already normalised key again gives the same key, so the second normalisation inside call changes nothing |
| Codes.PaddedCodesAgree | src/CustomFunctionsTrait.php:165-171 | a Stringable or string rendering `"  t  "` and the plain string `t` all normalise to the same key `t` |
| Codes.IntegerCodeKey | src/CustomFunctionsTrait.php:165-171 | an integer code, such as a numeric array key, normalises to its decimal rendering |
| Registry.Has | src/CustomFunctionsTrait.php:147-152 | fails only on a code without a string form, with InvalidArgument; otherwise true exactly when the normalised key is in the map |
| Registry.Get | src/CustomFunctionsTrait.php:124-133 | succeeds exactly when the normalised key is present, with the stored value; InvalidArgument for a bad code; OutOfRange carrying the key when it is absent |
| Registry.Call | src/CustomFunctionsTrait.php:100-110 | InvalidArgument for non-array arguments or a bad code; OutOfRange for an absent key; Domain carrying the key and value for a non-callable entry; otherwise exactly what invoking the stored value with the arguments gives |
| Registry.Register | src/CustomFunctionsTrait.php:36-41 | passes exactly for a callable function and a convertible code; a refusal names the non-callable function or the bad code and leaves the map unchanged; on success the key holds the function, the key set grows by that key alone, and every other entry is unchanged |
| Registry.Unregister | src/CustomFunctionsTrait.php:74-83 | passes exactly when the normalised key is present; InvalidArgument or OutOfRange otherwise, with the map unchanged; on success exactly that key is gone and every other entry is unchanged |
| Registry.RegisterPairs | src/CustomFunctionsTrait.php:59-61 | registering pairs in order never removes a key |
| Registry.RegisterAll | src/CustomFunctionsTrait.php:53-57 | an argument that is neither an array nor a Traversable fails with InvalidArgument carrying it, and the map is unchanged |
| Registry.RegisterThenLookUp | src/CustomFunctionsTrait.php:36-41 | after a successful register, every code with the same normalised key is present, get returns the same function, and call invokes it |
| Registry.RegisterOverwrites | src/CustomFunctionsTrait.php:38-40 | registering twice under one normalised key gives the map that the second registration alone would give |
| Registry.RegisterKeepsKeysNormalized | src/CustomFunctionsTrait.php:38-40 | register only stores under trimmed keys |
| Registry.UnregisterThenLookUp | src/CustomFunctionsTrait.php:74-83 | after a successful unregister, has is false, and get and call fail with OutOfRange carrying the key |
| Registry.RegisterUnregisterRoundTrip | src/CustomFunctionsTrait.php:74-83 | unregistering a freshly registered code restores the original map |
| Registry.UnregisterRegisterRoundTrip | src/CustomFunctionsTrait.php:36-41 | registering the removed callable function again restores the original map |
| Registry.UnregisterKeepsKeysNormalized | src/CustomFunctionsTrait.php:82 | unregister keeps every remaining key trimmed |
| Registry.RegisterPairsAppend | src/CustomFunctionsTrait.php:59-61 | bulk registration of `p + q` is bulk registration of `p`, then of `q` when `p` passed: a left fold of register |
| Registry.RegisterPairsPassIff | src/CustomFunctionsTrait.php:59-61 | bulk registration passes exactly when every pair is accepted |
| Registry.RegisterPairsStopsAtFirstRefusal | src/CustomFunctionsTrait.php:59-61 | at the first refused pair, bulk registration fails with that pair's error, and the pairs before it stay registered |
| Registry.RegisterPairsStoresEveryKey | src/CustomFunctionsTrait.php:59-61 | when every pair is accepted, bulk registration passes and every pair's key is present |
| Registry.RegisterPairsKeepsUnnamedKey | src/CustomFunctionsTrait.php:59-61 | a key that no convertible code among the pairs normalises to keeps its entry, or its absence, whether bulk registration passes or is refused partway |
| Registry.RegisterPairsLastWins | src/CustomFunctionsTrait.php:59-61 | when every pair is accepted, a pair that no later pair overrides has its function stored under its key |
| Registry.RegisterPairsKeepsKeysNormalized | src/CustomFunctionsTrait.php:59-61 | bulk registration, refused or not, only stores under trimmed keys |
| CustomFunctionsTrait.CustomFunctions.constructor | src/CustomFunctionsTrait.php:26 | a new object has an empty map and the given host |
| CustomFunctionsTrait.CustomFunctions.RegisterCustomFunction | src/CustomFunctionsTrait.php:36-41 | the new map and the outcome are those of `Registry.Register` on the old map; trimmed keys stay trimmed |
| CustomFunctionsTrait.CustomFunctions.RegisterCustomFunctions | src/CustomFunctionsTrait.php:53-62 | the loop leaves the map and outcome of `Registry.RegisterAll` on the old map |
| CustomFunctionsTrait.CustomFunctions.UnregisterCustomFunction | src/CustomFunctionsTrait.php:74-83 | the new map and the outcome are those of `Registry.Unregister` on the old map; trimmed keys stay trimmed |
| CustomFunctionsTrait.RegisterCheckCallUnregister | test/functional/CustomFunctionsTraitTest.php:127-150 | a code is absent at first; registered through a Stringable, it is present, callable with the argument, and removable; afterwards it is absent |
| CustomFunctionsTrait.CallStoredNonCallable | test/unit/CustomFunctionsTraitTest.php:305-326 | a non-callable value put into the map directly is returned by get, and call refuses it with Domain carrying the code and the value |

## Left out

- `_normalizeString` on floats: PHP's float-to-string rendering is not modelled. `Opaque` covers every value that does not convert: null, arrays, and objects that are not Stringable.
- `_normalizeString` is a host method that could do anything. The model fixes it to the behaviour its documentation describes.
- Message text: the sprintf-style templates and the translator `__` are not modelled. Errors keep their kind and their payload only.
- The exception factories are not modelled as code. They are the constructors of `Registry.Error`.
- `is_callable` and `call_user_func_array` are not modelled. They are the `Host` parameters. What an invoked function does, exceptions included, is part of its result.
- Traversables are modelled as a finite sequence of the pairs they yield. Iterators that never end, or that throw while iterating, are not modelled.
- PHP turns numeric string keys such as `"12"` into integer array keys. Storing and looking up convert in the same way, so the model keeps all keys as strings.
- `isset` treats a stored null as absent. The model assumes stored values are never null.
- src/AbstractCodeMapCommandInvoker.php composes the trait into an abstract class. Its `_construct` (src/AbstractCodeMapCommandInvoker.php:20-22) is empty, so it has nothing to model beyond the constructor of `CustomFunctions`.
- PHP's `callable` and `array` parameter types raise a TypeError in current PHP versions. The model reports both as InvalidArgument, which is what the unit tests expect.
- The field `customFunctions` (src/CustomFunctionsTrait.php:26) starts as null, not as an empty array. Every operation treats null as empty, so the constructor's `map[]` behaves the same.
- The default `$args = []` of `_callCustomFunction` (src/CustomFunctionsTrait.php:100) is written out as `Positional([])`.
- `Positional(values: seq<A>)` keeps only the order of the arguments and drops the keys of `$args`. PHP 8's `call_user_func_array` passes string keys as named arguments; that is not modelled.
