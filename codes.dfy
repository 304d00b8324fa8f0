/**
 * Function codes and their normalisation. A code reaches the registry as a raw PHP
 * value; `_normalizeFunctionCode` turns it into the string key the registry stores
 * functions under, or rejects it.
 */
module Codes {
  import opened Wrappers
  import opened PhpStrings

  /** A PHP value given where a function code is expected. `Opaque` stands for every value
      that has no string form: null, arrays, and objects that are not Stringable. The
      registry also uses this type for any other PHP argument value it refuses, such as a
      bulk argument that is not iterable or call arguments that are not an array. */
  datatype Code =
    | Text(s: string)
    | Stringable(rendered: string)
    | Integer(i: int)
    | Boolean(b: bool)
    | Opaque(id: nat)

  /** Whether `code` has a string form at all. */
  predicate IsConvertible(code: Code) {
    !code.Opaque?
  }

  /** The host's `_normalizeString`, as its documentation describes it: a string is kept,
      a Stringable renders itself, an integer or boolean is cast the way PHP casts it,
      and anything else is refused. A failure carries the value that was refused. */
  function NormalizeString(code: Code): (r: Result<string, Code>)
    ensures r.Success? <==> IsConvertible(code)
    ensures r.Failure? ==> r.error == code
    ensures code.Text? || code.Stringable? ==> r.Success? && r.value == (if code.Text? then code.s else code.rendered)
  {
    match code
    case Text(s) => Success(s)
    case Stringable(rendered) => Success(rendered)
    case Integer(i) => Success(DecimalString(i))
    case Boolean(b) => Success(if b then "1" else "")
    case Opaque(_) => Failure(code)
  }

  /** `_normalizeFunctionCode`: the string form of `code`, trimmed. The key is trimmed,
      and it fails exactly when `code` has no string form. */
  function NormalizeFunctionCode(code: Code): (r: Result<string, Code>)
    ensures r.Success? <==> IsConvertible(code)
    ensures r.Failure? ==> r.error == code
    ensures r.Success? ==> IsTrimmed(r.value)
  {
    match NormalizeString(code)
    case Failure(e) => Failure(e)
    case Success(s) => TrimSplits(s); Success(Trim(s))
  }

  /** Normalising a key that normalisation produced gives the same key again, so a second
      normalisation of an already normalised code changes nothing. */
  lemma NormalizeIdempotent(code: Code)
    requires NormalizeFunctionCode(code).Success?
    ensures NormalizeFunctionCode(Text(NormalizeFunctionCode(code).value)) == NormalizeFunctionCode(code)
  {
    TrimIdempotent(NormalizeString(code).value);
  }

  /** A string and a Stringable that renders as padding around a trimmed string `t`
      both normalise to `t`. */
  lemma {:induction false} PaddedCodesAgree(a: string, t: string, b: string)
    requires AllTrimChars(a) && AllTrimChars(b) && IsTrimmed(t)
    ensures NormalizeFunctionCode(Stringable(a + t + b)) == Success(t)
    ensures NormalizeFunctionCode(Text(a + t + b)) == Success(t)
    ensures NormalizeFunctionCode(Text(t)) == Success(t)
  {
    TrimPadded(a, t, b);
    TrimmedIsFixedPoint(t);
  }

  /** An integer code normalises to its decimal rendering, untouched by `trim`. */
  lemma IntegerCodeKey(i: int)
    ensures NormalizeFunctionCode(Integer(i)) == Success(DecimalString(i))
  {
    DecimalStringIsTrimmed(i);
  }
}
