/**
 * The two pieces of PHP's string handling the registry relies on: `trim` with its
 * default character list, and the decimal rendering of an integer by a `(string)` cast.
 */
module PhpStrings {

  /** The characters PHP's `trim` strips by default: space, tab, line feed,
      carriage return, NUL and vertical tab. */
  predicate IsTrimChar(c: char) {
    c == ' ' || c == '\t' || c == '\n' || c == '\r' || c == '\0' || c == '\U{000B}'
  }

  /** Every character of `s` is one `trim` strips. */
  predicate AllTrimChars(s: string) {
    forall i :: 0 <= i < |s| ==> IsTrimChar(s[i])
  }

  /** `s` neither starts nor ends with a character `trim` strips. */
  predicate IsTrimmed(s: string) {
    s == [] || (!IsTrimChar(s[0]) && !IsTrimChar(s[|s| - 1]))
  }

  /** `s` without its leading trim characters. */
  function TrimLeft(s: string): string {
    if |s| > 0 && IsTrimChar(s[0]) then TrimLeft(s[1..]) else s
  }

  /** `s` without its trailing trim characters. */
  function TrimRight(s: string): string {
    if |s| > 0 && IsTrimChar(s[|s| - 1]) then TrimRight(s[..|s| - 1]) else s
  }

  /** `TrimLeft` keeps a suffix of `s`, what it drops consists of trim characters only,
      and what it keeps does not start with one. */
  lemma {:induction false} TrimLeftShape(s: string)
    ensures var r := TrimLeft(s);
      && |r| <= |s| && r == s[|s| - |r|..]
      && AllTrimChars(s[..|s| - |r|])
      && (r == [] || !IsTrimChar(r[0]))
  {
    if |s| > 0 && IsTrimChar(s[0]) {
      TrimLeftShape(s[1..]);
      var r := TrimLeft(s[1..]);
      assert s[..|s| - |r|] == [s[0]] + s[1..][..|s| - 1 - |r|];
    }
  }

  /** `TrimRight` keeps a prefix of `s`, what it drops consists of trim characters only,
      and what it keeps does not end with one. */
  lemma {:induction false} TrimRightShape(s: string)
    ensures var r := TrimRight(s);
      && |r| <= |s| && r == s[..|r|]
      && AllTrimChars(s[|r|..])
      && (r == [] || !IsTrimChar(r[|r| - 1]))
  {
    if |s| > 0 && IsTrimChar(s[|s| - 1]) {
      TrimRightShape(s[..|s| - 1]);
      var r := TrimRight(s[..|s| - 1]);
      assert s[|r|..] == s[..|s| - 1][|r|..] + [s[|s| - 1]];
    }
  }

  /** PHP's `trim($s)` with the default character list. */
  function Trim(s: string): string {
    TrimRight(TrimLeft(s))
  }

  /** `Trim(s)` is the middle of `s`: `s` splits into a run of trim characters,
      the result, and another run of trim characters, and the result is trimmed. */
  lemma TrimSplits(s: string)
    ensures var t := Trim(s);
      exists i, j :: 0 <= i <= j <= |s| && t == s[i..j]
                     && AllTrimChars(s[..i]) && AllTrimChars(s[j..])
    ensures IsTrimmed(Trim(s))
  {
    var l := TrimLeft(s);
    var t := TrimRight(l);
    TrimLeftShape(s);
    TrimRightShape(l);
    var i := |s| - |l|;
    var j := i + |t|;
    assert t == s[i..j];
    assert s[j..] == l[|t|..];
    if t != [] {
      assert t[0] == l[0];
    }
  }

  /** Padding a trimmed string with trim characters on both sides and trimming again
      gives back that string. */
  lemma {:induction false} TrimPadded(a: string, t: string, b: string)
    requires AllTrimChars(a) && AllTrimChars(b) && IsTrimmed(t)
    ensures Trim(a + t + b) == t
  {
    TrimLeftPadded(a, t, b);
    if t == [] {
      assert TrimLeft(a + t + b) == [];
    } else {
      assert TrimLeft(a + t + b) == t + b;
      TrimRightPadded(t, b);
    }
  }

  /** Stripping the leading run `a` leaves `t + b`, or nothing when `t` is empty. */
  lemma {:induction false} TrimLeftPadded(a: string, t: string, b: string)
    requires AllTrimChars(a) && AllTrimChars(b) && IsTrimmed(t)
    ensures TrimLeft(a + t + b) == if t == [] then [] else t + b
    decreases |a| + |b|
  {
    if a != [] {
      assert (a + t + b)[1..] == a[1..] + t + b;
      TrimLeftPadded(a[1..], t, b);
    } else if t == [] && b != [] {
      assert (a + t + b)[1..] == a + t + b[1..];
      TrimLeftPadded(a, t, b[1..]);
    } else if t != [] {
      assert (a + t + b)[0] == t[0];
      assert a + t + b == t + b;
    }
  }

  /** Stripping the trailing run `b` from `t + b` leaves `t`, when `t` is trimmed. */
  lemma {:induction false} TrimRightPadded(t: string, b: string)
    requires AllTrimChars(b) && IsTrimmed(t)
    ensures TrimRight(t + b) == t
    decreases |b|
  {
    if b != [] {
      assert (t + b)[..|t + b| - 1] == t + b[..|b| - 1];
      TrimRightPadded(t, b[..|b| - 1]);
    } else {
      assert t + b == t;
    }
  }

  /** A trimmed string is left alone by `trim`. */
  lemma TrimmedIsFixedPoint(t: string)
    requires IsTrimmed(t)
    ensures Trim(t) == t
  {
    TrimPadded([], t, []);
    assert [] + t + [] == t;
  }

  /** `trim` is idempotent. */
  lemma TrimIdempotent(s: string)
    ensures Trim(Trim(s)) == Trim(s)
  {
    TrimSplits(s);
    TrimmedIsFixedPoint(Trim(s));
  }

  /** The decimal digit character for `d`. */
  function DigitChar(d: nat): (c: char)
    requires d < 10
    ensures '0' <= c <= '9'
  {
    "0123456789"[d]
  }

  /** The decimal digits of `n`, most significant first, without leading zeros. */
  function Digits(n: nat): (r: string)
    ensures |r| > 0 && forall i :: 0 <= i < |r| ==> '0' <= r[i] <= '9'
  {
    if n < 10 then [DigitChar(n)] else Digits(n / 10) + [DigitChar(n % 10)]
  }

  /** What PHP's `(string)` cast gives for an integer: an optional minus sign and the
      decimal digits. */
  function DecimalString(i: int): (r: string)
    ensures |r| > 0
  {
    if i < 0 then "-" + Digits(-i) else Digits(i)
  }

  /** The value a string of decimal digits denotes. */
  function DigitsValue(s: string): int
    requires forall i :: 0 <= i < |s| ==> '0' <= s[i] <= '9'
  {
    if s == [] then 0 else 10 * DigitsValue(s[..|s| - 1]) + (s[|s| - 1] as int - '0' as int)
  }

  /** `Digits` renders `n` faithfully: reading the digits back gives `n`. */
  lemma {:induction false} DigitsRoundTrip(n: nat)
    ensures DigitsValue(Digits(n)) == n
  {
    if n >= 10 {
      var r := Digits(n);
      assert r[..|r| - 1] == Digits(n / 10);
      DigitsRoundTrip(n / 10);
    }
  }

  /** The rendering is canonical: a positive number has no leading zero. */
  lemma {:induction false} DigitsNoLeadingZero(n: nat)
    requires n > 0
    ensures Digits(n)[0] != '0'
  {
    if n >= 10 {
      DigitsNoLeadingZero(n / 10);
      assert Digits(n)[0] == Digits(n / 10)[0];
    }
  }

  /** A rendered integer contains no trim character, so `trim` leaves it alone. */
  lemma DecimalStringIsTrimmed(i: int)
    ensures IsTrimmed(DecimalString(i)) && Trim(DecimalString(i)) == DecimalString(i)
  {
    TrimmedIsFixedPoint(DecimalString(i));
  }
}
