/** String operations the harness relies on, written to follow the Rust
    standard library functions it calls: `str::split` on one character,
    `[&str]::join`, `str::starts_with`, `str::lines`, `str::split_whitespace`,
    and `FromStr` for unsigned integers and (decimal) floating-point numbers.
 */
module Text {
  import opened Wrappers

  const USIZE_MAX: nat := 0xFFFF_FFFF_FFFF_FFFF
  const U32_MAX: nat := 0xFFFF_FFFF

  // ---------------------------------------------------------------------
  // Splitting on one character and joining again

  /** `s.split(c)`: the pieces between occurrences of `c`, always at least one. */
  function Split(s: string, c: char): (parts: seq<string>)
    ensures |parts| >= 1
    decreases |s|
  {
    if |s| == 0 then [""]
    else if s[0] == c then [""] + Split(s[1..], c)
    else
      var rest := Split(s[1..], c);
      [[s[0]] + rest[0]] + rest[1..]
  }

  /** `parts.join(c)`. */
  function Join(parts: seq<string>, c: char): string
    decreases |parts|
  {
    if |parts| == 0 then ""
    else if |parts| == 1 then parts[0]
    else parts[0] + [c] + Join(parts[1..], c)
  }

  predicate StartsWith(s: string, prefix: string) {
    |prefix| <= |s| && s[..|prefix|] == prefix
  }

  lemma {:induction false} SplitNoSeparator(s: string, c: char)
    requires c !in s
    ensures Split(s, c) == [s]
    decreases |s|
  {
    if |s| > 0 {
      SplitNoSeparator(s[1..], c);
      assert [s[0]] + s[1..] == s;
    }
  }

  /** Splitting distributes over a separator occurrence. */
  lemma {:induction false} SplitConcat(a: string, b: string, c: char)
    ensures Split(a + [c] + b, c) == Split(a, c) + Split(b, c)
    decreases |a|
  {
    if |a| == 0 {
      assert a + [c] + b == [c] + b;
      assert ([c] + b)[1..] == b;
    } else {
      assert (a + [c] + b)[0] == a[0];
      assert (a + [c] + b)[1..] == a[1..] + [c] + b;
      SplitConcat(a[1..], b, c);
    }
  }

  lemma {:induction false} SplitPiecesAvoidSeparator(s: string, c: char)
    ensures forall p :: p in Split(s, c) ==> c !in p
    decreases |s|
  {
    if |s| > 0 {
      SplitPiecesAvoidSeparator(s[1..], c);
      var rest := Split(s[1..], c);
      if s[0] != c {
        assert c !in rest[0];
        assert c !in [s[0]] + rest[0];
        forall p | p in Split(s, c) ensures c !in p {
          if p != [s[0]] + rest[0] { assert p in rest[1..]; }
        }
      }
    }
  }

  /** There is more than one piece exactly when the separator occurs. */
  lemma SplitLength(s: string, c: char)
    ensures |Split(s, c)| >= 2 <==> c in s
  {
    if c in s {
      var i :| 0 <= i < |s| && s[i] == c;
      assert s == s[..i] + [c] + s[i + 1..];
      SplitConcat(s[..i], s[i + 1..], c);
    } else {
      SplitNoSeparator(s, c);
    }
  }

  /** Joining the pieces of a split gives the string back. */
  lemma {:induction false} JoinSplit(s: string, c: char)
    ensures Join(Split(s, c), c) == s
    decreases |s|
  {
    if |s| > 0 {
      JoinSplit(s[1..], c);
      var rest := Split(s[1..], c);
      if s[0] == c {
        assert Split(s, c) == [""] + rest;
        assert ([""] + rest)[1..] == rest;
        assert [s[0]] + s[1..] == s;
      } else {
        var parts := Split(s, c);
        assert parts[0] == [s[0]] + rest[0];
        if |rest| == 1 {
          assert [s[0]] + s[1..] == s;
        } else {
          assert parts[1..] == rest[1..];
          assert Join(rest, c) == rest[0] + [c] + Join(rest[1..], c);
          assert Join(parts, c) == [s[0]] + rest[0] + [c] + Join(rest[1..], c);
          assert [s[0]] + s[1..] == s;
        }
      }
    }
  }

  /** Splitting a join of separator-free pieces gives the pieces back. */
  lemma {:induction false} SplitJoin(parts: seq<string>, c: char)
    requires |parts| >= 1
    requires forall i :: 0 <= i < |parts| ==> c !in parts[i]
    ensures Split(Join(parts, c), c) == parts
    decreases |parts|
  {
    if |parts| == 1 {
      SplitNoSeparator(parts[0], c);
    } else {
      SplitJoin(parts[1..], c);
      SplitConcat(parts[0], Join(parts[1..], c), c);
      SplitNoSeparator(parts[0], c);
      assert [parts[0]] + parts[1..] == parts;
    }
  }

  // ---------------------------------------------------------------------
  // Decimal digits

  predicate IsDigit(ch: char) { '0' <= ch <= '9' }

  predicate AllDigits(s: string) { forall i :: 0 <= i < |s| ==> IsDigit(s[i]) }

  function DigitValue(ch: char): nat requires IsDigit(ch) { ch as nat - '0' as nat }

  function DigitChar(d: nat): char requires d < 10 { ('0' as nat + d) as char }

  /** The number written by a string of decimal digits (leading zeros allowed). */
  function DigitsValue(s: string): nat
    requires AllDigits(s)
    decreases |s|
  {
    if |s| == 0 then 0 else DigitsValue(s[..|s| - 1]) * 10 + DigitValue(s[|s| - 1])
  }

  /** `n.to_string()` / `format!("{}", n)` for an unsigned integer. */
  function NatToString(n: nat): string
    decreases n
  {
    if n < 10 then [DigitChar(n)] else NatToString(n / 10) + [DigitChar(n % 10)]
  }

  lemma {:induction false} NatToStringDigits(n: nat)
    ensures |NatToString(n)| >= 1 && AllDigits(NatToString(n))
    ensures DigitsValue(NatToString(n)) == n
    decreases n
  {
    if n >= 10 {
      NatToStringDigits(n / 10);
      var s := NatToString(n);
      assert s[..|s| - 1] == NatToString(n / 10);
    }
  }

  /** Distinct numbers print differently. */
  lemma NatToStringInjective(m: nat, n: nat)
    requires NatToString(m) == NatToString(n)
    ensures m == n
  {
    NatToStringDigits(m);
    NatToStringDigits(n);
  }

  /** `FromStr` for an unsigned Rust integer whose largest value is `max`:
      an optional '+', then one or more ASCII digits, and no overflow. */
  function ParseUnsigned(s: string, max: nat): (r: Option<nat>)
    ensures r.Some? ==> r.value <= max
  {
    var digits := if |s| > 0 && s[0] == '+' then s[1..] else s;
    if |digits| > 0 && AllDigits(digits) && DigitsValue(digits) <= max
    then Some(DigitsValue(digits)) else None
  }

  function ParseUsize(s: string): Option<nat> { ParseUnsigned(s, USIZE_MAX) }

  function ParseU32(s: string): Option<nat> { ParseUnsigned(s, U32_MAX) }

  /** Printing a number and parsing it back gives the number, if it is in
      range. */
  lemma ParseUnsignedNatToString(n: nat, max: nat)
    ensures ParseUnsigned(NatToString(n), max) == (if n <= max then Some(n) else None)
  {
    NatToStringDigits(n);
    assert NatToString(n)[0] != '+' by { assert IsDigit(NatToString(n)[0]); }
  }

  // ---------------------------------------------------------------------
  // Decimal floating-point literals

  /** The value of `digits` read as a fraction after a decimal point. */
  function FractionValue(digits: string): real
    requires AllDigits(digits)
    decreases |digits|
  {
    if |digits| == 0 then 0.0
    else (DigitValue(digits[0]) as real + FractionValue(digits[1..])) / 10.0
  }

  /** The unsigned part of a float literal: `int[.frac]` with at least one digit. */
  function ParseUnsignedDecimal(s: string): Option<real> {
    var parts := Split(s, '.');
    if |parts| == 1 then
      if |s| > 0 && AllDigits(s) then Some(DigitsValue(s) as real) else None
    else if |parts| == 2 then
      var (whole, frac) := (parts[0], parts[1]);
      if AllDigits(whole) && AllDigits(frac) && |whole| + |frac| > 0
      then Some(DigitsValue(whole) as real + FractionValue(frac)) else None
    else None
  }

  /** `s.parse::<f32>()` / `s.parse::<f64>()` for plain decimal literals: an
      optional sign, then `int`, `int.`, `.frac` or `int.frac`. */
  function ParseDecimal(s: string): Option<real> {
    if |s| > 0 && s[0] == '-' then
      match ParseUnsignedDecimal(s[1..])
      case Some(v) => Some(-v)
      case None => None
    else if |s| > 0 && s[0] == '+' then ParseUnsignedDecimal(s[1..])
    else ParseUnsignedDecimal(s)
  }

  // ---------------------------------------------------------------------
  // Lines and whitespace-separated tokens

  /** `char::is_whitespace`: the Unicode White_Space property. */
  predicate IsWhitespace(ch: char) {
    ('\t' <= ch <= '\r') || ch == ' ' || ch == '\U{0085}' || ch == '\U{00A0}' || ch == '\U{1680}'
    || ('\U{2000}' <= ch <= '\U{200A}') || ch == '\U{2028}' || ch == '\U{2029}' || ch == '\U{202F}'
    || ch == '\U{205F}' || ch == '\U{3000}'
  }

  function StripCarriageReturn(line: string): string {
    if |line| > 0 && line[|line| - 1] == '\r' then line[..|line| - 1] else line
  }

  /** `s.lines()`: pieces ended by "\n" (with a "\r" before it dropped), then
      the unterminated rest if it is not empty. */
  function Lines(s: string): (lines: seq<string>)
    ensures s == "" ==> lines == []
    ensures s != "" ==> |lines| >= 1
  {
    var parts := Split(s, '\n');
    var terminated := parts[..|parts| - 1];
    var rest := parts[|parts| - 1];
    assert s != "" && rest == "" ==> |parts| >= 2 by {
      if s != "" && rest == "" && |parts| == 1 { JoinSplit(s, '\n'); }
    }
    seq(|terminated|, i requires 0 <= i < |terminated| => StripCarriageReturn(terminated[i]))
      + (if rest == "" then [] else [rest])
  }

  function TrimEnd(s: string): (t: string)
    ensures |t| <= |s| && t == s[..|t|]
    ensures t == "" || !IsWhitespace(t[|t| - 1])
    ensures forall i :: |t| <= i < |s| ==> IsWhitespace(s[i])
    decreases |s|
  {
    if |s| > 0 && IsWhitespace(s[|s| - 1]) then TrimEnd(s[..|s| - 1]) else s
  }

  /** Where the run of non-whitespace that ends at `n` starts. */
  function RunStart(s: string, n: nat): (k: nat)
    requires n <= |s|
    ensures k <= n
    decreases n
  {
    if n > 0 && !IsWhitespace(s[n - 1]) then RunStart(s, n - 1) else n
  }

  lemma {:induction false} RunStartFacts(s: string, n: nat)
    requires n <= |s|
    ensures forall i :: RunStart(s, n) <= i < n ==> !IsWhitespace(s[i])
    ensures RunStart(s, n) > 0 ==> IsWhitespace(s[RunStart(s, n) - 1])
    decreases n
  {
    if n > 0 && !IsWhitespace(s[n - 1]) {
      RunStartFacts(s, n - 1);
    }
  }

  /** The run start is the only index with those two properties. */
  lemma RunStartIs(s: string, n: nat, k: nat)
    requires k <= n <= |s|
    requires forall i :: k <= i < n ==> !IsWhitespace(s[i])
    requires k == 0 || IsWhitespace(s[k - 1])
    ensures RunStart(s, n) == k
  {
    RunStartFacts(s, n);
  }

  /** The longest suffix of `s` that holds no whitespace. */
  function TrailingRun(s: string): (t: string)
    ensures |t| <= |s| && t == s[|s| - |t|..]
    ensures forall i :: 0 <= i < |t| ==> !IsWhitespace(t[i])
    ensures |t| < |s| ==> IsWhitespace(s[|s| - |t| - 1])
  {
    RunStartFacts(s, |s|);
    s[RunStart(s, |s|)..]
  }

  /** `s.split_whitespace().last()`. */
  function LastToken(s: string): (r: Option<string>)
    ensures r.Some? ==> |r.value| > 0 && forall i :: 0 <= i < |r.value| ==> !IsWhitespace(r.value[i])
    ensures r.None? <==> forall i :: 0 <= i < |s| ==> IsWhitespace(s[i])
  {
    var t := TrimEnd(s);
    if t == "" then None else Some(TrailingRun(t))
  }

  /** The token really is the last one: it is followed only by whitespace and
      preceded by whitespace or by nothing. */
  lemma LastTokenPlacement(s: string) returns (k: nat)
    requires LastToken(s).Some?
    ensures var tok := LastToken(s).value;
      k + |tok| <= |s| && s[k..k + |tok|] == tok
      && (k == 0 || IsWhitespace(s[k - 1]))
      && forall i :: k + |tok| <= i < |s| ==> IsWhitespace(s[i])
  {
    var t := TrimEnd(s);
    var tok := TrailingRun(t);
    k := |t| - |tok|;
    assert s[k..k + |tok|] == t[k..];
    assert k > 0 ==> IsWhitespace(t[k - 1]);
  }
}
