/** Metric glue of the benchmark harness (`metrics.rs`): the file-size ratio
    and the extraction of scores from the Butteraugli and SSIMULACRA2 tools'
    output. The tools themselves are not modelled; their classified result
    (see `Docker.ExecuteInContainer`) is a parameter. Floating-point
    division is modelled over the reals.
 */
module Metrics {
  import opened Wrappers
  import opened Text

  /** `file_size_ratio`: `comp / orig` for "orig", `orig / comp` for "comp",
      0.0 when the chosen denominator is zero, and a panic for any other
      denominator name. */
  function FileSizeRatio(orig: nat, comp: nat, denom: string): (r: Outcome<real>)
    ensures r.Value? <==> denom == "orig" || denom == "comp"
    ensures denom == "orig" ==> r == Value(if orig == 0 then 0.0 else comp as real / orig as real)
    ensures denom == "comp" ==> r == Value(if comp == 0 then 0.0 else orig as real / comp as real)
  {
    if (orig == 0 && denom == "orig") || (comp == 0 && denom == "comp") then Value(0.0)
    else if denom == "orig" then Value(comp as real / orig as real)
    else if denom == "comp" then Value(orig as real / comp as real)
    else Panic("Invalid denominator for file size ratio")
  }

  /** The two ratios of non-empty files are reciprocal. */
  lemma FileSizeRatioReciprocal(orig: nat, comp: nat)
    requires orig > 0 && comp > 0
    ensures FileSizeRatio(orig, comp, "orig").value * FileSizeRatio(orig, comp, "comp").value == 1.0
  {
    var a := orig as real;
    var b := comp as real;
    assert (b / a) * (a / b) == (b * a) / (a * b);
  }

  /** Empty files give 0.0 for either denominator (the zero cases of the
      harness's test of this function). */
  lemma FileSizeRatioEmptyFiles()
    ensures FileSizeRatio(0, 0, "orig") == Value(0.0)
    ensures FileSizeRatio(0, 0, "comp") == Value(0.0)
  {
  }

  /** The ratio depends only on the proportion of the two sizes, which is
      why each row of the test's expected tables is a multiple of another. */
  lemma {:induction false} FileSizeRatioScaleInvariant(orig: nat, comp: nat, k: nat, denom: string)
    requires k > 0
    ensures FileSizeRatio(k * orig, k * comp, denom) == FileSizeRatio(orig, comp, denom)
  {
    var (a, b, c) := (orig as real, comp as real, k as real);
    if orig > 0 {
      assert (c * b) / (c * a) == b / a;
      assert (k * orig) as real == c * a && (k * comp) as real == c * b;
    }
    if comp > 0 {
      assert (c * a) / (c * b) == a / b;
      assert (k * orig) as real == c * a && (k * comp) as real == c * b;
    }
  }

  /** `s.parse::<f64>().unwrap_or(0.0)`. */
  function ParseOrZero(s: string): (v: real)
    ensures ParseDecimal(s).Some? ==> v == ParseDecimal(s).value
    ensures ParseDecimal(s).None? ==> v == 0.0
  {
    match ParseDecimal(s)
    case Some(x) => x
    case None => 0.0
  }

  datatype ButteraugliScore = ButteraugliScore(distance: real, pnorm: real)

  /** `calculate_butteraugli`: the tool signals success through a failing
      exit status, so its output is taken from the `Err` side, and a
      successful exit panics. The distance is the first line (0.0 when it is
      not a number, as when a libpng warning comes first); the p-norm is the
      last whitespace-separated token of the last line (0.0 when it is not
      a number). */
  function Butteraugli(result: Result<Result<string, string>, string>): (r: Outcome<ButteraugliScore>)
    ensures r.Value? <==> result.Ok? && result.value.Err? && ButteraugliReport(result.value.error).Value?
    ensures r.Value? ==> r == ButteraugliReport(result.value.error)
  {
    if result.Err? then Panic("called `Result::unwrap()` on an `Err` value")
    else if result.value.Ok? then Panic("called `Result::unwrap_err()` on an `Ok` value")
    else ButteraugliReport(result.value.error)
  }

  /** The scores in the tool's report `stderr`: there must be a line and
      the last line must have a token. */
  function ButteraugliReport(stderr: string): (r: Outcome<ButteraugliScore>)
    ensures r.Value? <==> Lines(stderr) != [] && LastToken(Lines(stderr)[|Lines(stderr)| - 1]).Some?
    ensures r.Value? ==>
      var lines := Lines(stderr);
      r.value.distance == ParseOrZero(lines[0])
      && r.value.pnorm == ParseOrZero(LastToken(lines[|lines| - 1]).value)
  {
    var lines := Lines(stderr);
    if lines == [] then Panic("called `Option::unwrap()` on a `None` value")
    else match LastToken(lines[|lines| - 1])
      case None => Panic("called `Option::unwrap()` on a `None` value")
      case Some(tok) => Value(ButteraugliScore(ParseOrZero(lines[0]), ParseOrZero(tok)))
  }

  /** `calculate_ssimulacra2`: the tool must exit successfully and print a
      number on its first line; anything else panics. */
  function Ssimulacra2(result: Result<Result<string, string>, string>): (r: Outcome<real>)
    ensures r.Value? <==>
      result.Ok? && result.value.Ok? && Lines(result.value.value) != []
      && ParseDecimal(Lines(result.value.value)[0]).Some?
    ensures r.Value? ==> r.value == ParseDecimal(Lines(result.value.value)[0]).value
  {
    if result.Err? then Panic("called `Result::unwrap()` on an `Err` value")
    else if result.value.Err? then Panic("called `Result::unwrap()` on an `Err` value")
    else
      var lines := Lines(result.value.value);
      if lines == [] then Panic("called `Option::unwrap()` on a `None` value")
      else match ParseDecimal(lines[0])
        case None => Panic("called `Result::unwrap()` on an `Err` value")
        case Some(v) => Value(v)
  }

  // ---------------------------------------------------------------------
  // The tools' usual output

  predicate NoWhitespace(s: string) { forall i :: 0 <= i < |s| ==> !IsWhitespace(s[i]) }

  lemma TrailingRunOfToken(a: string, tok: string)
    requires NoWhitespace(tok)
    requires a == "" || IsWhitespace(a[|a| - 1])
    ensures TrailingRun(a + tok) == tok
  {
    var t := a + tok;
    assert forall i :: |a| <= i < |t| ==> t[i] == tok[i - |a|];
    RunStartIs(t, |t|, |a|);
    assert t[|a|..] == tok;
  }

  /** The last token of `a` followed by a token is that token. */
  lemma LastTokenOfSuffix(a: string, tok: string)
    requires tok != "" && NoWhitespace(tok)
    requires a == "" || IsWhitespace(a[|a| - 1])
    ensures LastToken(a + tok) == Some(tok)
  {
    TrailingRunOfToken(a, tok);
  }

  /** A line holds no line break. */
  predicate SingleLine(s: string) { '\n' !in s && (s == "" || s[|s| - 1] != '\r') }

  lemma {:induction false} LinesOfTwoLines(first: string, second: string)
    requires SingleLine(first) && SingleLine(second) && second != ""
    ensures Lines(first + "\n" + second + "\n") == [first, second]
  {
    var s := first + "\n" + second + "\n";
    assert s == first + ['\n'] + (second + ['\n'] + "");
    SplitConcat(first, second + ['\n'] + "", '\n');
    SplitConcat(second, "", '\n');
    SplitNoSeparator(first, '\n');
    SplitNoSeparator(second, '\n');
    assert Split("", '\n') == [""];
    assert Split(s, '\n') == [first, second, ""];
  }

  /** For Butteraugli's usual report, a distance line followed by a
      "3-norm: <p>" line, both numbers are read. */
  lemma ButteraugliUsualReport(distance: string, pnorm: string)
    requires SingleLine(distance) && pnorm != "" && NoWhitespace(pnorm) && SingleLine(pnorm)
    requires ParseDecimal(distance).Some? && ParseDecimal(pnorm).Some?
    ensures Butteraugli(Ok(Err(distance + "\n3-norm: " + pnorm + "\n")))
      == Value(ButteraugliScore(ParseDecimal(distance).value, ParseDecimal(pnorm).value))
  {
    var second := "3-norm: " + pnorm;
    assert SingleLine(second) by {
      assert second[|second| - 1] == pnorm[|pnorm| - 1];
      assert forall i :: 0 <= i < |pnorm| ==> second[8 + i] == pnorm[i];
    }
    assert distance + "\n3-norm: " + pnorm + "\n" == distance + "\n" + second + "\n";
    LinesOfTwoLines(distance, second);
    LastTokenOfSuffix("3-norm: ", pnorm);
  }

  /** A warning on the first line leaves the distance at 0.0 but still reads
      the p-norm. */
  lemma ButteraugliWarningFirst(warning: string, pnorm: string)
    requires SingleLine(warning) && ParseDecimal(warning).None?
    requires pnorm != "" && NoWhitespace(pnorm) && SingleLine(pnorm)
    ensures Butteraugli(Ok(Err(warning + "\n3-norm: " + pnorm + "\n")))
      == Value(ButteraugliScore(0.0, ParseOrZero(pnorm)))
  {
    var second := "3-norm: " + pnorm;
    assert SingleLine(second) by {
      assert second[|second| - 1] == pnorm[|pnorm| - 1];
      assert forall i :: 0 <= i < |pnorm| ==> second[8 + i] == pnorm[i];
    }
    assert warning + "\n3-norm: " + pnorm + "\n" == warning + "\n" + second + "\n";
    LinesOfTwoLines(warning, second);
    LastTokenOfSuffix("3-norm: ", pnorm);
  }
}
