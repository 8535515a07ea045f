/** The comparison engine of the harness (`JXLCompressionBenchmark::
    compare_results` in `benchmark.rs`): two logs of per-image comparison
    results are sorted by original image name, checked to describe the
    same images and settings row by row, and turned into one row of
    differences per image plus a summary row holding the mean difference.
    Reading and writing the CSV files is not modelled; the logs are
    sequences. Floating-point arithmetic is modelled over the reals.
 */
module Comparison {
  import opened Wrappers

  /** One row of a `comparisons.csv` log. */
  datatype ComparisonResult = ComparisonResult(
    origImageName: string, compImageName: string, distance: real, effort: nat,
    origFileSize: nat, compFileSize: nat, origRawSize: nat, compRawSize: nat,
    compFileSizeRatio: real, rawFileSizeRatio: real,
    mse: real, psnr: real, ssim: real, msSsim: real,
    butteraugli: real, butteraugliPnorm: real, ssimulacra2: real)

  /** One row of the differences log. */
  datatype ComparisonDiff = ComparisonDiff(
    origImageName: string, compImageName: string, distance: real, effort: nat,
    diffOrigFileSize: real, diffCompFileSize: real, diffOrigRawSize: real, diffCompRawSize: real,
    diffCompFileSizeRatio: real, diffRawFileSizeRatio: real,
    diffMse: real, diffPsnr: real, diffSsim: real, diffMsSsim: real,
    diffButteraugli: real, diffButteraugliPnorm: real, diffSsimulacra2: real)

  // ---------------------------------------------------------------------
  // The thirteen compared quantities as a vector

  const WIDTH := 13

  type Vec = v: seq<real> | |v| == WIDTH witness [0.0, 0.0, 0.0, 0.0, 0.0, 0.0, 0.0, 0.0, 0.0, 0.0, 0.0, 0.0, 0.0]

  /** The numeric fields of a result, sizes converted to reals. */
  function Measures(r: ComparisonResult): Vec {
    [r.origFileSize as real, r.compFileSize as real, r.origRawSize as real, r.compRawSize as real,
     r.compFileSizeRatio, r.rawFileSizeRatio, r.mse, r.psnr, r.ssim, r.msSsim,
     r.butteraugli, r.butteraugliPnorm, r.ssimulacra2]
  }

  /** The difference fields of a diff row, in the same order. */
  function Differences(d: ComparisonDiff): Vec {
    [d.diffOrigFileSize, d.diffCompFileSize, d.diffOrigRawSize, d.diffCompRawSize,
     d.diffCompFileSizeRatio, d.diffRawFileSizeRatio, d.diffMse, d.diffPsnr, d.diffSsim,
     d.diffMsSsim, d.diffButteraugli, d.diffButteraugliPnorm, d.diffSsimulacra2]
  }

  const Zero: Vec := [0.0, 0.0, 0.0, 0.0, 0.0, 0.0, 0.0, 0.0, 0.0, 0.0, 0.0, 0.0, 0.0]

  function Add(a: Vec, b: Vec): Vec { seq(WIDTH, k requires 0 <= k < WIDTH => a[k] + b[k]) }

  function Sub(a: Vec, b: Vec): Vec { seq(WIDTH, k requires 0 <= k < WIDTH => a[k] - b[k]) }

  function Scale(a: Vec, c: real): Vec
    requires c != 0.0
  {
    seq(WIDTH, k requires 0 <= k < WIDTH => a[k] / c)
  }

  // ---------------------------------------------------------------------
  // Ordering by original image name (`String::cmp`)

  /** Lexicographic order on strings by character code. */
  predicate NameLe(s: string, t: string)
    decreases |s|
  {
    s == "" || (t != "" && (s[0] < t[0] || (s[0] == t[0] && NameLe(s[1..], t[1..]))))
  }

  lemma {:induction false} NameLeReflexive(s: string)
    ensures NameLe(s, s)
    decreases |s|
  {
    if s != "" { NameLeReflexive(s[1..]); }
  }

  lemma {:induction false} NameLeTotal(s: string, t: string)
    ensures NameLe(s, t) || NameLe(t, s)
    decreases |s|
  {
    if s != "" && t != "" && s[0] == t[0] { NameLeTotal(s[1..], t[1..]); }
  }

  lemma {:induction false} NameLeAntisymmetric(s: string, t: string)
    requires NameLe(s, t) && NameLe(t, s)
    ensures s == t
    decreases |s|
  {
    if s != "" {
      NameLeAntisymmetric(s[1..], t[1..]);
      assert s == [s[0]] + s[1..] && t == [t[0]] + t[1..];
    }
  }

  predicate SortedByName(rs: seq<ComparisonResult>) {
    forall i :: 0 < i < |rs| ==> NameLe(rs[i - 1].origImageName, rs[i].origImageName)
  }

  /** The rows with a given original image name, in order. */
  function WithName(rs: seq<ComparisonResult>, name: string): seq<ComparisonResult>
    decreases |rs|
  {
    if |rs| == 0 then []
    else
      var last := rs[|rs| - 1];
      WithName(rs[..|rs| - 1], name) + (if last.origImageName == name then [last] else [])
  }

  /** Insert `x` after every row whose name is at most `x`'s. */
  function Insert(s: seq<ComparisonResult>, x: ComparisonResult): (r: seq<ComparisonResult>)
    ensures |r| == |s| + 1
    ensures r[|r| - 1] == x || (|s| > 0 && r[|r| - 1] == s[|s| - 1])
    decreases |s|
  {
    if |s| == 0 then [x]
    else if NameLe(s[|s| - 1].origImageName, x.origImageName) then s + [x]
    else Insert(s[..|s| - 1], x) + [s[|s| - 1]]
  }

  /** A stable sort by original image name (`sort_by` on `orig_image_name`). */
  function SortByName(rs: seq<ComparisonResult>): (r: seq<ComparisonResult>)
    ensures |r| == |rs|
    decreases |rs|
  {
    if |rs| == 0 then [] else Insert(SortByName(rs[..|rs| - 1]), rs[|rs| - 1])
  }

  lemma {:induction false} InsertSorted(s: seq<ComparisonResult>, x: ComparisonResult)
    requires SortedByName(s)
    ensures SortedByName(Insert(s, x))
    decreases |s|
  {
    if |s| > 0 && !NameLe(s[|s| - 1].origImageName, x.origImageName) {
      var init := s[..|s| - 1];
      InsertSorted(init, x);
      var ins := Insert(init, x);
      NameLeTotal(s[|s| - 1].origImageName, x.origImageName);
      assert NameLe(ins[|ins| - 1].origImageName, s[|s| - 1].origImageName);
    }
  }

  lemma {:induction false} InsertMultiset(s: seq<ComparisonResult>, x: ComparisonResult)
    ensures multiset(Insert(s, x)) == multiset(s) + multiset{x}
    decreases |s|
  {
    if |s| > 0 && !NameLe(s[|s| - 1].origImageName, x.origImageName) {
      InsertMultiset(s[..|s| - 1], x);
      assert s == s[..|s| - 1] + [s[|s| - 1]];
    }
  }

  lemma {:induction false} WithNameAppend(s: seq<ComparisonResult>, x: ComparisonResult, name: string)
    ensures WithName(s + [x], name) == WithName(s, name) + (if x.origImageName == name then [x] else [])
  {
    assert (s + [x])[..|s|] == s;
  }

  lemma {:induction false} InsertStable(s: seq<ComparisonResult>, x: ComparisonResult, name: string)
    ensures WithName(Insert(s, x), name) == WithName(s, name) + (if x.origImageName == name then [x] else [])
    decreases |s|
  {
    if |s| == 0 {
      assert Insert(s, x) == [] + [x];
      WithNameAppend([], x, name);
    } else if NameLe(s[|s| - 1].origImageName, x.origImageName) {
      WithNameAppend(s, x, name);
    } else {
      var init, last := s[..|s| - 1], s[|s| - 1];
      var ins := Insert(init, x);
      assert Insert(s, x) == ins + [last];
      InsertStable(init, x, name);
      WithNameAppend(ins, last, name);
      assert s == init + [last];
      WithNameAppend(init, last, name);
      if x.origImageName == name && last.origImageName == name {
        NameLeReflexive(name);
      } else {
        var xs := if x.origImageName == name then [x] else [];
        var ls := if last.origImageName == name then [last] else [];
        assert xs + ls == ls + xs;
        assert WithName(init, name) + xs + ls == WithName(init, name) + ls + xs;
      }
    }
  }

  /** The sort orders the rows by name, keeps every row, and keeps rows of
      equal name in their original order (it is stable). */
  lemma {:induction false} SortByNameCorrect(rs: seq<ComparisonResult>, name: string)
    ensures SortedByName(SortByName(rs))
    ensures multiset(SortByName(rs)) == multiset(rs)
    ensures WithName(SortByName(rs), name) == WithName(rs, name)
    decreases |rs|
  {
    if |rs| > 0 {
      var init, last := rs[..|rs| - 1], rs[|rs| - 1];
      SortByNameCorrect(init, name);
      InsertSorted(SortByName(init), last);
      InsertMultiset(SortByName(init), last);
      InsertStable(SortByName(init), last, name);
      assert rs == init + [last];
    }
  }

  // ---------------------------------------------------------------------
  // Differences and the summary

  /** Row `a` and row `b` describe the same image at the same settings. */
  predicate SameIdentity(a: ComparisonResult, b: ComparisonResult) {
    a.origImageName == b.origImageName && a.compImageName == b.compImageName
    && a.distance == b.distance && a.effort == b.effort
  }

  predicate Aligned(a: seq<ComparisonResult>, b: seq<ComparisonResult>) {
    |a| == |b| && forall i :: 0 <= i < |a| ==> SameIdentity(a[i], b[i])
  }

  /** The diff row of one image: `b - a` for every quantity, identity from `a`. */
  function DiffOf(a: ComparisonResult, b: ComparisonResult): (d: ComparisonDiff)
    ensures Differences(d) == Sub(Measures(b), Measures(a))
    ensures d.origImageName == a.origImageName && d.compImageName == a.compImageName
    ensures d.distance == a.distance && d.effort == a.effort
  {
    ComparisonDiff(a.origImageName, a.compImageName, a.distance, a.effort,
      b.origFileSize as real - a.origFileSize as real, b.compFileSize as real - a.compFileSize as real,
      b.origRawSize as real - a.origRawSize as real, b.compRawSize as real - a.compRawSize as real,
      b.compFileSizeRatio - a.compFileSizeRatio, b.rawFileSizeRatio - a.rawFileSizeRatio,
      b.mse - a.mse, b.psnr - a.psnr, b.ssim - a.ssim, b.msSsim - a.msSsim,
      b.butteraugli - a.butteraugli, b.butteraugliPnorm - a.butteraugliPnorm,
      b.ssimulacra2 - a.ssimulacra2)
  }

  function SumDifferences(ds: seq<ComparisonDiff>): Vec
    decreases |ds|
  {
    if |ds| == 0 then Zero else Add(SumDifferences(ds[..|ds| - 1]), Differences(ds[|ds| - 1]))
  }

  function SumMeasures(rs: seq<ComparisonResult>): Vec
    decreases |rs|
  {
    if |rs| == 0 then Zero else Add(SumMeasures(rs[..|rs| - 1]), Measures(rs[|rs| - 1]))
  }

  /** The mean difference vector; there is none for an empty log (the
      harness divides 0.0 by 0 and writes NaN). */
  function MeanDifferences(ds: seq<ComparisonDiff>): Option<Vec> {
    if |ds| == 0 then None else Some(Scale(SumDifferences(ds), |ds| as real))
  }

  datatype Report = Report(diffs: seq<ComparisonDiff>, summary: Option<ComparisonDiff>)

  /** The summary row's fixed identity. */
  predicate SummaryIdentity(s: ComparisonDiff) {
    s.origImageName == "Summary" && s.compImageName == "Summary" && s.distance == 0.0 && s.effort == 0
  }

  /** `summary.f += d.f` for every difference field. */
  function Accumulate(s: ComparisonDiff, d: ComparisonDiff): (r: ComparisonDiff)
    ensures Differences(r) == Add(Differences(s), Differences(d))
    ensures SummaryIdentity(s) ==> SummaryIdentity(r)
  {
    s.(diffOrigFileSize := s.diffOrigFileSize + d.diffOrigFileSize,
       diffCompFileSize := s.diffCompFileSize + d.diffCompFileSize,
       diffOrigRawSize := s.diffOrigRawSize + d.diffOrigRawSize,
       diffCompRawSize := s.diffCompRawSize + d.diffCompRawSize,
       diffCompFileSizeRatio := s.diffCompFileSizeRatio + d.diffCompFileSizeRatio,
       diffRawFileSizeRatio := s.diffRawFileSizeRatio + d.diffRawFileSizeRatio,
       diffMse := s.diffMse + d.diffMse,
       diffPsnr := s.diffPsnr + d.diffPsnr,
       diffSsim := s.diffSsim + d.diffSsim,
       diffMsSsim := s.diffMsSsim + d.diffMsSsim,
       diffButteraugli := s.diffButteraugli + d.diffButteraugli,
       diffButteraugliPnorm := s.diffButteraugliPnorm + d.diffButteraugliPnorm,
       diffSsimulacra2 := s.diffSsimulacra2 + d.diffSsimulacra2)
  }

  /** `summary.f /= n` for every difference field. */
  function Divide(s: ComparisonDiff, n: real): (r: ComparisonDiff)
    requires n != 0.0
    ensures Differences(r) == Scale(Differences(s), n)
    ensures SummaryIdentity(s) ==> SummaryIdentity(r)
  {
    s.(diffOrigFileSize := s.diffOrigFileSize / n,
       diffCompFileSize := s.diffCompFileSize / n,
       diffOrigRawSize := s.diffOrigRawSize / n,
       diffCompRawSize := s.diffCompRawSize / n,
       diffCompFileSizeRatio := s.diffCompFileSizeRatio / n,
       diffRawFileSizeRatio := s.diffRawFileSizeRatio / n,
       diffMse := s.diffMse / n,
       diffPsnr := s.diffPsnr / n,
       diffSsim := s.diffSsim / n,
       diffMsSsim := s.diffMsSsim / n,
       diffButteraugli := s.diffButteraugli / n,
       diffButteraugliPnorm := s.diffButteraugliPnorm / n,
       diffSsimulacra2 := s.diffSsimulacra2 / n)
  }

  const EmptySummary := ComparisonDiff("Summary", "Summary", 0.0, 0,
    0.0, 0.0, 0.0, 0.0, 0.0, 0.0, 0.0, 0.0, 0.0, 0.0, 0.0, 0.0, 0.0)

  /** The checking loop of `compare_results`: it panics at the first index
      whose identity fields differ, and otherwise yields one diff row per
      index. */
  method DiffRows(a: seq<ComparisonResult>, b: seq<ComparisonResult>) returns (r: Outcome<seq<ComparisonDiff>>)
    requires |a| == |b|
    ensures r.Value? <==> Aligned(a, b)
    ensures r.Value? ==> |r.value| == |a| && forall i :: 0 <= i < |a| ==> r.value[i] == DiffOf(a[i], b[i])
  {
    var diffs: seq<ComparisonDiff> := [];
    var i := 0;
    while i < |a|
      invariant 0 <= i <= |a|
      invariant forall j :: 0 <= j < i ==> SameIdentity(a[j], b[j])
      invariant |diffs| == i && forall j :: 0 <= j < i ==> diffs[j] == DiffOf(a[j], b[j])
    {
      if !SameIdentity(a[i], b[i]) {
        return Panic("assertion failed: identity fields differ");
      }
      diffs := diffs + [DiffOf(a[i], b[i])];
      i := i + 1;
    }
    r := Value(diffs);
  }

  /** The summary loop of `compare_results`: sum every field, then divide
      by the number of rows. */
  method Summarize(diffs: seq<ComparisonDiff>) returns (summary: Option<ComparisonDiff>)
    ensures summary.None? <==> MeanDifferences(diffs).None?
    ensures summary.Some? ==>
      SummaryIdentity(summary.value) && Some(Differences(summary.value)) == MeanDifferences(diffs)
  {
    var sum := EmptySummary;
    var k := 0;
    while k < |diffs|
      invariant 0 <= k <= |diffs|
      invariant SummaryIdentity(sum)
      invariant Differences(sum) == SumDifferences(diffs[..k])
    {
      assert diffs[..k + 1][..k] == diffs[..k];
      sum := Accumulate(sum, diffs[k]);
      k := k + 1;
    }
    assert diffs[..|diffs|] == diffs;
    if |diffs| == 0 {
      return None;
    }
    summary := Some(Divide(sum, |diffs| as real));
  }

  /** The report of two logs: the sorted logs are aligned, every diff row
      is the second log's row minus the first's at the same index, and the
      summary is the mean of the diff rows (absent for empty logs). */
  predicate ReportOf(results1: seq<ComparisonResult>, results2: seq<ComparisonResult>, rep: Report) {
    var (a, b) := (SortByName(results1), SortByName(results2));
    Aligned(a, b) && |rep.diffs| == |a|
    && (forall i :: 0 <= i < |a| ==> rep.diffs[i] == DiffOf(a[i], b[i]))
    && (rep.summary.None? <==> MeanDifferences(rep.diffs).None?)
    && (rep.summary.Some? ==>
          SummaryIdentity(rep.summary.value) && Some(Differences(rep.summary.value)) == MeanDifferences(rep.diffs))
  }

  /** `compare_results` on two logs already read into memory. It panics when
      the sorted logs differ in length or in an identity field at some
      index; otherwise every diff row is `b - a` with `a`'s identity, and
      the summary is the mean of the diffs. */
  method CompareResults(results1: seq<ComparisonResult>, results2: seq<ComparisonResult>)
    returns (r: Outcome<Report>)
    ensures r.Value? <==> Aligned(SortByName(results1), SortByName(results2))
    ensures r.Value? ==> ReportOf(results1, results2, r.value)
  {
    var a := SortByName(results1);
    var b := SortByName(results2);
    if |a| != |b| {
      return Panic("assertion failed: comparison_results_1.len() == comparison_results_2.len()");
    }
    var diffs := DiffRows(a, b);
    if diffs.Panic? {
      return Panic(diffs.reason);
    }
    var summary := Summarize(diffs.value);
    r := Value(Report(diffs.value, summary));
  }

  /** Summing the diff rows gives the difference of the summed logs, so the
      summary row is the mean of the second log minus the mean of the first. */
  lemma {:induction false} SumOfDiffs(a: seq<ComparisonResult>, b: seq<ComparisonResult>, ds: seq<ComparisonDiff>)
    requires |a| == |b| == |ds|
    requires forall i :: 0 <= i < |ds| ==> ds[i] == DiffOf(a[i], b[i])
    ensures SumDifferences(ds) == Sub(SumMeasures(b), SumMeasures(a))
    decreases |ds|
  {
    if |ds| > 0 {
      var n := |ds| - 1;
      assert forall i :: 0 <= i < n ==> ds[..n][i] == DiffOf(a[..n][i], b[..n][i]);
      SumOfDiffs(a[..n], b[..n], ds[..n]);
      assert SumDifferences(ds) == Add(SumDifferences(ds[..n]), Differences(ds[n]));
      assert SumMeasures(a) == Add(SumMeasures(a[..n]), Measures(a[n]));
      assert SumMeasures(b) == Add(SumMeasures(b[..n]), Measures(b[n]));
      AddSubs(SumMeasures(b[..n]), SumMeasures(a[..n]), Measures(b[n]), Measures(a[n]));
    }
  }

  /** Differences add up coordinate by coordinate. */
  lemma AddSubs(x: Vec, y: Vec, u: Vec, v: Vec)
    ensures Add(Sub(x, y), Sub(u, v)) == Sub(Add(x, u), Add(y, v))
  {
    var lhs := Add(Sub(x, y), Sub(u, v));
    var rhs := Sub(Add(x, u), Add(y, v));
    forall k | 0 <= k < WIDTH ensures lhs[k] == rhs[k] {
    }
  }

  lemma MeanIsDifferenceOfMeans(a: seq<ComparisonResult>, b: seq<ComparisonResult>, ds: seq<ComparisonDiff>)
    requires |a| == |b| == |ds| > 0
    requires forall i :: 0 <= i < |ds| ==> ds[i] == DiffOf(a[i], b[i])
    ensures MeanDifferences(ds)
      == Some(Sub(Scale(SumMeasures(b), |b| as real), Scale(SumMeasures(a), |a| as real)))
  {
    SumOfDiffs(a, b, ds);
    ScaleDistributes(SumMeasures(b), SumMeasures(a), |ds| as real);
  }

  lemma ScaleDistributes(x: Vec, y: Vec, n: real)
    requires n != 0.0
    ensures Scale(Sub(x, y), n) == Sub(Scale(x, n), Scale(y, n))
  {
    var lhs := Scale(Sub(x, y), n);
    var rhs := Sub(Scale(x, n), Scale(y, n));
    forall k | 0 <= k < WIDTH ensures lhs[k] == rhs[k] {
      DivideDifference(x[k], y[k], n);
    }
  }

  lemma DivideDifference(x: real, y: real, n: real)
    requires n != 0.0
    ensures (x - y) / n == x / n - y / n
  {
  }
}
