/** The encoder sweep of `JXLCompressionBenchmark::run` (`benchmark.rs`):
    for one image, every distance of a fixed list (outer loop) with every
    effort from 5 to 9 (inner loop), each encoded to
    `<stem>-<distance>-<effort>.jxl`. The encoder runs and the metric
    collection are not modelled; the sweep is the sequence of encoder jobs
    it issues. Distances are the listed multiples of 0.1, kept in tenths
    together with the way they print.
 */
module Sweep {
  import opened Wrappers
  import opened Text
  import opened ImageReader
  import Docker

  /** The distances of the sweep, in tenths: 0.5, 1, 1.5, 2, then every
      whole number from 3 to 15. */
  const DISTANCE_COUNT: nat := 17

  function DistanceAt(i: nat): (tenths: nat)
    requires i < DISTANCE_COUNT
    ensures 5 <= tenths <= 150
  {
    if i < 4 then 5 * (i + 1) else 10 * (i - 1)
  }

  /** The formula gives the listed distances, in order. */
  lemma DistancesAsListed()
    ensures seq(DISTANCE_COUNT, i requires 0 <= i < DISTANCE_COUNT => DistanceAt(i))
      == [5, 10, 15, 20, 30, 40, 50, 60, 70, 80, 90, 100, 110, 120, 130, 140, 150]
  {
  }

  /** Later distances are larger. */
  lemma DistancesIncrease(i: nat, j: nat)
    requires i < j < DISTANCE_COUNT
    ensures DistanceAt(i) < DistanceAt(j)
  {
  }

  const MIN_EFFORT: nat := 5
  const MAX_EFFORT: nat := 9
  const EFFORT_COUNT: nat := MAX_EFFORT - MIN_EFFORT + 1

  /** How a distance of `tenths / 10` prints with `{}`: no fractional part
      for a whole number, one decimal otherwise. */
  function DistanceToken(tenths: nat): (tok: string)
    ensures tok != "" && '-' !in tok && '/' !in tok
  {
    NatToStringDigits(tenths / 10);
    var whole := NatToString(tenths / 10);
    assert '-' !in whole && '/' !in whole by { assert forall i :: 0 <= i < |whole| ==> IsDigit(whole[i]); }
    if tenths % 10 == 0 then whole else whole + "." + [DigitChar(tenths % 10)]
  }

  lemma {:induction false} DigitsHaveNoDot(s: string)
    requires AllDigits(s)
    ensures Split(s, '.') == [s]
  {
    assert '.' !in s by { assert forall i :: 0 <= i < |s| ==> IsDigit(s[i]); }
    SplitNoSeparator(s, '.');
  }

  /** The printed distance parses back to the distance. */
  lemma DistanceTokenParses(tenths: nat)
    ensures ParseDecimal(DistanceToken(tenths)) == Some(tenths as real / 10.0)
  {
    var q, r := tenths / 10, tenths % 10;
    NatToStringDigits(q);
    var whole := NatToString(q);
    assert IsDigit(whole[0]);
    DigitsHaveNoDot(whole);
    if r == 0 {
      assert DistanceToken(tenths) == whole;
      assert ParseUnsignedDecimal(whole) == Some(q as real);
    } else {
      var frac := [DigitChar(r)];
      var tok := whole + "." + frac;
      assert DistanceToken(tenths) == tok;
      assert tok == whole + ['.'] + frac;
      assert tok[0] == whole[0];
      SplitConcat(whole, frac, '.');
      DigitsHaveNoDot(frac);
      assert Split(tok, '.') == [whole, frac];
      assert FractionValue(frac) == r as real / 10.0 by {
        assert frac[1..] == "";
      }
      assert ParseUnsignedDecimal(tok) == Some(q as real + r as real / 10.0);
    }
  }

  /** Different distances print differently. */
  lemma DistanceTokenInjective(s: nat, t: nat)
    requires DistanceToken(s) == DistanceToken(t)
    ensures s == t
  {
    DistanceTokenParses(s);
    DistanceTokenParses(t);
  }

  /** The image name without its extension: everything before the first '.'. */
  function Stem(fileName: string): (stem: string)
    ensures '.' !in stem
    ensures |stem| <= |fileName| && stem == fileName[..|stem|]
  {
    StemIsPrefix(fileName);
    Split(fileName, '.')[0]
  }

  lemma {:induction false} StemIsPrefix(s: string)
    ensures '.' !in Split(s, '.')[0]
    ensures |Split(s, '.')[0]| <= |s| && Split(s, '.')[0] == s[..|Split(s, '.')[0]|]
    decreases |s|
  {
    if |s| > 0 && s[0] != '.' {
      StemIsPrefix(s[1..]);
      assert Split(s, '.')[0] == [s[0]] + Split(s[1..], '.')[0];
    }
  }

  /** The name of the compressed image for one grid point. */
  function CompImageName(stem: string, distance: string, effort: nat): string {
    stem + "-" + distance + "-" + NatToString(effort) + "." + FormatName(JpegXl).value
  }

  /** One encoder job of the sweep. */
  datatype EncodeJob = EncodeJob(compImageName: string, distanceTenths: nat, effort: nat)

  /** The encoder arguments of a job on `input`. */
  function JobArgs(input: string, job: EncodeJob): seq<string> {
    Docker.CjxlArgs(input, job.compImageName, DistanceToken(job.distanceTenths), job.effort)
  }

  /** The job one iteration issues: encode at `distance` tenths and
      `effort` into the name for that grid point. */
  function Job(stem: string, distance: nat, effort: nat): EncodeJob {
    EncodeJob(CompImageName(stem, DistanceToken(distance), effort), distance, effort)
  }

  /** The job issued for grid point `k`, counting distance-major. */
  function GridJob(stem: string, k: nat): EncodeJob
    requires k < DISTANCE_COUNT * EFFORT_COUNT
  {
    Job(stem, DistanceAt(k / EFFORT_COUNT), MIN_EFFORT + k % EFFORT_COUNT)
  }

  lemma GridJobAt(stem: string, di: nat, effort: nat)
    requires di < DISTANCE_COUNT && MIN_EFFORT <= effort <= MAX_EFFORT
    ensures di * EFFORT_COUNT + (effort - MIN_EFFORT) < DISTANCE_COUNT * EFFORT_COUNT
    ensures Job(stem, DistanceAt(di), effort) == GridJob(stem, di * EFFORT_COUNT + (effort - MIN_EFFORT))
  {
    var k := di * EFFORT_COUNT + (effort - MIN_EFFORT);
    GridIndex(di, effort - MIN_EFFORT);
    assert DistanceAt(k / EFFORT_COUNT) == DistanceAt(di);
  }

  lemma GridIndex(di: nat, j: nat)
    requires j < EFFORT_COUNT
    ensures (di * EFFORT_COUNT + j) / EFFORT_COUNT == di && (di * EFFORT_COUNT + j) % EFFORT_COUNT == j
  {
  }

  /** The first `n` jobs of the grid, in order. */
  function GridJobs(stem: string, n: nat): seq<EncodeJob>
    requires n <= DISTANCE_COUNT * EFFORT_COUNT
  {
    if n == 0 then [] else GridJobs(stem, n - 1) + [GridJob(stem, n - 1)]
  }

  lemma {:induction false} GridJobsIndex(stem: string, n: nat)
    requires n <= DISTANCE_COUNT * EFFORT_COUNT
    ensures |GridJobs(stem, n)| == n
    ensures forall k :: 0 <= k < n ==> GridJobs(stem, n)[k] == GridJob(stem, k)
  {
    if n > 0 {
      GridJobsIndex(stem, n - 1);
    }
  }

  /** The inner loop of `JXLCompressionBenchmark::run`: every effort in
      turn at distance number `di`. */
  method SweepEfforts(stem: string, di: nat, jobs0: seq<EncodeJob>) returns (jobs: seq<EncodeJob>)
    requires di < DISTANCE_COUNT && jobs0 == GridJobs(stem, di * EFFORT_COUNT)
    ensures jobs == GridJobs(stem, (di + 1) * EFFORT_COUNT)
  {
    jobs := jobs0;
    var distance := DistanceAt(di);
    ghost var n := di * EFFORT_COUNT;
    var effort := MIN_EFFORT;
    while effort <= MAX_EFFORT
      invariant MIN_EFFORT <= effort <= MAX_EFFORT + 1 && n == di * EFFORT_COUNT + (effort - MIN_EFFORT)
      invariant jobs == GridJobs(stem, n)
    {
      GridJobsStep(stem, di, effort, n, jobs);
      jobs := jobs + [Job(stem, distance, effort)];
      effort := effort + 1;
      n := n + 1;
    }
    assert n == (di + 1) * EFFORT_COUNT;
  }

  lemma GridJobsStep(stem: string, di: nat, effort: nat, n: nat, jobs: seq<EncodeJob>)
    requires di < DISTANCE_COUNT && MIN_EFFORT <= effort <= MAX_EFFORT
    requires n == di * EFFORT_COUNT + (effort - MIN_EFFORT) && jobs == GridJobs(stem, n)
    ensures n < DISTANCE_COUNT * EFFORT_COUNT
    ensures jobs + [Job(stem, DistanceAt(di), effort)] == GridJobs(stem, n + 1)
  {
    GridJobAt(stem, di, effort);
  }

  /** The nested loops of `JXLCompressionBenchmark::run`: each distance in
      turn, and for each every effort in turn. */
  method SweepJobs(stem: string) returns (jobs: seq<EncodeJob>)
    ensures |jobs| == DISTANCE_COUNT * EFFORT_COUNT
    ensures forall k :: 0 <= k < |jobs| ==> jobs[k] == GridJob(stem, k)
  {
    jobs := [];
    var di := 0;
    while di < DISTANCE_COUNT
      invariant 0 <= di <= DISTANCE_COUNT
      invariant jobs == GridJobs(stem, di * EFFORT_COUNT)
    {
      jobs := SweepEfforts(stem, di, jobs);
      di := di + 1;
    }
    GridJobsIndex(stem, DISTANCE_COUNT * EFFORT_COUNT);
  }

  /** The file-name parse of `read_jxl` inverts the naming of the sweep:
      the origin (with any '-' inside it), the distance and the effort all
      come back. */
  lemma {:induction false} CompImageNameParses(stem: string, distance: string, effort: nat)
    requires '-' !in distance && effort <= U32_MAX
    ensures ParseJxlFileName(CompImageName(stem, distance, effort))
      == Value(Provenance(Some(stem), ParseDecimal(distance), Some(effort)))
  {
    var last := NatToString(effort) + ".jxl";
    EffortPart(effort);
    var name := CompImageName(stem, distance, effort);
    assert name == stem + ['-'] + (distance + ['-'] + last);
    DashedSplit(stem, distance, last);
    var parts := Split(stem, '-') + [distance, last];
    var n := |parts|;
    assert parts[..n - 2] == Split(stem, '-');
    JoinSplit(stem, '-');
    ParseUnsignedNatToString(effort, U32_MAX);
  }

  /** The last '-'-part of a compressed image's name holds the effort
      before its first '.'. */
  lemma EffortPart(effort: nat)
    ensures '-' !in NatToString(effort) + ".jxl"
    ensures Split(NatToString(effort) + ".jxl", '.')[0] == NatToString(effort)
  {
    var e := NatToString(effort);
    NatToStringDigits(effort);
    assert '-' !in e && '.' !in e by { assert forall i :: 0 <= i < |e| ==> IsDigit(e[i]); }
    var last := e + ".jxl";
    assert '-' !in last by {
      forall i | 0 <= i < |last| ensures last[i] != '-' { if i < |e| { assert last[i] == e[i]; } }
    }
    assert last == e + ['.'] + "jxl";
    SplitConcat(e, "jxl", '.');
    SplitNoSeparator(e, '.');
  }

  /** Two '-'-free pieces after a third string and a '-' each are its last
      two parts. */
  lemma DashedSplit(stem: string, distance: string, last: string)
    requires '-' !in distance && '-' !in last
    ensures Split(stem + ['-'] + (distance + ['-'] + last), '-') == Split(stem, '-') + [distance, last]
  {
    SplitConcat(stem, distance + ['-'] + last, '-');
    SplitConcat(distance, last, '-');
    SplitNoSeparator(distance, '-');
    SplitNoSeparator(last, '-');
  }

  /** The front of a compressed image's name, before ".jxl", holds no '/'
      when the stem and the distance do not. */
  lemma {:induction false} CompImageNamePlain(stem: string, distance: string, effort: nat)
    requires '/' !in stem && '/' !in distance
    ensures CompImageName(stem, distance, effort)
      == (stem + "-" + distance + "-" + NatToString(effort)) + "." + "jxl"
    ensures '/' !in stem + "-" + distance + "-" + NatToString(effort)
    ensures PlainName(CompImageName(stem, distance, effort))
  {
    var e := NatToString(effort);
    NatToStringDigits(effort);
    assert '/' !in e by { assert forall i :: 0 <= i < |e| ==> IsDigit(e[i]); }
    var front := stem + "-" + distance + "-" + e;
    assert front == stem + ("-" + distance + "-" + e);
    assert '/' !in front;
    var name := CompImageName(stem, distance, effort);
    assert FormatName(JpegXl).value == "jxl";
    assert name == front + ".jxl";
    assert '/' !in name;
  }

  /** Reading a compressed output of the sweep back from its directory
      recovers the image it came from, the distance and the effort. */
  lemma CompImageNameProvenance(dir: string, stem: string, distance: string, effort: nat)
    requires '/' !in stem && '/' !in distance && '-' !in distance && effort <= U32_MAX
    ensures ReadProvenance(dir + "/" + CompImageName(stem, distance, effort))
      == Value(Provenance(Some(stem), ParseDecimal(distance), Some(effort)))
  {
    var front := stem + "-" + distance + "-" + NatToString(effort);
    CompImageNamePlain(stem, distance, effort);
    ExtensionInDirectory(dir, front, "jxl");
    assert dir + "/" + front + "." + "jxl" == dir + "/" + CompImageName(stem, distance, effort);
    FileNameInDirectory(dir, CompImageName(stem, distance, effort));
    CompImageNameParses(stem, distance, effort);
  }

  /** Each output of the sweep, read back, records its grid point. */
  lemma GridJobProvenance(dir: string, stem: string, k: nat)
    requires k < DISTANCE_COUNT * EFFORT_COUNT && '/' !in stem
    ensures var job := GridJob(stem, k);
      ReadProvenance(dir + "/" + job.compImageName)
        == Value(Provenance(Some(stem), Some(job.distanceTenths as real / 10.0), Some(job.effort)))
  {
    GridJobIsJob(stem, k);
    JobProvenance(dir, stem, GridJob(stem, k));
  }

  lemma GridJobIsJob(stem: string, k: nat)
    requires k < DISTANCE_COUNT * EFFORT_COUNT
    ensures var job := GridJob(stem, k);
      job == Job(stem, job.distanceTenths, job.effort) && job.effort <= MAX_EFFORT
  {
  }

  lemma JobProvenance(dir: string, stem: string, job: EncodeJob)
    requires job == Job(stem, job.distanceTenths, job.effort)
    requires job.effort <= U32_MAX && '/' !in stem
    ensures ReadProvenance(dir + "/" + job.compImageName)
      == Value(Provenance(Some(stem), Some(job.distanceTenths as real / 10.0), Some(job.effort)))
  {
    CompImageNameProvenance(dir, stem, DistanceToken(job.distanceTenths), job.effort);
    DistanceTokenParses(job.distanceTenths);
  }

  /** Two grid points differ in distance or in effort. */
  lemma GridPointsDiffer(k: nat, l: nat)
    requires k < l < DISTANCE_COUNT * EFFORT_COUNT
    ensures DistanceAt(k / EFFORT_COUNT) != DistanceAt(l / EFFORT_COUNT) || k % EFFORT_COUNT != l % EFFORT_COUNT
  {
    var a, b := k / EFFORT_COUNT, l / EFFORT_COUNT;
    if a == b {
      assert k % EFFORT_COUNT != l % EFFORT_COUNT;
    } else {
      assert a < b;
      DistancesIncrease(a, b);
    }
  }

  /** The 85 names of one image's sweep are pairwise distinct. */
  lemma GridNamesDistinct(stem: string, k: nat, l: nat)
    requires k < l < DISTANCE_COUNT * EFFORT_COUNT
    ensures GridJob(stem, k).compImageName != GridJob(stem, l).compImageName
  {
    var (jk, jl) := (GridJob(stem, k), GridJob(stem, l));
    CompImageNameParses(stem, DistanceToken(jk.distanceTenths), jk.effort);
    CompImageNameParses(stem, DistanceToken(jl.distanceTenths), jl.effort);
    DistanceTokenParses(jk.distanceTenths);
    DistanceTokenParses(jl.distanceTenths);
    GridPointsDiffer(k, l);
  }

  /** The encoder's `--distance=` argument is the distance as it appears in
      the output name, its output argument is that name, and its effort is
      one of the sweep's. */
  lemma GridJobArguments(input: string, stem: string, k: nat)
    requires k < DISTANCE_COUNT * EFFORT_COUNT
    ensures var job := GridJob(stem, k);
      var args := JobArgs(input, job);
      args[0] == input && args[1] == job.compImageName
      && args[2] == "--distance=" + DistanceToken(job.distanceTenths)
      && ParseU32(args[3][9..]) == Some(job.effort)
      && MIN_EFFORT <= job.effort <= MAX_EFFORT
  {
  }
}
