/** What the two Python benchmark scripts (`old_test_jxl.py` and
    `test_jxl.py`) share, word for word: the POSIX path functions they
    call, `int()` on directory names, the image glob, `Table` and its
    in-place row and column updates, run numbering and the pairwise image
    comparison. File-system state (directory listings, files that exist)
    comes in as parameters; shell commands are returned as the strings the
    scripts would hand to the shell.
 */
module PyCommon {
  import opened Wrappers
  import opened Text

  // ---------------------------------------------------------------------
  // os.path (POSIX)

  /** The index of the last `c` among the first `n` characters of `s`. */
  function LastIndexBefore(s: string, c: char, n: nat): (r: Option<nat>)
    requires n <= |s|
    ensures r.Some? ==> r.value < n
    decreases n
  {
    if n == 0 then None
    else if s[n - 1] == c then Some(n - 1)
    else LastIndexBefore(s, c, n - 1)
  }

  /** The index of the last `c` in `s`. */
  function LastIndexOf(s: string, c: char): (r: Option<nat>)
    ensures r.Some? ==> r.value < |s|
  {
    LastIndexBefore(s, c, |s|)
  }

  lemma {:induction false} LastIndexBeforeFacts(s: string, c: char, n: nat)
    requires n <= |s|
    ensures LastIndexBefore(s, c, n).Some? ==>
      s[LastIndexBefore(s, c, n).value] == c && forall i :: LastIndexBefore(s, c, n).value < i < n ==> s[i] != c
    ensures LastIndexBefore(s, c, n).None? <==> forall i :: 0 <= i < n ==> s[i] != c
    decreases n
  {
    if n > 0 && s[n - 1] != c {
      LastIndexBeforeFacts(s, c, n - 1);
    }
  }

  lemma LastIndexOfFacts(s: string, c: char)
    ensures LastIndexOf(s, c).Some? ==>
      s[LastIndexOf(s, c).value] == c && forall i :: LastIndexOf(s, c).value < i < |s| ==> s[i] != c
    ensures LastIndexOf(s, c).None? <==> c !in s
  {
    LastIndexBeforeFacts(s, c, |s|);
  }

  lemma LastIndexOfIs(s: string, c: char, k: nat)
    requires k < |s| && s[k] == c && forall i :: k < i < |s| ==> s[i] != c
    ensures LastIndexOf(s, c) == Some(k)
  {
    LastIndexOfFacts(s, c);
  }

  /** Where the base name of `p` starts: just past its last '/'. */
  function BaseStart(p: string): (k: nat)
    ensures k <= |p|
  {
    match LastIndexOf(p, '/')
    case None => 0
    case Some(i) => i + 1
  }

  lemma BaseStartFacts(p: string)
    ensures forall i :: BaseStart(p) <= i < |p| ==> p[i] != '/'
    ensures BaseStart(p) > 0 ==> p[BaseStart(p) - 1] == '/'
  {
    LastIndexOfFacts(p, '/');
  }

  /** `os.path.split(p)[1]`: everything after the last '/'. */
  function Basename(p: string): (b: string)
    ensures '/' !in b
  {
    BaseStartFacts(p);
    p[BaseStart(p)..]
  }

  /** A name without '/' is its own base name, also after a directory. */
  lemma BasenameOfJoin(dir: string, name: string)
    requires '/' !in name
    ensures BaseStart(name) == 0 && Basename(name) == name
    ensures BaseStart(dir + "/" + name) == |dir| + 1 && Basename(dir + "/" + name) == name
  {
    LastIndexOfFacts(name, '/');
    var p := dir + "/" + name;
    assert p[|dir|] == '/';
    assert p[|dir| + 1..] == name;
    LastIndexOfIs(p, '/', |dir|);
  }

  /** The characters of `s` from `lo` up to `hi` are all '.'. */
  predicate OnlyDots(s: string, lo: nat, hi: nat)
    requires lo <= hi <= |s|
    decreases hi - lo
  {
    lo == hi || (s[hi - 1] == '.' && OnlyDots(s, lo, hi - 1))
  }

  lemma {:induction false} OnlyDotsAt(s: string, lo: nat, hi: nat, i: nat)
    requires lo <= i < hi <= |s| && OnlyDots(s, lo, hi)
    ensures s[i] == '.'
    decreases hi - lo
  {
    if i < hi - 1 {
      OnlyDotsAt(s, lo, hi - 1, i);
    }
  }

  /** Where `os.path.splitext` cuts `p`: at the last '.' of its base name,
      unless only dots come before that one in the base name (".bashrc",
      "..x" have no extension); otherwise at the end. */
  function SplitExtAt(p: string): (k: nat)
    ensures BaseStart(p) <= k <= |p|
  {
    match LastIndexOf(p, '.')
    case None => |p|
    case Some(d) => if d < BaseStart(p) || OnlyDots(p, BaseStart(p), d) then |p| else d
  }

  lemma SplitExtAtFacts(p: string)
    ensures SplitExtAt(p) < |p| ==>
      p[SplitExtAt(p)] == '.' && BaseStart(p) < SplitExtAt(p)
      && forall i :: SplitExtAt(p) < i < |p| ==> p[i] != '.'
  {
    LastIndexOfFacts(p, '.');
  }

  /** `os.path.splitext(p)[0]`. */
  function Root(p: string): string {
    p[..SplitExtAt(p)]
  }

  /** `os.path.splitext(p)[1]`. */
  function Ext(p: string): string {
    p[SplitExtAt(p)..]
  }

  /** `splitext` only cuts: root and extension put back together are the
      path, and an extension is a '.' followed by neither '.' nor '/'. */
  lemma SplitExtParts(p: string)
    ensures Root(p) + Ext(p) == p
    ensures Ext(p) == "" || (Ext(p)[0] == '.' && '.' !in Ext(p)[1..] && '/' !in Ext(p))
  {
    SplitExtAtFacts(p);
    BaseStartFacts(p);
    var k := SplitExtAt(p);
    assert forall i :: 0 <= i < |p| - k ==> Ext(p)[i] == p[k + i];
  }

  /** The image name: the base name without its extension. */
  function ImageName(p: string): string {
    p[BaseStart(p)..SplitExtAt(p)]
  }

  /** Cutting the extension keeps the base-name start. */
  lemma BaseStartOfRoot(p: string)
    ensures BaseStart(Root(p)) == BaseStart(p)
  {
    var r := Root(p);
    var b := BaseStart(p);
    BaseStartFacts(p);
    LastIndexOfFacts(r, '/');
    if b > 0 {
      assert r[b - 1] == '/';
      LastIndexOfIs(r, '/', b - 1);
    } else {
      assert '/' !in r by {
        forall i | 0 <= i < |r| ensures r[i] != '/' { assert r[i] == p[i]; }
      }
    }
  }

  /** The compressors' image name, `os.path.split(os.path.splitext(f)[0])[1]`. */
  lemma ImageNameIsSplitOfRoot(p: string)
    ensures ImageName(p) == Basename(Root(p))
  {
    BaseStartOfRoot(p);
  }

  /** Cutting the directory keeps the extension. */
  lemma SplitExtAtOfBasename(p: string)
    ensures SplitExtAt(Basename(p)) == SplitExtAt(p) - BaseStart(p)
  {
    var b := BaseStart(p);
    var q := Basename(p);
    BaseStartFacts(p);
    BasenameOfJoin("", q);
    assert BaseStart(q) == 0 by {
      assert '/' !in q by {
        forall i | 0 <= i < |q| ensures q[i] != '/' { assert q[i] == p[b + i]; }
      }
      BasenameOfJoin("", q);
    }
    LastIndexOfFacts(p, '.');
    LastIndexOfFacts(q, '.');
    match LastIndexOf(p, '.')
    case None =>
      assert '.' !in q by {
        forall i | 0 <= i < |q| ensures q[i] != '.' { assert q[i] == p[b + i]; }
      }
    case Some(d) =>
      if d < b {
        assert '.' !in q by {
          forall i | 0 <= i < |q| ensures q[i] != '.' { assert q[i] == p[b + i]; }
        }
      } else {
        assert q[d - b] == '.';
        forall i | d - b < i < |q| ensures q[i] != '.' { assert q[i] == p[b + i]; }
        LastIndexOfIs(q, '.', d - b);
        OnlyDotsShift(p, b, d);
      }
  }

  /** Whether the base name holds only dots before its last '.' does not
      depend on the directory in front of it. */
  lemma {:induction false} OnlyDotsShift(p: string, b: nat, d: nat)
    requires b <= d <= |p|
    ensures OnlyDots(p[b..], 0, d - b) == OnlyDots(p, b, d)
    decreases d - b
  {
    if d > b {
      assert p[b..][d - b - 1] == p[d - 1];
      OnlyDotsShift(p, b, d - 1);
    }
  }

  /** `compare_images`' image name, `os.path.splitext(os.path.split(f)[1])[0]`. */
  lemma ImageNameIsRootOfSplit(p: string)
    ensures ImageName(p) == Root(Basename(p))
  {
    SplitExtAtOfBasename(p);
  }

  /** A '/'-free name after a directory prefix starts the base name. */
  lemma BaseStartAfter(pre: string, name: string)
    requires pre == "" || pre[|pre| - 1] == '/'
    requires '/' !in name
    ensures BaseStart(pre + name) == |pre|
  {
    var p := pre + name;
    var b := |pre|;
    if pre == "" {
      assert p == name;
      BasenameOfJoin("", name);
    } else {
      assert p[b - 1] == '/';
      forall i | b - 1 < i < |p| ensures p[i] != '/' { assert p[i] == name[i - b]; }
      LastIndexOfIs(p, '/', b - 1);
    }
  }

  /** A '/'-free stem and extension make a '/'-free name. */
  lemma NoSlashInName(stem: string, ext: string)
    requires '/' !in stem && '/' !in ext
    ensures '/' !in stem + ext
  {
    var name := stem + ext;
    forall i | 0 <= i < |name| ensures name[i] != '/' {
      if i >= |stem| { assert name[i] == ext[i - |stem|]; }
    }
  }

  /** In `<stem><ext>` after a base-name start `b` the extension's '.' is
      the last one. */
  lemma LastDotAfter(pre: string, stem: string, ext: string)
    requires |ext| > 1 && ext[0] == '.' && '.' !in ext[1..]
    ensures LastIndexOf(pre + stem + ext, '.') == Some(|pre| + |stem|)
  {
    var p := pre + stem + ext;
    var d := |pre| + |stem|;
    assert p[d] == '.';
    forall i | d < i < |p| ensures p[i] != '.' {
      assert p[i] == ext[1..][i - d - 1];
    }
    LastIndexOfIs(p, '.', d);
  }

  /** A file `<stem><ext>` after a directory prefix is named `stem`, when
      the stem is not hidden and the extension is one plain suffix. */
  lemma ImageNameAfter(pre: string, stem: string, ext: string)
    requires pre == "" || pre[|pre| - 1] == '/'
    requires stem != "" && stem[0] != '.' && '/' !in stem
    requires |ext| > 1 && ext[0] == '.' && '.' !in ext[1..] && '/' !in ext
    ensures ImageName(pre + stem + ext) == stem
  {
    var p := pre + stem + ext;
    assert p == pre + (stem + ext);
    NoSlashInName(stem, ext);
    BaseStartAfter(pre, stem + ext);
    LastDotAfter(pre, stem, ext);
    var b := |pre|;
    var d := b + |stem|;
    assert !OnlyDots(p, b, d) by {
      assert p[b] == stem[0];
      if OnlyDots(p, b, d) { OnlyDotsAt(p, b, d, b); }
    }
    assert SplitExtAt(p) == d;
    assert p[b..d] == stem;
  }

  /** The files the scripts write, `<dir>/<stem><ext>`, are named `stem`. */
  lemma ImageNameOfFile(dir: string, stem: string, ext: string)
    requires stem != "" && stem[0] != '.' && '/' !in stem
    requires |ext| > 1 && ext[0] == '.' && '.' !in ext[1..] && '/' !in ext
    ensures ImageName(dir + "/" + stem + ext) == stem
  {
    assert dir + "/" + stem + ext == (dir + "/") + stem + ext;
    ImageNameAfter(dir + "/", stem, ext);
  }

  /** `os.path.join(a, b)`. */
  function PathJoin(a: string, b: string): (r: string)
    ensures |b| > 0 && b[0] == '/' ==> r == b
  {
    if |b| > 0 && b[0] == '/' then b
    else if a == "" || a[|a| - 1] == '/' then a + b
    else a + "/" + b
  }

  /** `s.removesuffix(suffix)`. */
  function RemoveSuffix(s: string, suffix: string): (r: string)
    ensures |suffix| <= |s| && s[|s| - |suffix|..] == suffix ==> r + suffix == s
    ensures !(|suffix| <= |s| && s[|s| - |suffix|..] == suffix) ==> r == s
  {
    if |suffix| <= |s| && s[|s| - |suffix|..] == suffix then s[..|s| - |suffix|] else s
  }

  /** `ImageHelper.get_image_format`: the last piece of the path split on
      '.', that is what follows the last '.', or the whole path when there
      is none. */
  function ImageFormatOf(p: string): string {
    match LastIndexOf(p, '.')
    case None => p
    case Some(k) => p[k + 1..]
  }

  /** The format holds no '.', is the last piece of `p.split(".")`, and is
      the whole path when the path has no '.'. */
  lemma ImageFormatOfFacts(p: string)
    ensures '.' !in ImageFormatOf(p)
    ensures '.' !in p ==> ImageFormatOf(p) == p
    ensures var parts := Split(p, '.'); ImageFormatOf(p) == parts[|parts| - 1]
  {
    LastIndexOfFacts(p, '.');
    match LastIndexOf(p, '.')
    case None =>
      SplitNoSeparator(p, '.');
    case Some(k) =>
      var tail := p[k + 1..];
      assert '.' !in tail by {
        forall i | 0 <= i < |tail| ensures tail[i] != '.' {
          assert tail[i] == p[k + 1 + i];
        }
      }
      assert p == p[..k] + ['.'] + tail;
      SplitConcat(p[..k], tail, '.');
      SplitNoSeparator(tail, '.');
  }

  // ---------------------------------------------------------------------
  // int() on a directory name

  /** `str.isspace()`: Unicode White_Space plus the four ASCII separators. */
  predicate IsPyWhitespace(ch: char) {
    IsWhitespace(ch) || ('\U{1C}' <= ch <= '\U{1F}')
  }

  /** `s.strip()`. */
  function Strip(s: string): (t: string)
    ensures |t| <= |s|
    ensures t == "" || (!IsPyWhitespace(t[0]) && !IsPyWhitespace(t[|t| - 1]))
    decreases |s|
  {
    if |s| > 0 && IsPyWhitespace(s[0]) then Strip(s[1..])
    else if |s| > 0 && IsPyWhitespace(s[|s| - 1]) then Strip(s[..|s| - 1])
    else s
  }

  /** Digits with single underscores between them, as `int()` accepts:
      a digit, preceded by nothing, by digit groups, or by digit groups and
      one underscore. */
  predicate DigitGroups(s: string)
    decreases |s|
  {
    |s| > 0 && IsDigit(s[|s| - 1])
    && (|s| == 1 || DigitGroups(s[..|s| - 1]) || (s[|s| - 2] == '_' && DigitGroups(s[..|s| - 2])))
  }

  /** Digit groups start and end with a digit, hold only digits and
      underscores, and never two underscores in a row. */
  lemma {:induction false} DigitGroupsChars(s: string)
    requires DigitGroups(s)
    ensures IsDigit(s[0]) && IsDigit(s[|s| - 1])
    ensures forall i :: 0 <= i < |s| ==> IsDigit(s[i]) || s[i] == '_'
    ensures forall i :: 0 <= i < |s| - 1 ==> s[i] == '_' ==> s[i + 1] != '_'
    decreases |s|
  {
    if |s| > 1 {
      if DigitGroups(s[..|s| - 1]) {
        DigitGroupsChars(s[..|s| - 1]);
      } else {
        DigitGroupsChars(s[..|s| - 2]);
      }
    }
  }

  /** A non-empty run of digits is one digit group. */
  lemma {:induction false} AllDigitsGroups(s: string)
    requires |s| > 0 && AllDigits(s)
    ensures DigitGroups(s)
    decreases |s|
  {
    if |s| > 1 {
      AllDigitsGroups(s[..|s| - 1]);
    }
  }

  function WithoutUnderscores(s: string): (t: string)
    ensures (forall i :: 0 <= i < |s| ==> IsDigit(s[i]) || s[i] == '_') ==> AllDigits(t)
    decreases |s|
  {
    if |s| == 0 then ""
    else WithoutUnderscores(s[..|s| - 1]) + (if s[|s| - 1] == '_' then "" else [s[|s| - 1]])
  }

  /** `int(s)` on a string: surrounding whitespace, an optional sign, then
      ASCII digit groups; anything else raises, modelled as `None`. */
  function ParsePyInt(s: string): Option<int> {
    var t := Strip(s);
    var negative := |t| > 0 && t[0] == '-';
    var body := if |t| > 0 && (t[0] == '-' || t[0] == '+') then t[1..] else t;
    if DigitGroups(body) then
      DigitGroupsChars(body);
      var v: int := DigitsValue(WithoutUnderscores(body));
      Some(if negative then -v else v)
    else None
  }

  lemma AllDigitsKeep(s: string)
    requires AllDigits(s)
    ensures WithoutUnderscores(s) == s
    decreases |s|
  {
    if |s| > 0 {
      AllDigitsKeep(s[..|s| - 1]);
    }
  }

  /** `int()` reads a non-empty run of digits as its value. */
  lemma ParsePyIntDigits(s: string)
    requires |s| > 0 && AllDigits(s)
    ensures ParsePyInt(s) == Some(DigitsValue(s))
  {
    StripDigits(s);
    AllDigitsGroups(s);
    AllDigitsKeep(s);
  }

  /** `strip()` keeps a run of digits. */
  lemma StripDigits(s: string)
    requires |s| > 0 && AllDigits(s)
    ensures Strip(s) == s && s[0] != '-' && s[0] != '+'
  {
    assert IsDigit(s[0]) && IsDigit(s[|s| - 1]);
  }

  /** `str(n)` parses back to `n`. */
  lemma ParsePyIntNatToString(n: nat)
    ensures ParsePyInt(NatToString(n)) == Some(n)
  {
    NatToStringDigits(n);
    ParsePyIntDigits(NatToString(n));
  }

  // ---------------------------------------------------------------------
  // Run numbering

  /** `max(-1, every int()-parsable name)`. */
  function MaxRun(names: seq<string>): (m: int)
    ensures m >= -1
    decreases |names|
  {
    if |names| == 0 then -1
    else
      var m := MaxRun(names[..|names| - 1]);
      match ParsePyInt(names[|names| - 1])
      case None => m
      case Some(v) => if v > m then v else m
  }

  /** No numeric name exceeds the maximum. */
  lemma {:induction false} MaxRunUpper(names: seq<string>)
    ensures forall i :: 0 <= i < |names| && ParsePyInt(names[i]).Some? ==> ParsePyInt(names[i]).value <= MaxRun(names)
    decreases |names|
  {
    if |names| > 0 {
      var init := names[..|names| - 1];
      MaxRunUpper(init);
      assert forall i :: 0 <= i < |init| ==> init[i] == names[i];
    }
  }

  /** The maximum is -1 or the number of some name. */
  lemma {:induction false} MaxRunAttained(names: seq<string>)
    ensures MaxRun(names) == -1 || exists i :: 0 <= i < |names| && ParsePyInt(names[i]) == Some(MaxRun(names))
    decreases |names|
  {
    if |names| > 0 {
      var init := names[..|names| - 1];
      MaxRunAttained(init);
      if MaxRun(names) != MaxRun(init) {
        assert ParsePyInt(names[|names| - 1]) == Some(MaxRun(names));
      } else if MaxRun(init) != -1 {
        var i :| 0 <= i < |init| && ParsePyInt(init[i]) == Some(MaxRun(init));
        assert names[i] == init[i];
      }
    }
  }

  /** The run numbered after a listing: a number, larger than every
      numeric name, and at most one more than some numeric name. */
  lemma MaxRunBounds(names: seq<string>)
    ensures forall i :: 0 <= i < |names| && ParsePyInt(names[i]).Some? ==> ParsePyInt(names[i]).value <= MaxRun(names)
    ensures MaxRun(names) == -1 || exists i :: 0 <= i < |names| && ParsePyInt(names[i]) == Some(MaxRun(names))
  {
    MaxRunUpper(names);
    MaxRunAttained(names);
  }

  function NextRun(names: seq<string>): nat {
    MaxRun(names) + 1
  }

  /** Creating the run's directory numbers the following run one higher. */
  lemma NextRunAfterCreate(names: seq<string>)
    ensures NextRun(names + [NatToString(NextRun(names))]) == NextRun(names) + 1
  {
    ParsePyIntNatToString(NextRun(names));
    assert (names + [NatToString(NextRun(names))])[..|names|] == names;
  }

  /** The per-run directories a tester creates. */
  class JxlTester {
    const rootOutputDir: string
    const rootResultsDir: string
    var currOutputNum: int
    var currOutputDir: string
    var currResultsDir: string

    constructor(rootOutputDir: string, rootResultsDir: string)
      ensures this.rootOutputDir == rootOutputDir && this.rootResultsDir == rootResultsDir
      ensures currOutputNum == -1 && currOutputDir == "" && currResultsDir == ""
    {
      this.rootOutputDir := rootOutputDir;
      this.rootResultsDir := rootResultsDir;
      currOutputNum := -1;
      currOutputDir := "";
      currResultsDir := "";
    }

    /** `create_curr_run_dirs`: `listing` is the output root's listing
        (empty when the root had to be created). */
    method CreateCurrRunDirs(listing: seq<string>)
      modifies this
      ensures currOutputNum == NextRun(listing)
      ensures currOutputDir == PathJoin(rootOutputDir, NatToString(NextRun(listing)))
      ensures currResultsDir == PathJoin(rootResultsDir, NatToString(NextRun(listing)))
    {
      var maxDirNumber := -1;
      var i := 0;
      while i < |listing|
        invariant 0 <= i <= |listing|
        invariant maxDirNumber == MaxRun(listing[..i])
      {
        assert listing[..i + 1][..i] == listing[..i];
        var dirNumber := ParsePyInt(listing[i]);
        if dirNumber.Some? {
          maxDirNumber := if dirNumber.value > maxDirNumber then dirNumber.value else maxDirNumber;
        }
        i := i + 1;
      }
      assert listing[..|listing|] == listing;
      currOutputNum := maxDirNumber + 1;
      var newDirName := NatToString(maxDirNumber + 1);
      currOutputDir := PathJoin(rootOutputDir, newDirName);
      currResultsDir := PathJoin(rootResultsDir, newDirName);
    }

    /** `setup_paths`: the stage directories of a dataset under this run;
        the dataset must be a directory. */
    function SetupPaths(datasetPath: string, datasetIsDir: bool, dirName: string): (r: Outcome<(string, string)>)
      reads this
      ensures r.Panic? <==> !datasetIsDir
      ensures r.Value? ==>
        r.value.0 == PathJoin(PathJoin(currOutputDir, Basename(datasetPath)), dirName)
        && r.value.1 == PathJoin(PathJoin(currResultsDir, Basename(datasetPath)), dirName)
    {
      if !datasetIsDir then Panic("AssertionError: No image dataset found.")
      else
        var name := Basename(datasetPath);
        Value((PathJoin(PathJoin(currOutputDir, name), dirName), PathJoin(PathJoin(currResultsDir, name), dirName)))
    }
  }

  // ---------------------------------------------------------------------
  // Image globs

  /** The `SupportedImageExt` patterns `*.jxl`, `*.png`, `*.jpg`. */
  datatype ImageExt = Jxl | Png | Jpg

  function ExtSuffix(e: ImageExt): string {
    match e
    case Jxl => ".jxl"
    case Png => ".png"
    case Jpg => ".jpg"
  }

  /** A name `glob` matches with `*<suffix>`: it ends with the suffix and,
      the pattern not starting with '.', is not hidden. */
  predicate GlobMatches(name: string, e: ImageExt) {
    var suffix := ExtSuffix(e);
    0 < |name| && |suffix| <= |name| && name[|name| - |suffix|..] == suffix && name[0] != '.'
  }

  /** The matching paths of a listing, in listing order. */
  function MatchingPaths(dir: string, names: seq<string>, e: ImageExt): seq<string>
    decreases |names|
  {
    if |names| == 0 then []
    else
      var last := names[|names| - 1];
      MatchingPaths(dir, names[..|names| - 1], e) + (if GlobMatches(last, e) then [PathJoin(dir, last)] else [])
  }

  lemma {:induction false} MatchingPathsMembership(dir: string, names: seq<string>, e: ImageExt, p: string)
    ensures p in MatchingPaths(dir, names, e) <==>
      exists i :: 0 <= i < |names| && GlobMatches(names[i], e) && p == PathJoin(dir, names[i])
    decreases |names|
  {
    if |names| > 0 {
      var init := names[..|names| - 1];
      MatchingPathsMembership(dir, init, e, p);
      if exists i :: 0 <= i < |init| && GlobMatches(init[i], e) && p == PathJoin(dir, init[i]) {
        var i :| 0 <= i < |init| && GlobMatches(init[i], e) && p == PathJoin(dir, init[i]);
        assert names[i] == init[i];
      }
      if exists i :: 0 <= i < |names| && GlobMatches(names[i], e) && p == PathJoin(dir, names[i]) {
        var i :| 0 <= i < |names| && GlobMatches(names[i], e) && p == PathJoin(dir, names[i]);
        if i < |init| { assert init[i] == names[i]; }
      }
    }
  }

  /** A globbed image `<dir>/<name>` is named after `name` without its
      four-character suffix. */
  lemma GlobbedImageName(dir: string, name: string, e: ImageExt)
    requires GlobMatches(name, e) && '/' !in name
    ensures |name| > 4
    ensures ImageName(PathJoin(dir, name)) == name[..|name| - 4]
  {
    var suffix := ExtSuffix(e);
    var stem := name[..|name| - 4];
    assert name[|name| - 4] == suffix[0];
    assert name == stem + suffix;
    assert stem[0] == name[0];
    assert '/' !in stem by {
      forall i | 0 <= i < |stem| ensures stem[i] != '/' { assert stem[i] == name[i]; }
    }
    if dir == "" || dir[|dir| - 1] == '/' {
      assert PathJoin(dir, name) == dir + stem + suffix;
      ImageNameAfter(dir, stem, suffix);
    } else {
      assert PathJoin(dir, name) == dir + "/" + stem + suffix;
      ImageNameOfFile(dir, stem, suffix);
    }
  }

  /** `get_images_in_dir` on an absolute directory: the globbed paths,
      and an assertion failure when there are none. */
  function ImagesInDir(dir: string, names: seq<string>, e: ImageExt): (r: Outcome<seq<string>>)
    ensures r.Panic? <==> forall i :: 0 <= i < |names| ==> !GlobMatches(names[i], e)
    ensures r.Value? ==> r.value == MatchingPaths(dir, names, e) && |r.value| > 0
  {
    var images := MatchingPaths(dir, names, e);
    if |images| == 0 then
      assert forall i :: 0 <= i < |names| ==> !GlobMatches(names[i], e) by {
        forall i | 0 <= i < |names| ensures !GlobMatches(names[i], e) {
          MatchingPathsMembership(dir, names, e, PathJoin(dir, names[i]));
        }
      }
      Panic("AssertionError: No images found in " + dir + ".")
    else
      assert exists i :: 0 <= i < |names| && GlobMatches(names[i], e) by {
        MatchingPathsMembership(dir, names, e, images[0]);
      }
      Value(images)
  }

  // ---------------------------------------------------------------------
  // Table

  /** A CSV cell: a string, an integer or a float. */
  datatype Cell = Str(s: string) | Int(i: int) | Float(x: real)

  /** `Table`: a title, column names and rows, updated in place. */
  class Table {
    var title: string
    var colNames: seq<string>
    var data: seq<seq<Cell>>

    /** `Table(title, col_names=None, data=None)`. */
    constructor(title: string, colNames: Option<seq<string>>, data: Option<seq<seq<Cell>>>)
      ensures this.title == title
      ensures this.colNames == (if colNames.None? then [] else colNames.value)
      ensures this.data == (if data.None? then [] else data.value)
    {
      this.title := title;
      this.colNames := if colNames.None? then [] else colNames.value;
      this.data := if data.None? then [] else data.value;
    }

    /** Every row has one cell per column. */
    predicate Rectangular()
      reads this
    {
      forall i :: 0 <= i < |data| ==> |data[i]| == |colNames|
    }

    /** `create_col`: the name is appended, then row `i` gets `colData[i]`,
        row by row; a row past the end of `colData` raises `IndexError`,
        leaving the rows before it extended and the rest as they were. */
    method CreateCol(colName: string, colData: seq<Cell>) returns (r: Outcome<()>)
      modifies this
      ensures title == old(title) && colNames == old(colNames) + [colName]
      ensures r.Panic? <==> |colData| < |old(data)|
      ensures |data| == |old(data)|
      ensures forall i :: 0 <= i < |data| ==>
        data[i] == old(data[i]) + (if i < |colData| then [colData[i]] else [])
      ensures r.Value? && old(Rectangular()) ==> Rectangular()
    {
      colNames := colNames + [colName];
      var i := 0;
      while i < |data|
        invariant 0 <= i <= |data| && |data| == |old(data)|
        invariant title == old(title) && colNames == old(colNames) + [colName]
        invariant i <= |colData|
        invariant forall j :: 0 <= j < i ==> data[j] == old(data[j]) + [colData[j]]
        invariant forall j :: i <= j < |data| ==> data[j] == old(data[j])
      {
        if i >= |colData| {
          return Panic("IndexError: list index out of range");
        }
        data := data[i := data[i] + [colData[i]]];
        i := i + 1;
      }
      r := Value(());
    }

    /** `create_row`: one more row at the end. */
    method CreateRow(rowData: seq<Cell>)
      modifies this
      ensures title == old(title) && colNames == old(colNames) && data == old(data) + [rowData]
      ensures old(Rectangular()) && |rowData| == |colNames| ==> Rectangular()
    {
      data := data + [rowData];
    }
  }

  /** `ImageHelper.get_image_dims`: "<width> x <height>". */
  function DimsText(width: nat, height: nat): string {
    NatToString(width) + " x " + NatToString(height)
  }

  /** What the scripts read from the disk: file sizes and image sizes by
      path. A missing path raises. */
  datatype Disk = Disk(sizes: map<string, nat>, dims: map<string, (nat, nat)>)

  /** `ImageHelper.get_image_dims`, raising when the path holds no image. */
  function ImageDims(disk: Disk, p: string): (r: Outcome<string>)
    ensures r.Panic? <==> p !in disk.dims
  {
    if p in disk.dims then Value(DimsText(disk.dims[p].0, disk.dims[p].1))
    else Panic("FileNotFoundError: " + p)
  }

  /** `ImageHelper.get_image_size`, raising when the path is missing. */
  function ImageSize(disk: Disk, p: string): (r: Outcome<nat>)
    ensures r.Panic? <==> p !in disk.sizes
  {
    if p in disk.sizes then Value(disk.sizes[p]) else Panic("FileNotFoundError: " + p)
  }

  // ---------------------------------------------------------------------
  // compare_images

  const DIFF_TOOL := "compare"

  function DiffCommand(before: string, after: string, resultDir: string): string {
    DIFF_TOOL + " " + before + " " + after + " " + resultDir + "/" + ImageName(before) + "-diff.png"
  }

  /** The diff commands of the first `n` pairs. */
  function DiffCommands(before: seq<string>, after: seq<string>, resultDir: string, n: nat): (cmds: seq<string>)
    requires n <= |before| && n <= |after|
    ensures |cmds| == n
    decreases n
  {
    if n == 0 then []
    else DiffCommands(before, after, resultDir, n - 1) + [DiffCommand(before[n - 1], after[n - 1], resultDir)]
  }

  /** Command `j` diffs pair `j` into the result directory. */
  lemma {:induction false} DiffCommandsIndex(before: seq<string>, after: seq<string>, resultDir: string, n: nat, j: nat)
    requires n <= |before| && n <= |after| && j < n
    ensures DiffCommands(before, after, resultDir, n)[j] == DiffCommand(before[j], after[j], resultDir)
    decreases n
  {
    if j < n - 1 {
      DiffCommandsIndex(before, after, resultDir, n - 1, j);
    }
  }

  /** Pair `j` has the same image name on both sides. */
  predicate SameStemAt(before: seq<string>, after: seq<string>, j: nat)
    requires j < |before| && j < |after|
  {
    ImageName(before[j]) == ImageName(after[j])
  }

  /** The first `n` pairs have the same image names. */
  predicate StemsAgree(before: seq<string>, after: seq<string>, n: nat)
    requires n <= |before| && n <= |after|
    decreases n
  {
    n == 0 || (StemsAgree(before, after, n - 1) && SameStemAt(before, after, n - 1))
  }

  /** Agreement on a prefix is agreement at every index of the prefix. */
  lemma {:induction false} StemsAgreeAt(before: seq<string>, after: seq<string>, n: nat, j: nat)
    requires n <= |before| && n <= |after| && j < n
    ensures StemsAgree(before, after, n) ==> SameStemAt(before, after, j)
    decreases n
  {
    if j < n - 1 {
      StemsAgreeAt(before, after, n - 1, j);
    }
  }

  /** Agreement at every index of a prefix is agreement on the prefix. */
  lemma {:induction false} StemsAgreeFromAll(before: seq<string>, after: seq<string>, n: nat)
    requires n <= |before| && n <= |after|
    requires forall j :: 0 <= j < n ==> SameStemAt(before, after, j)
    ensures StemsAgree(before, after, n)
    decreases n
  {
    if n > 0 {
      StemsAgreeFromAll(before, after, n - 1);
    }
  }

  /** The loop of `compare_images`: walk two lists of the same length in
      step, issuing one diff command per pair and raising at the first pair
      whose image names differ. */
  method ComparePairs(before: seq<string>, after: seq<string>, resultDir: string)
    returns (r: Outcome<()>, commands: seq<string>)
    requires |before| == |after|
    ensures r.Value? <==> StemsAgree(before, after, |before|)
    ensures |commands| <= |before|
    ensures commands == DiffCommands(before, after, resultDir, |commands|)
    ensures StemsAgree(before, after, |commands|)
    ensures r.Value? ==> |commands| == |before|
    ensures r.Panic? ==> |commands| < |before| && ImageName(before[|commands|]) != ImageName(after[|commands|])
  {
    commands := [];
    var i := 0;
    while i < |before|
      invariant 0 <= i <= |before| && commands == DiffCommands(before, after, resultDir, i)
      invariant StemsAgree(before, after, i)
    {
      var imageName := ImageName(before[i]);
      if imageName != ImageName(after[i]) {
        StemsPersistFalse(before, after, i + 1);
        return Panic("Exception: Mismatch image names."), commands;
      }
      commands := commands + [DiffCommand(before[i], after[i], resultDir)];
      i := i + 1;
    }
    r := Value(());
  }

  /** `compare_images` on the two globbed lists: raise on different
      lengths or a missing result directory, then compare pair by pair. */
  method CompareImages(before: seq<string>, after: seq<string>, resultDirIsDir: bool, resultDir: string)
    returns (r: Outcome<()>, commands: seq<string>)
    ensures r.Value? <==> |before| == |after| && resultDirIsDir && StemsAgree(before, after, |before|)
    ensures |commands| <= |before| && |commands| <= |after|
    ensures commands == DiffCommands(before, after, resultDir, |commands|)
    ensures StemsAgree(before, after, |commands|)
    ensures r.Value? ==> |commands| == |before|
    ensures r.Panic? && |before| == |after| && resultDirIsDir ==>
      ImageName(before[|commands|]) != ImageName(after[|commands|])
  {
    if |before| != |after| {
      return Panic("Exception: Mismatch image set lengths."), [];
    }
    if !resultDirIsDir {
      return Panic("AssertionError: Result directory does not exist."), [];
    }
    r, commands := ComparePairs(before, after, resultDir);
  }

  /** One disagreeing pair makes every longer prefix disagree. */
  lemma {:induction false} StemsPersistFalse(before: seq<string>, after: seq<string>, n: nat)
    requires 0 < n <= |before| == |after|
    requires !StemsAgree(before, after, n)
    ensures !StemsAgree(before, after, |before|)
    decreases |before| - n
  {
    if n < |before| {
      StemsPersistFalse(before, after, n + 1);
    }
  }

  /** `compare_images(before_dir, after_dir, result_dir)`: glob the PNG
      images of both directories (each glob raising when empty), then
      compare the two lists pair by pair. */
  method CompareImageDirs(beforeDir: string, beforeNames: seq<string>, afterDir: string, afterNames: seq<string>,
                          resultDirIsDir: bool, resultDir: string)
    returns (r: Outcome<()>, commands: seq<string>)
    ensures ImagesInDir(beforeDir, beforeNames, Png).Panic? || ImagesInDir(afterDir, afterNames, Png).Panic? ==>
      r.Panic? && commands == []
    ensures ImagesInDir(beforeDir, beforeNames, Png).Value? && ImagesInDir(afterDir, afterNames, Png).Value? ==>
      var before := MatchingPaths(beforeDir, beforeNames, Png);
      var after := MatchingPaths(afterDir, afterNames, Png);
      && (r.Value? <==> |before| == |after| && resultDirIsDir && StemsAgree(before, after, |before|))
      && |commands| <= |before| && |commands| <= |after|
      && commands == DiffCommands(before, after, resultDir, |commands|)
      && (r.Value? ==> |commands| == |before|)
  {
    commands := [];
    var before := ImagesInDir(beforeDir, beforeNames, Png);
    if before.Panic? {
      return Panic(before.reason), commands;
    }
    var after := ImagesInDir(afterDir, afterNames, Png);
    if after.Panic? {
      return Panic(after.reason), commands;
    }
    r, commands := CompareImages(before.value, after.value, resultDirIsDir, resultDir);
  }
}
