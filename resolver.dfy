/** The two directory resolvers of `Benchmarker` (`benchmark.rs`): the
    number of the next benchmark run, and the test sets to benchmark.
    A directory listing is a sequence of entries in the order the file
    system returns them; that order is not specified, so it is taken as
    given.
 */
module Resolver {
  import opened Wrappers
  import opened Text

  datatype DirEntry = DirEntry(name: string, isDir: bool)

  /** `get_current_run`: one more than the largest entry name that parses as
      a `usize`, or 0 when the directory does not exist or has no such
      entry. `run + 1` overflows (and panics) for an entry named
      `usize::MAX`. */
  method GetCurrentRun(exists_: bool, names: seq<string>) returns (r: Outcome<nat>)
    ensures r.Panic? <==> exists_ && exists i :: 0 <= i < |names| && ParseUsize(names[i]) == Some(USIZE_MAX)
    ensures r.Value? && !exists_ ==> r.value == 0
    ensures r.Value? ==> forall i :: 0 <= i < |names| && exists_ && ParseUsize(names[i]).Some? ==>
      ParseUsize(names[i]).value < r.value
    ensures r.Value? && r.value > 0 ==>
      exists_ && exists i :: 0 <= i < |names| && ParseUsize(names[i]) == Some(r.value - 1)
  {
    var currentRun := 0;
    if exists_ {
      var i := 0;
      while i < |names|
        invariant 0 <= i <= |names|
        invariant forall j :: 0 <= j < i ==> ParseUsize(names[j]) != Some(USIZE_MAX)
        invariant forall j :: 0 <= j < i && ParseUsize(names[j]).Some? ==> ParseUsize(names[j]).value < currentRun
        invariant currentRun > 0 ==> exists j :: 0 <= j < i && ParseUsize(names[j]) == Some(currentRun - 1)
      {
        var parsed := ParseUsize(names[i]);
        if parsed.None? {
          i := i + 1;
          continue;
        }
        var run := parsed.value;
        if run >= currentRun {
          if run == USIZE_MAX {
            return Panic("attempt to add with overflow");
          }
          currentRun := run + 1;
        }
        i := i + 1;
      }
    }
    r := Value(currentRun);
  }

  /** A test set is a directory whose name does not start with '.'. */
  predicate IsTestSet(e: DirEntry) {
    e.isDir && !StartsWith(e.name, ".")
  }

  /** The test-set names of a listing, in listing order. */
  function TestSetNames(entries: seq<DirEntry>): seq<string>
    decreases |entries|
  {
    if |entries| == 0 then []
    else
      var last := entries[|entries| - 1];
      TestSetNames(entries[..|entries| - 1]) + (if IsTestSet(last) then [last.name] else [])
  }

  /** `get_all_test_set_names`: nothing when the directory does not exist. */
  method GetAllTestSetNames(exists_: bool, entries: seq<DirEntry>) returns (testSets: seq<string>)
    ensures testSets == if exists_ then TestSetNames(entries) else []
  {
    testSets := [];
    if exists_ {
      var i := 0;
      while i < |entries|
        invariant 0 <= i <= |entries|
        invariant testSets == TestSetNames(entries[..i])
      {
        assert entries[..i + 1][..i] == entries[..i];
        if StartsWith(entries[i].name, ".") || !entries[i].isDir {
          i := i + 1;
          continue;
        }
        testSets := testSets + [entries[i].name];
        i := i + 1;
      }
      assert entries[..|entries|] == entries;
    }
  }

  /** The names kept are exactly the names of test-set entries. */
  lemma {:induction false} TestSetNamesMembership(entries: seq<DirEntry>, name: string)
    ensures name in TestSetNames(entries) <==>
      exists i :: 0 <= i < |entries| && entries[i].name == name && IsTestSet(entries[i])
    decreases |entries|
  {
    if |entries| > 0 {
      var init := entries[..|entries| - 1];
      TestSetNamesMembership(init, name);
      if exists i :: 0 <= i < |init| && init[i].name == name && IsTestSet(init[i]) {
        var i :| 0 <= i < |init| && init[i].name == name && IsTestSet(init[i]);
        assert entries[i] == init[i];
      }
      if exists i :: 0 <= i < |entries| && entries[i].name == name && IsTestSet(entries[i]) {
        var i :| 0 <= i < |entries| && entries[i].name == name && IsTestSet(entries[i]);
        if i < |init| { assert init[i] == entries[i]; }
      }
    }
  }

  /** Order is kept: the kept names of a concatenated listing are the kept
      names of its first part followed by those of its second part. */
  lemma {:induction false} TestSetNamesConcat(a: seq<DirEntry>, b: seq<DirEntry>)
    ensures TestSetNames(a + b) == TestSetNames(a) + TestSetNames(b)
    decreases |b|
  {
    if |b| == 0 {
      assert a + b == a;
    } else {
      var init := b[..|b| - 1];
      TestSetNamesConcat(a, init);
      assert (a + b)[..|a + b| - 1] == a + init;
    }
  }

  /** Hidden directories and plain files are never test sets. */
  lemma TestSetNamesExcluded(entries: seq<DirEntry>)
    ensures forall n :: n in TestSetNames(entries) ==> !StartsWith(n, ".")
  {
    forall n | n in TestSetNames(entries) ensures !StartsWith(n, ".") {
      TestSetNamesMembership(entries, n);
    }
  }
}
