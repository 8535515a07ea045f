/** `Benchmarker::run_benchmark` (`benchmark.rs`): for every test set,
    benchmark the configured libjxl revision and, when asked, a second
    revision (another commit or the local tree); hand every supported
    image of the test set to a worker once per revision; wait for all
    workers; then compare the two revisions' result logs.

    As written, the revision, the comparison flags and the list of result
    logs are set up once before the test-set loop and never reset, so only
    the first test set is benchmarked as intended. `AsWrittenChecks` models
    that loop and the lemmas after it exhibit the consequences;
    `RunBenchmark` is the loop with the state reset for every test set.

    Directory listings, the result logs, the file system and what the
    per-image container commands (cleaning, checking out or applying the
    local tree, building) report are parameters.
 */
module RunBenchmark {
  import opened Wrappers
  import opened Text
  import opened ImageReader
  import opened WorkerPool
  import opened Comparison
  import Resolver
  import Sweep

  // ---------------------------------------------------------------------
  // Revisions

  /** The comparison flags of a run. */
  datatype Flags = Flags(compareToLocal: bool, compareToCommit: Option<string>)

  const NO_FLAGS := Flags(false, None)

  function FlagsOf(ctx: Context): Flags {
    Flags(ctx.compareToLocal, ctx.compareToCommit)
  }

  /** The revision benchmarked first: the configured commit, or `main`. */
  function BaseCommit(ctx: Context): string {
    match ctx.libjxlCommit
    case Some(c) => c
    case None => DEFAULT_LIBJXL_COMMIT
  }

  /** The revisions still to come after the current one: the commit to
      compare to, then the local tree. */
  function Pending(flags: Flags): seq<string> {
    (if flags.compareToCommit.Some? then [flags.compareToCommit.value] else [])
    + (if flags.compareToLocal then ["local"] else [])
  }

  /** Every revision the commit loop visits, in order. */
  function Visits(commit: string, flags: Flags): (revs: seq<string>)
    ensures 1 <= |revs| <= 3 && revs[0] == commit
    ensures |revs| == 1 <==> flags == NO_FLAGS
  {
    [commit] + Pending(flags)
  }

  /** Lines 474-485 on the flags: the flag of the revision moved to is
      cleared, so that revision drops from those still to come. */
  function NextFlags(flags: Flags): (next: Flags)
    ensures flags != NO_FLAGS ==> Pending(next) == Pending(flags)[1..]
    ensures flags == NO_FLAGS ==> next == NO_FLAGS
  {
    if flags.compareToCommit.Some? then flags.(compareToCommit := None) else flags.(compareToLocal := false)
  }

  /** The flags in `self.context` after `k` passes of the commit loop. */
  function FlagsAfter(flags: Flags, k: nat): Flags
    decreases k
  {
    if k == 0 then flags else NextFlags(FlagsAfter(flags, k - 1))
  }

  /** `ctx` with its comparison flags set to `flags`. */
  function WithFlags(ctx: Context, flags: Flags): Context {
    ctx.(compareToLocal := flags.compareToLocal, compareToCommit := flags.compareToCommit)
  }

  /** The context the payloads of the `k`-th visited revision are cloned
      from (line 358): the run's context with the flags the `k` earlier
      passes of the commit loop have cleared. */
  function RevisionContext(ctx: Context, k: nat): Context {
    WithFlags(ctx, FlagsAfter(FlagsOf(ctx), k))
  }

  lemma FlagsAfterNext(flags: Flags, k: nat)
    ensures FlagsAfter(flags, k + 1) == NextFlags(FlagsAfter(flags, k))
  {
  }

  /** After `k` passes the flags ask for exactly the revisions not yet
      moved to. */
  lemma {:induction false} PendingAfter(flags: Flags, k: nat)
    requires k <= |Pending(flags)|
    ensures Pending(FlagsAfter(flags, k)) == Pending(flags)[k..]
    decreases k
  {
    if k > 0 {
      PendingAfter(flags, k - 1);
      var prev := FlagsAfter(flags, k - 1);
      assert |Pending(prev)| > 0;
      assert Pending(FlagsAfter(flags, k)) == Pending(prev)[1..];
      assert Pending(flags)[k - 1..][1..] == Pending(flags)[k..];
    }
  }

  /** Once the commit to compare to is cleared it stays cleared. */
  lemma {:induction false} CommitClearedAfter(flags: Flags, k: nat)
    requires k >= 1
    ensures FlagsAfter(flags, k).compareToCommit.None?
    decreases k
  {
    if k > 1 {
      CommitClearedAfter(flags, k - 1);
    }
  }

  /** The payload contexts of a test set's revisions: the base revision
      carries the configured flags; every later one carries no commit to
      compare to and flags asking for exactly the revisions after it; the
      last of three, and the local tree reached without a commit, carry no
      flags. Nothing else of the context changes. */
  lemma RevisionContextFlags(ctx: Context, k: nat)
    requires k < |Visits(BaseCommit(ctx), FlagsOf(ctx))|
    ensures RevisionContext(ctx, k).(compareToLocal := ctx.compareToLocal, compareToCommit := ctx.compareToCommit) == ctx
    ensures k == 0 ==> RevisionContext(ctx, k) == ctx
    ensures k >= 1 ==> RevisionContext(ctx, k).compareToCommit.None?
    ensures Pending(FlagsOf(RevisionContext(ctx, k))) == Visits(BaseCommit(ctx), FlagsOf(ctx))[k + 1..]
    ensures k == 2 || (k == 1 && ctx.compareToCommit.None?) ==> FlagsOf(RevisionContext(ctx, k)) == NO_FLAGS
  {
    PendingAfter(FlagsOf(ctx), k);
    if k >= 1 {
      CommitClearedAfter(FlagsOf(ctx), k);
    }
  }

  // ---------------------------------------------------------------------
  // Paths

  function RunDir(ctx: Context): string {
    ctx.benchmarkDir + "/" + NatToString(ctx.currentRun)
  }

  /** `get_output_path_for(kind/ts/rev)`. */
  function OutputPathFor(ctx: Context, kind: string, ts: string, rev: string): string {
    RunDir(ctx) + "/output/" + kind + "/" + ts + "/" + rev
  }

  /** `get_result_path_for(kind/ts/rev)`. */
  function ResultPathFor(ctx: Context, kind: string, ts: string, rev: string): string {
    RunDir(ctx) + "/results/" + kind + "/" + ts + "/" + rev
  }

  /** The result log of one revision on one test set. */
  function CsvPath(ctx: Context, ts: string, rev: string): string {
    ResultPathFor(ctx, "comp", ts, rev) + "/comparisons.csv"
  }

  /** The result logs of the revisions, in order. */
  function CsvPaths(ctx: Context, ts: string, revs: seq<string>): (csvs: seq<string>)
    ensures |csvs| == |revs|
    decreases |revs|
  {
    if |revs| == 0 then []
    else CsvPaths(ctx, ts, revs[..|revs| - 1]) + [CsvPath(ctx, ts, revs[|revs| - 1])]
  }

  /** Entry `i` of the list is the result log of revision `i`. */
  lemma {:induction false} CsvPathsAt(ctx: Context, ts: string, revs: seq<string>)
    ensures forall i :: 0 <= i < |revs| ==> CsvPaths(ctx, ts, revs)[i] == CsvPath(ctx, ts, revs[i])
    decreases |revs|
  {
    if |revs| > 0 {
      CsvPathsAt(ctx, ts, revs[..|revs| - 1]);
    }
  }

  /** A result log names its test set and its revision as the third- and
      second-to-last components of its path. */
  lemma CsvPathComponents(ctx: Context, ts: string, rev: string)
    requires '/' !in ts && '/' !in rev
    ensures var parts := Split(CsvPath(ctx, ts, rev), '/');
      |parts| >= 4 && parts[|parts| - 3] == ts && parts[|parts| - 2] == rev
  {
    var front := RunDir(ctx) + "/results/comp";
    var tail := "comparisons.csv";
    assert CsvPath(ctx, ts, rev) == front + ['/'] + (ts + ['/'] + (rev + ['/'] + tail));
    assert '/' !in tail;
    LastThreeParts(front, ts, rev, tail);
    SplitLength(front, '/');
  }

  /** Three '/'-free pieces after a front and a '/' each are the last three
      parts of the path. */
  lemma LastThreeParts(front: string, a: string, b: string, c: string)
    requires '/' !in a && '/' !in b && '/' !in c
    ensures Split(front + ['/'] + (a + ['/'] + (b + ['/'] + c)), '/') == Split(front, '/') + [a, b, c]
  {
    SplitConcat(b, c, '/');
    SplitNoSeparator(b, '/');
    SplitNoSeparator(c, '/');
    SplitConcat(a, b + ['/'] + c, '/');
    SplitNoSeparator(a, '/');
    SplitConcat(front, a + ['/'] + (b + ['/'] + c), '/');
  }

  /** Logs of different test sets or different revisions are different files. */
  lemma CsvPathInjective(ctx: Context, ts1: string, rev1: string, ts2: string, rev2: string)
    requires '/' !in ts1 && '/' !in rev1 && '/' !in ts2 && '/' !in rev2
    requires CsvPath(ctx, ts1, rev1) == CsvPath(ctx, ts2, rev2)
    ensures ts1 == ts2 && rev1 == rev2
  {
    CsvPathComponents(ctx, ts1, rev1);
    CsvPathComponents(ctx, ts2, rev2);
  }

  // ---------------------------------------------------------------------
  // Tasks

  /** What a worker is told about one image (the payload without its
      worker id). */
  datatype Task = Task(
    context: Context, outOrigPath: string, outCompPath: string, resOrigPath: string,
    resCompPath: string, imageName: string, imageFilePath: string, imageFormat: ImageFormat,
    testSet: string)

  function WithTask(p: Payload, t: Task): Payload {
    p.(context := t.context, outOrigPath := t.outOrigPath, outCompPath := t.outCompPath,
       resOrigPath := t.resOrigPath, resCompPath := t.resCompPath, imageName := t.imageName,
       imageFilePath := t.imageFilePath, imageFormat := t.imageFormat, testSet := t.testSet)
  }

  /** The task a payload carries. */
  function TaskOf(p: Payload): Task {
    Task(p.context, p.outOrigPath, p.outCompPath, p.resOrigPath, p.resCompPath, p.imageName,
         p.imageFilePath, p.imageFormat, p.testSet)
  }

  /** Pointing a payload at a task replaces its whole task and keeps its
      worker id. */
  lemma TaskOfWithTask(p: Payload, t: Task)
    ensures TaskOf(WithTask(p, t)) == t && WithTask(p, t).workerId == p.workerId
  {
  }

  /** The tasks of the payloads a worker launched, in order. */
  function TasksOf(ps: seq<Payload>): (ts: seq<Task>)
    ensures |ts| == |ps| && forall i :: 0 <= i < |ps| ==> ts[i] == TaskOf(ps[i])
  {
    seq(|ps|, i requires 0 <= i < |ps| => TaskOf(ps[i]))
  }

  lemma TasksOfSnoc(ps: seq<Payload>, p: Payload)
    ensures TasksOf(ps + [p]) == TasksOf(ps) + [TaskOf(p)]
  {
    assert TasksOf(ps + [p])[..|ps|] == TasksOf(ps);
  }

  /** What each worker of the pool has launched so far. */
  ghost function Launches(ws: seq<BenchmarkWorker>): (ls: seq<seq<Task>>)
    reads ws
    ensures |ls| == |ws|
  {
    seq(|ws|, j requires 0 <= j < |ws| reads ws => TasksOf(ws[j].launched))
  }

  /** The tasks of `tasks` that worker `j` of a pool of `n` receives when
      the first of them is pick number `start`: the pick numbered `start + k`
      goes to worker `(start + k) % n`. */
  function Assigned(tasks: seq<Task>, start: nat, n: nat, j: nat): (r: seq<Task>)
    ensures |r| <= |tasks|
    decreases |tasks|
  {
    if |tasks| == 0 then []
    else
      var k := |tasks| - 1;
      Assigned(tasks[..k], start, n, j) + (if n > 0 && (start + k) % n == j then [tasks[k]] else [])
  }

  lemma AssignedSnoc(tasks: seq<Task>, t: Task, start: nat, n: nat)
    ensures forall j :: (Assigned(tasks + [t], start, n, j)
      == Assigned(tasks, start, n, j) + (if n > 0 && (start + |tasks|) % n == j then [t] else []))
  {
    assert (tasks + [t])[..|tasks|] == tasks;
  }

  /** Dispatching two lists in turn assigns each worker its share of the
      first, then its share of the second. */
  lemma {:induction false} AssignedConcat(a: seq<Task>, b: seq<Task>, start: nat, n: nat, j: nat)
    ensures Assigned(a + b, start, n, j) == Assigned(a, start, n, j) + Assigned(b, start + |a|, n, j)
    decreases |b|
  {
    if |b| == 0 {
      assert a + b == a;
    } else {
      var k := |b| - 1;
      var extra := if n > 0 && (start + |a| + k) % n == j then [b[k]] else [];
      assert (a + b)[..|a| + k] == a + b[..k] && (a + b)[|a| + k] == b[k];
      assert Assigned(a + b, start, n, j) == Assigned(a + b[..k], start, n, j) + extra;
      assert Assigned(b, start + |a|, n, j) == Assigned(b[..k], start + |a|, n, j) + extra;
      AssignedConcat(a, b[..k], start, n, j);
    }
  }

  /** Every task goes to the worker its pick number selects. */
  lemma {:induction false} AssignedTo(tasks: seq<Task>, start: nat, n: nat, k: nat)
    requires n > 0 && k < |tasks|
    ensures tasks[k] in Assigned(tasks, start, n, (start + k) % n)
    decreases |tasks|
  {
    if k < |tasks| - 1 {
      assert tasks[..|tasks| - 1][k] == tasks[k];
      AssignedTo(tasks[..|tasks| - 1], start, n, k);
    }
  }

  /** Worker `j` of a pool whose workers have launched `now` launched
      `before[j]` followed by its round-robin share of `tasks`, dispatched
      from pick number `start`. */
  predicate Shared(now: seq<seq<Task>>, before: seq<seq<Task>>, tasks: seq<Task>, start: nat) {
    |now| == |before|
    && forall j :: 0 <= j < |now| ==> now[j] == before[j] + Assigned(tasks, start, |now|, j)
  }

  /** The same of the workers `ws` themselves. */
  ghost predicate Dispatched(ws: seq<BenchmarkWorker>, start: nat, before: seq<seq<Task>>, tasks: seq<Task>)
    reads ws
  {
    Shared(Launches(ws), before, tasks, start)
  }

  /** Dispatching `more` after `tasks` gives each worker its share of both,
      in order. */
  lemma SharedConcat(now: seq<seq<Task>>, mid: seq<seq<Task>>, before: seq<seq<Task>>,
                     tasks: seq<Task>, more: seq<Task>, start: nat)
    requires Shared(mid, before, tasks, start) && Shared(now, mid, more, start + |tasks|)
    ensures Shared(now, before, tasks + more, start)
  {
    forall j | 0 <= j < |now|
      ensures now[j] == before[j] + Assigned(tasks + more, start, |now|, j)
    {
      AssignedConcat(tasks, more, start, |now|, j);
    }
  }

  /** Nothing dispatched: every worker has launched what it had. */
  lemma SharedNothing(now: seq<seq<Task>>, start: nat)
    ensures Shared(now, now, [], start)
  {
    forall j | 0 <= j < |now|
      ensures now[j] == now[j] + Assigned([], start, |now|, j)
    {
      assert now[j] + [] == now[j];
    }
  }

  function ImagePath(ctx: Context, ts: string, name: string): string {
    ctx.localTestImageDir + "/" + ts + "/" + name
  }

  /** The task for image `name` of test set `ts` at revision `rev`; `ctx`
      is the context its payload is cloned from, so it carries the flags
      of its revision's pass (`RevisionContext`). */
  function ImageTask(ctx: Context, ts: string, rev: string, name: string, format: ImageFormat): Task {
    Task(ctx.(libjxlCommit := Some(rev)),
         OutputPathFor(ctx, "orig", ts, rev), OutputPathFor(ctx, "comp", ts, rev),
         ResultPathFor(ctx, "orig", ts, rev), ResultPathFor(ctx, "comp", ts, rev),
         Sweep.Stem(name), ImagePath(ctx, ts, name), format, ts)
  }

  // ---------------------------------------------------------------------
  // Preparing a worker's checkout

  /** A process that was started and exited successfully. */
  predicate Succeeded(spawn: Docker.Spawn) {
    spawn.Ok? && spawn.value.success
  }

  /** What the processes that prepare a worker's libjxl checkout for one
      image report: `git clean`, then either `git checkout` of the revision
      or the copy and apply of the local diff, then the build. */
  datatype Preparation = Preparation(
    clean: Docker.Spawn, checkout: Docker.Spawn, copyDiff: Docker.Spawn, applyDiff: Docker.Spawn,
    build: Docker.Spawn)

  /** What the preparation processes report for the image of each task. */
  type Preparations = Task -> Preparation

  /** Lines 386-420: clean the checkout, move it to `rev` (the local tree is
      applied as a diff instead), build; each step's result is unwrapped,
      so an error panics. The diff is applied for its side effects only, so
      it fails only when one of its processes cannot be started. */
  function Prepare(rev: string, p: Preparation): (r: Outcome<()>)
    ensures r.Value? <==>
      Succeeded(p.clean)
      && (if rev == "local" then p.copyDiff.Ok? && p.applyDiff.Ok? else Succeeded(p.checkout))
      && Succeeded(p.build)
  {
    match Unwrap(Docker.ExecuteCommand(p.clean))
    case Panic(m) => Panic(m)
    case Value(_) =>
      var moved := if rev == "local" then Docker.ApplyLocalAsDiff(p.copyDiff, p.applyDiff)
                   else Docker.ExecuteCommand(p.checkout);
      match Unwrap(moved)
      case Panic(m) => Panic(m)
      case Value(_) =>
        match Unwrap(Docker.ExecuteCommand(p.build))
        case Panic(m) => Panic(m)
        case Value(_) => Value(())
  }

  /** `Result::unwrap` on a command's outcome: an error panics. */
  function Unwrap(o: Outcome<Result<string, string>>): (r: Outcome<string>)
    ensures r.Value? <==> o.Value? && o.value.Ok?
    ensures r.Value? ==> r.value == o.value.value
  {
    match o
    case Panic(m) => Panic(m)
    case Value(res) =>
      match res
      case Ok(out) => Value(out)
      case Err(_) => Panic("called `Result::unwrap()` on an `Err` value")
  }

  /** What one directory entry contributes: nothing for a directory or a
      file of unsupported format; a panic for a file without an extension,
      when there is no worker to take the image, or when preparing the
      worker's checkout fails; otherwise one task. */
  function EntryTasks(ctx: Context, noWorkers: bool, preps: Preparations, ts: string, rev: string, e: Resolver.DirEntry)
    : Outcome<seq<Task>>
  {
    if e.isDir then Value([])
    else match FormatFromFileName(ImagePath(ctx, ts, e.name))
      case Panic(m) => Panic(m)
      case Value(f) =>
        if f == Unsupported then Value([])
        else if noWorkers then Panic("index out of bounds")
        else
          var t := ImageTask(ctx, ts, rev, e.name, f);
          match Prepare(rev, preps(t))
          case Panic(m) => Panic(m)
          case Value(_) => Value([t])
  }

  /** Sequential composition: the first panic wins, otherwise the tasks of
      both, in order. */
  function Then(a: Outcome<seq<Task>>, b: Outcome<seq<Task>>): Outcome<seq<Task>> {
    match a
    case Panic(m) => Panic(m)
    case Value(x) =>
      match b
      case Panic(m) => Panic(m)
      case Value(y) => Value(x + y)
  }

  /** The tasks of one revision on one test set, entry by entry. */
  function RevisionTasks(ctx: Context, noWorkers: bool, preps: Preparations, ts: string, rev: string,
                         entries: seq<Resolver.DirEntry>): Outcome<seq<Task>>
    decreases |entries|
  {
    if |entries| == 0 then Value([])
    else Then(RevisionTasks(ctx, noWorkers, preps, ts, rev, entries[..|entries| - 1]),
              EntryTasks(ctx, noWorkers, preps, ts, rev, entries[|entries| - 1]))
  }

  /** The tasks of all revisions on one test set, revision by revision;
      the `k`-th revision's payloads are cloned from its own context. */
  function RevisionsTasks(ctx: Context, noWorkers: bool, preps: Preparations, ts: string, revs: seq<string>,
                          entries: seq<Resolver.DirEntry>): Outcome<seq<Task>>
    decreases |revs|
  {
    if |revs| == 0 then Value([])
    else Then(RevisionsTasks(ctx, noWorkers, preps, ts, revs[..|revs| - 1], entries),
              RevisionTasks(RevisionContext(ctx, |revs| - 1), noWorkers, preps, ts, revs[|revs| - 1], entries))
  }

  /** A file of the test set that gets a task. */
  predicate Benchmarked(ctx: Context, ts: string, e: Resolver.DirEntry) {
    !e.isDir && FormatFromFileName(ImagePath(ctx, ts, e.name)).Value?
    && FormatFromFileName(ImagePath(ctx, ts, e.name)).value != Unsupported
  }

  /** `t` is the task of entry `e`. */
  predicate TaskFor(ctx: Context, ts: string, rev: string, e: Resolver.DirEntry, t: Task) {
    Benchmarked(ctx, ts, e)
    && t == ImageTask(ctx, ts, rev, e.name, FormatFromFileName(ImagePath(ctx, ts, e.name)).value)
  }

  lemma EntryTasksMembership(ctx: Context, noWorkers: bool, preps: Preparations, ts: string, rev: string, e: Resolver.DirEntry, t: Task)
    requires EntryTasks(ctx, noWorkers, preps, ts, rev, e).Value?
    ensures t in EntryTasks(ctx, noWorkers, preps, ts, rev, e).value <==> TaskFor(ctx, ts, rev, e, t)
  {
  }

  /** Every file of a supported format gets exactly the task for it, and
      nothing else gets a task. */
  lemma {:induction false} RevisionTasksMembership(ctx: Context, noWorkers: bool, preps: Preparations, ts: string, rev: string,
                                                   entries: seq<Resolver.DirEntry>, t: Task)
    requires RevisionTasks(ctx, noWorkers, preps, ts, rev, entries).Value?
    ensures t in RevisionTasks(ctx, noWorkers, preps, ts, rev, entries).value <==>
      exists i :: 0 <= i < |entries| && TaskFor(ctx, ts, rev, entries[i], t)
    decreases |entries|
  {
    if |entries| > 0 {
      var init := entries[..|entries| - 1];
      var last := entries[|entries| - 1];
      assert RevisionTasks(ctx, noWorkers, preps, ts, rev, entries)
        == Then(RevisionTasks(ctx, noWorkers, preps, ts, rev, init), EntryTasks(ctx, noWorkers, preps, ts, rev, last));
      RevisionTasksMembership(ctx, noWorkers, preps, ts, rev, init, t);
      EntryTasksMembership(ctx, noWorkers, preps, ts, rev, last, t);
      TaskForSplit(ctx, ts, rev, entries, init, t);
    }
  }

  /** Some entry has the task exactly when some entry before the last or
      the last one has it. */
  lemma TaskForSplit(ctx: Context, ts: string, rev: string, entries: seq<Resolver.DirEntry>,
                     init: seq<Resolver.DirEntry>, t: Task)
    requires |entries| > 0 && init == entries[..|entries| - 1]
    ensures (exists i :: 0 <= i < |entries| && TaskFor(ctx, ts, rev, entries[i], t)) <==>
      (exists i :: 0 <= i < |init| && TaskFor(ctx, ts, rev, init[i], t))
      || TaskFor(ctx, ts, rev, entries[|entries| - 1], t)
  {
    if exists i :: 0 <= i < |init| && TaskFor(ctx, ts, rev, init[i], t) {
      var i :| 0 <= i < |init| && TaskFor(ctx, ts, rev, init[i], t);
      assert entries[i] == init[i];
    }
    if exists i :: 0 <= i < |entries| && TaskFor(ctx, ts, rev, entries[i], t) {
      var i :| 0 <= i < |entries| && TaskFor(ctx, ts, rev, entries[i], t);
      if i < |init| { assert init[i] == entries[i]; }
    }
  }

  /** Entry `e` neither lacks an extension nor, when it is an image of
      a supported format, fails the preparation of its worker's checkout. */
  predicate GoesThrough(ctx: Context, preps: Preparations, ts: string, rev: string, e: Resolver.DirEntry) {
    !e.isDir ==>
      Extension(ImagePath(ctx, ts, e.name)).Some?
      && (Benchmarked(ctx, ts, e) ==>
            Prepare(rev, preps(ImageTask(ctx, ts, rev, e.name, FormatFromFileName(ImagePath(ctx, ts, e.name)).value))).Value?)
  }

  /** With at least one worker, a revision's entries are all handed out
      exactly when every file has an extension and every image's
      preparation succeeds. */
  lemma {:induction false} RevisionTasksSucceed(ctx: Context, preps: Preparations, ts: string, rev: string,
                                                entries: seq<Resolver.DirEntry>)
    ensures RevisionTasks(ctx, false, preps, ts, rev, entries).Value? <==>
      forall i :: 0 <= i < |entries| ==> GoesThrough(ctx, preps, ts, rev, entries[i])
    decreases |entries|
  {
    if |entries| > 0 {
      var init := entries[..|entries| - 1];
      RevisionTasksSucceed(ctx, preps, ts, rev, init);
      assert forall i :: 0 <= i < |init| ==> init[i] == entries[i];
      assert EntryTasks(ctx, false, preps, ts, rev, entries[|entries| - 1]).Value?
        <==> GoesThrough(ctx, preps, ts, rev, entries[|entries| - 1]);
    }
  }

  // ---------------------------------------------------------------------
  // The comparison policy

  /** What the policy check after a test set must do. */
  datatype Expected = ExpectOnlyOne(csv: string) | ExpectCompared(first: string, second: string)

  /** The check after a test set: two logs are compared (reading a missing
      log panics, and so does a pair of logs about different images); one
      log is only reported; more than two, or none, panics. */
  function Policy(csvs: seq<string>, logs: map<string, seq<ComparisonResult>>): (r: Outcome<Expected>)
    ensures r.Value? <==>
      |csvs| == 1
      || (|csvs| == 2 && csvs[0] in logs && csvs[1] in logs
          && Aligned(SortByName(logs[csvs[0]]), SortByName(logs[csvs[1]])))
    ensures r.Value? && |csvs| == 1 ==> r.value == ExpectOnlyOne(csvs[0])
    ensures r.Value? && |csvs| == 2 ==> r.value == ExpectCompared(csvs[0], csvs[1])
  {
    if |csvs| == 2 then
      if csvs[0] !in logs || csvs[1] !in logs then Panic("called `Result::unwrap()` on an `Err` value")
      else if !Aligned(SortByName(logs[csvs[0]]), SortByName(logs[csvs[1]])) then
        Panic("assertion failed in compare_results")
      else Value(ExpectCompared(csvs[0], csvs[1]))
    else if |csvs| == 1 then Value(ExpectOnlyOne(csvs[0]))
    else if |csvs| > 2 then Panic("More than 2 comparison CSVs found")
    else Panic("No comparison CSVs found")
  }

  // ---------------------------------------------------------------------
  // The loop as written

  /** What the as-written loop carries from one test set to the next. */
  datatype Carried = Carried(commit: string, flags: Flags, csvs: seq<string>)

  function InitialCarried(ctx: Context): Carried {
    Carried(BaseCommit(ctx), FlagsOf(ctx), [])
  }

  /** One test set as written: the commit loop starts from the carried
      revision and flags, leaves the last revision it visited and both
      flags cleared, and appends one log per visit to the carried list. */
  function AsWrittenTestSet(ctx: Context, st: Carried, ts: string): Carried {
    var revs := Visits(st.commit, st.flags);
    Carried(revs[|revs| - 1], NO_FLAGS, st.csvs + CsvPaths(ctx, ts, revs))
  }

  /** The log lists the as-written policy check sees, one per test set. */
  function AsWrittenChecks(ctx: Context, st: Carried, tss: seq<string>): (checks: seq<seq<string>>)
    ensures |checks| == |tss|
    decreases |tss|
  {
    if |tss| == 0 then []
    else
      var next := AsWrittenTestSet(ctx, st, tss[0]);
      [next.csvs] + AsWrittenChecks(ctx, next, tss[1..])
  }

  /** The first test set is benchmarked as intended. */
  lemma AsWrittenFirstTestSet(ctx: Context, tss: seq<string>)
    requires |tss| > 0
    ensures AsWrittenChecks(ctx, InitialCarried(ctx), tss)[0]
      == CsvPaths(ctx, tss[0], Visits(BaseCommit(ctx), FlagsOf(ctx)))
  {
  }

  /** Without comparison flags the `k`-th check sees the logs of all test
      sets up to the `k`-th, all at the base revision. */
  lemma {:induction false} AsWrittenNoFlagsAccumulates(ctx: Context, commit: string, pre: seq<string>,
                                                        tss: seq<string>, k: nat)
    requires k < |tss|
    ensures AsWrittenChecks(ctx, Carried(commit, NO_FLAGS, pre), tss)[k]
      == pre + seq(k + 1, j requires 0 <= j < k + 1 => CsvPath(ctx, tss[j], commit))
    decreases |tss|
  {
    var next := AsWrittenTestSet(ctx, Carried(commit, NO_FLAGS, pre), tss[0]);
    assert next == Carried(commit, NO_FLAGS, pre + [CsvPath(ctx, tss[0], commit)]);
    if k > 0 {
      AsWrittenNoFlagsAccumulates(ctx, commit, next.csvs, tss[1..], k - 1);
      assert next.csvs + seq(k, j requires 0 <= j < k => CsvPath(ctx, tss[1..][j], commit))
        == pre + seq(k + 1, j requires 0 <= j < k + 1 => CsvPath(ctx, tss[j], commit));
    }
  }

  /** As written, without comparison flags, the second test set compares
      its own log at the base revision with the first test set's. */
  lemma AsWrittenComparesAcrossTestSets(ctx: Context, ts1: string, ts2: string,
                                        logs: map<string, seq<ComparisonResult>>)
    requires FlagsOf(ctx) == NO_FLAGS
    ensures var checks := AsWrittenChecks(ctx, InitialCarried(ctx), [ts1, ts2]);
      checks[1] == [CsvPath(ctx, ts1, BaseCommit(ctx)), CsvPath(ctx, ts2, BaseCommit(ctx))]
      && (Policy(checks[1], logs).Value? ==>
            Policy(checks[1], logs).value
              == ExpectCompared(CsvPath(ctx, ts1, BaseCommit(ctx)), CsvPath(ctx, ts2, BaseCommit(ctx))))
  {
    AsWrittenNoFlagsAccumulates(ctx, BaseCommit(ctx), [], [ts1, ts2], 1);
  }

  /** As written, without comparison flags, a third test set panics. */
  lemma AsWrittenThirdTestSetPanics(ctx: Context, tss: seq<string>, logs: map<string, seq<ComparisonResult>>)
    requires FlagsOf(ctx) == NO_FLAGS && |tss| >= 3
    ensures Policy(AsWrittenChecks(ctx, InitialCarried(ctx), tss)[2], logs).Panic?
  {
    AsWrittenNoFlagsAccumulates(ctx, BaseCommit(ctx), [], tss, 2);
  }

  /** As written, with a revision to compare to, the second test set
      panics: its check sees three logs. */
  lemma AsWrittenComparisonPanicsOnSecondTestSet(ctx: Context, ts1: string, ts2: string,
                                                 logs: map<string, seq<ComparisonResult>>)
    requires FlagsOf(ctx) != NO_FLAGS && |Visits(BaseCommit(ctx), FlagsOf(ctx))| == 2
    ensures |AsWrittenChecks(ctx, InitialCarried(ctx), [ts1, ts2])[1]| == 3
    ensures Policy(AsWrittenChecks(ctx, InitialCarried(ctx), [ts1, ts2])[1], logs).Panic?
  {
    var first := AsWrittenTestSet(ctx, InitialCarried(ctx), ts1);
    assert |first.csvs| == 2 && first.flags == NO_FLAGS;
    assert [ts1, ts2][1..] == [ts2];
  }

  // ---------------------------------------------------------------------
  // The loop with the state reset for every test set

  /** One test set: the tasks its revisions hand out and what its policy
      check must do. */
  datatype TestSetPlan = TestSetPlan(tasks: seq<Task>, expected: Expected)

  function TestSetSpec(ctx: Context, noWorkers: bool, preps: Preparations, ts: string, entries: seq<Resolver.DirEntry>,
                       logs: map<string, seq<ComparisonResult>>): Outcome<TestSetPlan>
  {
    var revs := Visits(BaseCommit(ctx), FlagsOf(ctx));
    match RevisionsTasks(ctx, noWorkers, preps, ts, revs, entries)
    case Panic(m) => Panic(m)
    case Value(tasks) =>
      match Policy(CsvPaths(ctx, ts, revs), logs)
      case Panic(m) => Panic(m)
      case Value(e) => Value(TestSetPlan(tasks, e))
  }

  /** With the state reset, each test set compares its own base revision
      with its own second revision, or reports its only log; only asking
      for both a commit and the local tree panics, as the source's policy
      has it. */
  lemma ResetComparesWithinTestSet(ctx: Context, ts: string, logs: map<string, seq<ComparisonResult>>)
    ensures var revs := Visits(BaseCommit(ctx), FlagsOf(ctx));
      var p := Policy(CsvPaths(ctx, ts, revs), logs);
      (FlagsOf(ctx) == NO_FLAGS ==> p == Value(ExpectOnlyOne(CsvPath(ctx, ts, BaseCommit(ctx)))))
      && (|revs| == 2 && p.Value? ==> p.value == ExpectCompared(CsvPath(ctx, ts, revs[0]), CsvPath(ctx, ts, revs[1])))
      && (|revs| == 3 ==> p.Panic?)
  {
  }

  /** The whole run: the tasks of every test set, in order, and what each
      test set's check must do. Entries of `testSets` without a listing
      are not directories and are skipped. */
  datatype Plan = Plan(tasks: seq<Task>, expected: seq<Expected>)

  function RunSpec(ctx: Context, noWorkers: bool, preps: Preparations, testSets: seq<string>,
                   listings: map<string, seq<Resolver.DirEntry>>,
                   logs: map<string, seq<ComparisonResult>>): Outcome<Plan>
    decreases |testSets|
  {
    if |testSets| == 0 then Value(Plan([], []))
    else
      match RunSpec(ctx, noWorkers, preps, testSets[..|testSets| - 1], listings, logs)
      case Panic(m) => Panic(m)
      case Value(p) =>
        var ts := testSets[|testSets| - 1];
        if ts !in listings then Value(p)
        else
          match TestSetSpec(ctx, noWorkers, preps, ts, listings[ts], logs)
          case Panic(m) => Panic(m)
          case Value(q) => Value(Plan(p.tasks + q.tasks, p.expected + [q.expected]))
  }

  /** What the check after one test set did. */
  datatype TestSetResult = OnlyOne(csv: string) | Compared(first: string, second: string, report: Report)

  predicate Meets(res: TestSetResult, e: Expected, logs: map<string, seq<ComparisonResult>>) {
    match e
    case ExpectOnlyOne(c) => res == OnlyOne(c)
    case ExpectCompared(a, b) =>
      res.Compared? && res.first == a && res.second == b
      && a in logs && b in logs && ReportOf(logs[a], logs[b], res.report)
  }

  predicate MeetsAll(rs: seq<TestSetResult>, es: seq<Expected>, logs: map<string, seq<ComparisonResult>>) {
    |rs| == |es| && forall i :: 0 <= i < |rs| ==> Meets(rs[i], es[i], logs)
  }

  /** Lines 384-463 for one image of a supported format: take the next
      worker, prepare its checkout at the revision, point its payload at
      the image and launch its sweep. */
  method DispatchImage(b: Benchmarker, preps: Preparations, ctx: Context, ts: string, rev: string, name: string, format: ImageFormat)
    returns (r: Outcome<()>, ghost t: Task)
    requires b.Valid()
    modifies b, b.workers
    ensures b.Valid() && b.context == old(b.context) && b.picks == old(b.picks) + 1
    ensures t == ImageTask(ctx, ts, rev, name, format)
    ensures r.Panic? <==> |b.workers| == 0 || Prepare(rev, preps(t)).Panic?
    ensures r.Value? ==>
      var w := b.workers[old(b.picks) % |b.workers|];
      w.payload == WithTask(old(w.payload), t) && w.launched == old(w.launched) + [w.payload]
    ensures forall j :: 0 <= j < |b.workers| && j != old(b.picks) % |b.workers| ==>
      b.workers[j].State() == old(b.workers[j].State())
    ensures r.Panic? ==> forall j :: 0 <= j < |b.workers| ==>
      b.workers[j].launched == old(b.workers[j].launched) && b.workers[j].payload == old(b.workers[j].payload)
    ensures forall j :: 0 <= j < |b.workers| ==>
      TasksOf(b.workers[j].launched)
        == TasksOf(old(b.workers[j].launched)) + (if r.Value? && j == old(b.picks) % |b.workers| then [t] else [])
  {
    var task := ImageTask(ctx, ts, rev, name, format);
    t := task;
    var id := b.WaitForAvailableWorker();
    if id.Panic? {
      return Panic(id.reason), t;
    }
    var prepared := Prepare(rev, preps(task));
    if prepared.Panic? {
      return Panic(prepared.reason), t;
    }
    var worker := b.workers[id.value];
    var path := ImagePath(ctx, ts, name);
    worker.payload := worker.payload.(imageFilePath := path);
    worker.payload := worker.payload.(imageName := Sweep.Stem(name));
    worker.payload := worker.payload.(outOrigPath := OutputPathFor(ctx, "orig", ts, rev),
                                      outCompPath := OutputPathFor(ctx, "comp", ts, rev),
                                      resOrigPath := ResultPathFor(ctx, "orig", ts, rev),
                                      resCompPath := ResultPathFor(ctx, "comp", ts, rev));
    worker.payload := worker.payload.(imageFormat := format, testSet := ts);
    worker.payload := worker.payload.(context := ctx.(libjxlCommit := Some(rev)));
    var launched := worker.Run();
    assert launched.Value?;
    TasksOfSnoc(old(worker.launched), worker.payload);
    r := Value(());
  }

  /** One pass of the entry loop (lines 363-463): a directory, a file
      without an extension or a file of unsupported format is dealt with
      before any worker is taken; an image is dispatched. */
  method DispatchEntry(b: Benchmarker, preps: Preparations, ctx: Context, ts: string, rev: string,
                       e: Resolver.DirEntry, ghost start: nat, ghost before: seq<seq<Task>>, ghost tasks: seq<Task>)
    returns (r: Outcome<()>, ghost added: seq<Task>)
    requires b.Valid() && Dispatched(b.workers, start, before, tasks) && b.picks == start + |tasks|
    modifies b, b.workers
    ensures b.Valid() && b.context == old(b.context)
    ensures r.Panic? <==> EntryTasks(ctx, |b.workers| == 0, preps, ts, rev, e).Panic?
    ensures r.Value? ==> EntryTasks(ctx, |b.workers| == 0, preps, ts, rev, e) == Value(added)
    ensures r.Panic? ==> added == []
    ensures Dispatched(b.workers, start, before, tasks + added)
    ensures b.picks == start + |tasks| + |added| + (if r.Panic? && Benchmarked(ctx, ts, e) then 1 else 0)
  {
    added := [];
    assert tasks + added == tasks;
    if e.isDir {
      return Value(()), added;
    }
    var format := FormatFromFileName(ImagePath(ctx, ts, e.name));
    if format.Panic? {
      return Panic(format.reason), added;
    }
    if format.value == Unsupported {
      return Value(()), added;
    }
    r, added := DispatchTask(b, preps, ctx, ts, rev, e.name, format.value, start, before, tasks);
  }

  /** An image dispatched after the tasks `tasks`: its task joins the
      round-robin share of the worker it went to. */
  method DispatchTask(b: Benchmarker, preps: Preparations, ctx: Context, ts: string, rev: string,
                      name: string, format: ImageFormat,
                      ghost start: nat, ghost before: seq<seq<Task>>, ghost tasks: seq<Task>)
    returns (r: Outcome<()>, ghost added: seq<Task>)
    requires b.Valid() && Dispatched(b.workers, start, before, tasks) && b.picks == start + |tasks|
    modifies b, b.workers
    ensures b.Valid() && b.context == old(b.context)
    ensures r.Panic? <==> |b.workers| == 0 || Prepare(rev, preps(ImageTask(ctx, ts, rev, name, format))).Panic?
    ensures added == if r.Panic? then [] else [ImageTask(ctx, ts, rev, name, format)]
    ensures Dispatched(b.workers, start, before, tasks + added)
    ensures b.picks == start + |tasks| + 1
  {
    label pick:
    var dispatched, t := DispatchImage(b, preps, ctx, ts, rev, name, format);
    added := if dispatched.Panic? then [] else [t];
    AssignedSnoc(tasks, t, start, |b.workers|);
    forall j | 0 <= j < |b.workers|
      ensures Launches(b.workers)[j] == before[j] + Assigned(tasks + added, start, |b.workers|, j)
    {
      assert old@pick(Launches(b.workers))[j] == before[j] + Assigned(tasks, start, |b.workers|, j);
      if dispatched.Panic? {
        assert tasks + added == tasks;
      }
    }
    r := dispatched;
  }

  /** The entry loop of one revision (lines 362-464). */
  method DispatchRevision(b: Benchmarker, preps: Preparations, ctx: Context, ts: string, rev: string, entries: seq<Resolver.DirEntry>)
    returns (r: Outcome<()>, ghost tasks: seq<Task>)
    requires b.Valid()
    modifies b, b.workers
    ensures b.Valid() && b.context == old(b.context)
    ensures r.Panic? <==> RevisionTasks(ctx, |b.workers| == 0, preps, ts, rev, entries).Panic?
    ensures r.Value? ==> RevisionTasks(ctx, |b.workers| == 0, preps, ts, rev, entries) == Value(tasks)
    ensures Dispatched(b.workers, old(b.picks), old(Launches(b.workers)), tasks)
    ensures r.Value? ==> b.picks == old(b.picks) + |tasks|
    ensures r.Panic? ==> old(b.picks) + |tasks| <= b.picks <= old(b.picks) + |tasks| + 1
  {
    tasks := [];
    ghost var before := Launches(b.workers);
    assert Dispatched(b.workers, old(b.picks), before, tasks);
    var i := 0;
    while i < |entries|
      invariant 0 <= i <= |entries| && b.Valid() && b.context == old(b.context)
      invariant RevisionTasks(ctx, |b.workers| == 0, preps, ts, rev, entries[..i]) == Value(tasks)
      invariant Dispatched(b.workers, old(b.picks), before, tasks) && b.picks == old(b.picks) + |tasks|
    {
      assert entries[..i + 1][..i] == entries[..i];
      var e := entries[i];
      assert RevisionTasks(ctx, |b.workers| == 0, preps, ts, rev, entries[..i + 1])
        == Then(Value(tasks), EntryTasks(ctx, |b.workers| == 0, preps, ts, rev, e));
      var dispatched, added := DispatchEntry(b, preps, ctx, ts, rev, e, old(b.picks), before, tasks);
      tasks := tasks + added;
      if dispatched.Panic? {
        PanicPersists(ctx, |b.workers| == 0, preps, ts, rev, entries, i + 1);
        return Panic(dispatched.reason), tasks;
      }
      i := i + 1;
    }
    assert entries[..|entries|] == entries;
    r := Value(());
  }

  /** Once a prefix of the entries panics, so do all the entries. */
  lemma {:induction false} PanicPersists(ctx: Context, noWorkers: bool, preps: Preparations, ts: string, rev: string,
                                         entries: seq<Resolver.DirEntry>, n: nat)
    requires n <= |entries| && RevisionTasks(ctx, noWorkers, preps, ts, rev, entries[..n]).Panic?
    ensures RevisionTasks(ctx, noWorkers, preps, ts, rev, entries).Panic?
    decreases |entries| - n
  {
    if n < |entries| {
      assert entries[..n + 1][..n] == entries[..n];
      PanicPersists(ctx, noWorkers, preps, ts, rev, entries, n + 1);
    } else {
      assert entries[..n] == entries;
    }
  }

  /** Once a prefix of the revisions panics, so do all the revisions. */
  lemma {:induction false} RevisionsPanicPersists(ctx: Context, noWorkers: bool, preps: Preparations, ts: string, revs: seq<string>,
                                                  entries: seq<Resolver.DirEntry>, n: nat)
    requires n <= |revs| && RevisionsTasks(ctx, noWorkers, preps, ts, revs[..n], entries).Panic?
    ensures RevisionsTasks(ctx, noWorkers, preps, ts, revs, entries).Panic?
    decreases |revs| - n
  {
    if n < |revs| {
      assert revs[..n + 1][..n] == revs[..n];
      RevisionsPanicPersists(ctx, noWorkers, preps, ts, revs, entries, n + 1);
    } else {
      assert revs[..n] == revs;
    }
  }

  lemma RevisionsTasksSnoc(ctx: Context, noWorkers: bool, preps: Preparations, ts: string, revs: seq<string>, rev: string,
                           entries: seq<Resolver.DirEntry>)
    ensures RevisionsTasks(ctx, noWorkers, preps, ts, revs + [rev], entries)
      == Then(RevisionsTasks(ctx, noWorkers, preps, ts, revs, entries),
              RevisionTasks(RevisionContext(ctx, |revs|), noWorkers, preps, ts, rev, entries))
  {
    assert (revs + [rev])[..|revs|] == revs;
  }

  lemma CsvPathsSnoc(ctx: Context, ts: string, revs: seq<string>, rev: string)
    ensures CsvPaths(ctx, ts, revs + [rev]) == CsvPaths(ctx, ts, revs) + [CsvPath(ctx, ts, rev)]
  {
    assert (revs + [rev])[..|revs|] == revs;
  }

  /** Lines 474-485: move to the commit to compare to, else to the local
      tree, clearing the flag that was used; the revisions to come shrink by
      the one moved to. */
  method NextCommit(flags: Flags) returns (commit: Option<string>, next: Flags)
    requires flags != NO_FLAGS
    ensures commit.Some? && Pending(flags) == [commit.value] + Pending(next)
    ensures flags.compareToCommit.Some? ==> commit == flags.compareToCommit && next == flags.(compareToCommit := None)
    ensures flags.compareToCommit.None? ==> commit == Some("local") && next == NO_FLAGS
    ensures next == NextFlags(flags)
  {
    if flags.compareToCommit.Some? {
      commit := flags.compareToCommit;
      next := flags.(compareToCommit := None);
    } else {
      commit := if flags.compareToLocal then Some("local") else None;
      next := flags.(compareToLocal := false);
    }
  }

  /** The tasks of a list of per-revision outcomes, in order; the first
      panic wins. */
  function ThenAll(outs: seq<Outcome<seq<Task>>>): Outcome<seq<Task>>
    decreases |outs|
  {
    if |outs| == 0 then Value([]) else Then(ThenAll(outs[..|outs| - 1]), outs[|outs| - 1])
  }

  /** `outs` holds the outcome of each revision of `revs`. */
  ghost predicate OutcomesOf(ctx: Context, noWorkers: bool, preps: Preparations, ts: string, revs: seq<string>,
                             entries: seq<Resolver.DirEntry>, outs: seq<Outcome<seq<Task>>>)
  {
    |outs| == |revs|
    && forall k :: 0 <= k < |revs| ==> outs[k] == RevisionTasks(RevisionContext(ctx, k), noWorkers, preps, ts, revs[k], entries)
  }

  lemma {:induction false} RevisionsTasksOutcomes(ctx: Context, noWorkers: bool, preps: Preparations, ts: string, revs: seq<string>,
                                                  entries: seq<Resolver.DirEntry>, outs: seq<Outcome<seq<Task>>>)
    requires OutcomesOf(ctx, noWorkers, preps, ts, revs, entries, outs)
    ensures RevisionsTasks(ctx, noWorkers, preps, ts, revs, entries) == ThenAll(outs)
    decreases |revs|
  {
    if |revs| > 0 {
      var n := |revs| - 1;
      assert OutcomesOf(ctx, noWorkers, preps, ts, revs[..n], entries, outs[..n]);
      RevisionsTasksOutcomes(ctx, noWorkers, preps, ts, revs[..n], entries, outs[..n]);
    }
  }

  /** A panic among the revisions visited so far is a panic of all of them. */
  lemma PrefixPanics(ctx: Context, noWorkers: bool, preps: Preparations, ts: string, revs: seq<string>, visited: seq<string>,
                     entries: seq<Resolver.DirEntry>, outs: seq<Outcome<seq<Task>>>)
    requires |visited| <= |revs| && revs[..|visited|] == visited
    requires OutcomesOf(ctx, noWorkers, preps, ts, visited, entries, outs) && ThenAll(outs).Panic?
    ensures RevisionsTasks(ctx, noWorkers, preps, ts, revs, entries).Panic?
  {
    RevisionsTasksOutcomes(ctx, noWorkers, preps, ts, visited, entries, outs);
    RevisionsPanicPersists(ctx, noWorkers, preps, ts, revs, entries, |visited|);
  }

  /** One pass of the commit loop: benchmark `rev`, record its outcome and
      add its result log to the list (lines 338-468). */
  method VisitRevision(b: Benchmarker, ctx: Context, context: Context, ts: string, rev: string, entries: seq<Resolver.DirEntry>,
                       ghost noWorkers: bool, preps: Preparations, ghost visited: seq<string>, ghost outs: seq<Outcome<seq<Task>>>,
                       ghost tasks: seq<Task>, csvs: seq<string>, ghost start: nat, ghost before: seq<seq<Task>>)
    returns (r: Outcome<()>, ghost visited': seq<string>, ghost outs': seq<Outcome<seq<Task>>>,
             ghost tasks': seq<Task>, csvs': seq<string>)
    requires b.Valid() && noWorkers == (|b.workers| == 0) && context == RevisionContext(ctx, |visited|)
    requires OutcomesOf(ctx, noWorkers, preps, ts, visited, entries, outs) && ThenAll(outs) == Value(tasks)
    requires csvs == CsvPaths(ctx, ts, visited)
    requires Dispatched(b.workers, start, before, tasks) && b.picks == start + |tasks|
    modifies b, b.workers
    ensures b.Valid() && b.context == old(b.context) && noWorkers == (|b.workers| == 0)
    ensures visited' == visited + [rev] && OutcomesOf(ctx, noWorkers, preps, ts, visited', entries, outs')
    ensures r.Panic? <==> ThenAll(outs').Panic?
    ensures r.Value? ==> ThenAll(outs') == Value(tasks') && csvs' == CsvPaths(ctx, ts, visited')
    ensures Dispatched(b.workers, start, before, tasks')
    ensures r.Value? ==> b.picks == start + |tasks'|
    ensures r.Panic? ==> start + |tasks'| <= b.picks <= start + |tasks'| + 1
  {
    ghost var revTasks;
    r, revTasks := DispatchRevisionAfter(b, preps, context, ts, rev, entries, start, before, tasks);
    ghost var out := RevisionTasks(context, noWorkers, preps, ts, rev, entries);
    OutcomesSnoc(ctx, noWorkers, preps, ts, visited, rev, entries, outs, out);
    visited', outs', tasks' := visited + [rev], outs + [out], tasks + revTasks;
    if r.Panic? {
      return r, visited', outs', tasks', csvs;
    }
    CsvPathsSnoc(ctx, ts, visited, rev);
    csvs' := csvs + [CsvPath(ctx, ts, rev)];
  }

  /** A revision dispatched after the tasks `done`. */
  method DispatchRevisionAfter(b: Benchmarker, preps: Preparations, ctx: Context, ts: string, rev: string,
                               entries: seq<Resolver.DirEntry>,
                               ghost start: nat, ghost before: seq<seq<Task>>, ghost done: seq<Task>)
    returns (r: Outcome<()>, ghost tasks: seq<Task>)
    requires b.Valid() && Dispatched(b.workers, start, before, done) && b.picks == start + |done|
    modifies b, b.workers
    ensures b.Valid() && b.context == old(b.context)
    ensures r.Panic? <==> RevisionTasks(ctx, |b.workers| == 0, preps, ts, rev, entries).Panic?
    ensures r.Value? ==> RevisionTasks(ctx, |b.workers| == 0, preps, ts, rev, entries) == Value(tasks)
    ensures Dispatched(b.workers, start, before, done + tasks)
    ensures r.Value? ==> b.picks == start + |done| + |tasks|
    ensures r.Panic? ==> start + |done| + |tasks| <= b.picks <= start + |done| + |tasks| + 1
  {
    ghost var mid := Launches(b.workers);
    r, tasks := DispatchRevision(b, preps, ctx, ts, rev, entries);
    SharedConcat(Launches(b.workers), mid, before, done, tasks, start);
  }

  /** Adding a revision's outcome keeps the outcome list in step. */
  lemma OutcomesSnoc(ctx: Context, noWorkers: bool, preps: Preparations, ts: string, visited: seq<string>, rev: string,
                     entries: seq<Resolver.DirEntry>, outs: seq<Outcome<seq<Task>>>, out: Outcome<seq<Task>>)
    requires OutcomesOf(ctx, noWorkers, preps, ts, visited, entries, outs)
    requires out == RevisionTasks(RevisionContext(ctx, |visited|), noWorkers, preps, ts, rev, entries)
    ensures OutcomesOf(ctx, noWorkers, preps, ts, visited + [rev], entries, outs + [out])
    ensures ThenAll(outs + [out]) == Then(ThenAll(outs), out)
  {
    var revs, outs' := visited + [rev], outs + [out];
    forall k | 0 <= k < |revs|
      ensures outs'[k] == RevisionTasks(RevisionContext(ctx, k), noWorkers, preps, ts, revs[k], entries)
    {
      if k < |visited| {
        assert outs'[k] == outs[k] && revs[k] == visited[k];
      }
    }
    assert outs'[..|outs|] == outs;
  }

  /** The revisions the loop has still to visit, the current one first. */
  function Remaining(commit: Option<string>, flags: Flags): seq<string> {
    if commit.None? then [] else [commit.value] + Pending(flags)
  }

  lemma Visited(visited: seq<string>, rev: string, rest: seq<string>, revs: seq<string>)
    requires visited + ([rev] + rest) == revs
    ensures |visited| < |revs| && (visited + [rev]) + rest == revs
  {
  }

  /** The commit loop of one test set (lines 337-487), with the revision
      and the flags starting afresh: benchmark each revision in turn and
      collect the log path of each. */
  method DispatchRevisions(b: Benchmarker, preps: Preparations, ctx: Context, ts: string, entries: seq<Resolver.DirEntry>)
    returns (r: Outcome<seq<string>>, ghost tasks: seq<Task>)
    requires b.Valid()
    modifies b, b.workers
    ensures b.Valid() && b.context == old(b.context)
    ensures var spec := RevisionsTasks(ctx, |b.workers| == 0, preps, ts, Visits(BaseCommit(ctx), FlagsOf(ctx)), entries);
      (r.Panic? <==> spec.Panic?)
      && (r.Value? ==> spec == Value(tasks) && r.value == CsvPaths(ctx, ts, Visits(BaseCommit(ctx), FlagsOf(ctx))))
    ensures Dispatched(b.workers, old(b.picks), old(Launches(b.workers)), tasks)
    ensures r.Value? ==> b.picks == old(b.picks) + |tasks|
    ensures r.Panic? ==> old(b.picks) + |tasks| <= b.picks <= old(b.picks) + |tasks| + 1
  {
    ghost var revs := Visits(BaseCommit(ctx), FlagsOf(ctx));
    ghost var visited, outs;
    r, tasks, visited, outs := CommitLoop(b, preps, ctx, ts, entries, revs);
    if r.Panic? {
      PrefixPanics(ctx, |b.workers| == 0, preps, ts, revs, visited, entries, outs);
    } else {
      RevisionsTasksOutcomes(ctx, |b.workers| == 0, preps, ts, revs, entries, outs);
    }
  }

  /** The loop itself, stated over the outcome of each revision visited. */
  method CommitLoop(b: Benchmarker, preps: Preparations, ctx: Context, ts: string, entries: seq<Resolver.DirEntry>, ghost revs: seq<string>)
    returns (r: Outcome<seq<string>>, ghost tasks: seq<Task>, ghost visited: seq<string>,
             ghost outs: seq<Outcome<seq<Task>>>)
    requires b.Valid() && revs == Visits(BaseCommit(ctx), FlagsOf(ctx))
    modifies b, b.workers
    ensures b.Valid() && b.context == old(b.context)
    ensures OutcomesOf(ctx, |b.workers| == 0, preps, ts, visited, entries, outs)
    ensures |visited| <= |revs| && revs[..|visited|] == visited
    ensures r.Panic? <==> ThenAll(outs).Panic?
    ensures r.Value? ==> visited == revs && ThenAll(outs) == Value(tasks) && r.value == CsvPaths(ctx, ts, revs)
    ensures Dispatched(b.workers, old(b.picks), old(Launches(b.workers)), tasks)
    ensures r.Value? ==> b.picks == old(b.picks) + |tasks|
    ensures r.Panic? ==> old(b.picks) + |tasks| <= b.picks <= old(b.picks) + |tasks| + 1
  {
    ghost var noWorkers := |b.workers| == 0;
    ghost var before := Launches(b.workers);
    var commit: Option<string> := Some(BaseCommit(ctx));
    var flags := FlagsOf(ctx);
    var csvs: seq<string> := [];
    visited, outs, tasks := [], [], [];
    while commit.Some?
      invariant b.Valid() && b.context == old(b.context) && noWorkers == (|b.workers| == 0)
      invariant Dispatched(b.workers, old(b.picks), before, tasks) && b.picks == old(b.picks) + |tasks|
      invariant visited + Remaining(commit, flags) == revs && flags == FlagsAfter(FlagsOf(ctx), |visited|)
      invariant OutcomesOf(ctx, noWorkers, preps, ts, visited, entries, outs) && ThenAll(outs) == Value(tasks)
      invariant csvs == CsvPaths(ctx, ts, visited)
      decreases |Remaining(commit, flags)|
    {
      var dispatched;
      dispatched, commit, flags, visited, outs, tasks, csvs :=
        CommitStep(b, ctx, ts, entries, commit.value, flags, noWorkers, preps, visited, outs, tasks, csvs, revs,
                   old(b.picks), before);
      if dispatched.Panic? {
        return Panic(dispatched.reason), tasks, visited, outs;
      }
    }
    assert revs[..|visited|] == visited;
    r := Value(csvs);
  }

  /** One pass of the commit loop: benchmark `rev`, then take the next
      revision the flags ask for, if any. */
  method CommitStep(b: Benchmarker, ctx: Context, ts: string, entries: seq<Resolver.DirEntry>, rev: string,
                    flags: Flags, ghost noWorkers: bool, preps: Preparations, ghost visited: seq<string>,
                    ghost outs: seq<Outcome<seq<Task>>>, ghost tasks: seq<Task>, csvs: seq<string>,
                    ghost revs: seq<string>, ghost start: nat, ghost before: seq<seq<Task>>)
    returns (r: Outcome<()>, commit: Option<string>, next: Flags, ghost visited': seq<string>,
             ghost outs': seq<Outcome<seq<Task>>>, ghost tasks': seq<Task>, csvs': seq<string>)
    requires b.Valid() && noWorkers == (|b.workers| == 0)
    requires visited + Remaining(Some(rev), flags) == revs && flags == FlagsAfter(FlagsOf(ctx), |visited|)
    requires OutcomesOf(ctx, noWorkers, preps, ts, visited, entries, outs) && ThenAll(outs) == Value(tasks)
    requires csvs == CsvPaths(ctx, ts, visited)
    requires Dispatched(b.workers, start, before, tasks) && b.picks == start + |tasks|
    modifies b, b.workers
    ensures b.Valid() && b.context == old(b.context) && noWorkers == (|b.workers| == 0)
    ensures Dispatched(b.workers, start, before, tasks')
    ensures r.Value? ==> b.picks == start + |tasks'|
    ensures r.Panic? ==> start + |tasks'| <= b.picks <= start + |tasks'| + 1
    ensures OutcomesOf(ctx, noWorkers, preps, ts, visited', entries, outs')
    ensures |visited'| <= |revs| && revs[..|visited'|] == visited'
    ensures r.Panic? <==> ThenAll(outs').Panic?
    ensures r.Value? ==>
      && ThenAll(outs') == Value(tasks') && csvs' == CsvPaths(ctx, ts, visited')
      && visited' + Remaining(commit, next) == revs
      && |Remaining(commit, next)| < |Remaining(Some(rev), flags)|
      && next == NextFlags(flags) && next == FlagsAfter(FlagsOf(ctx), |visited'|)
  {
    var context := WithFlags(ctx, flags);
    r, visited', outs', tasks', csvs' := VisitRevision(b, ctx, context, ts, rev, entries, noWorkers, preps, visited, outs, tasks, csvs,
                                                      start, before);
    commit, next := AdvanceCommit(flags, ctx, visited, rev, revs);
  }

  /** Lines 470-485 after a revision: stop without flags, otherwise move
      to the next revision they ask for; `rev` joins the visited ones. */
  method AdvanceCommit(flags: Flags, ghost ctx: Context, ghost visited: seq<string>, ghost rev: string, ghost revs: seq<string>)
    returns (commit: Option<string>, next: Flags)
    requires visited + Remaining(Some(rev), flags) == revs && flags == FlagsAfter(FlagsOf(ctx), |visited|)
    ensures (visited + [rev]) + Remaining(commit, next) == revs
    ensures |visited| < |revs| && revs[..|visited| + 1] == visited + [rev]
    ensures |Remaining(commit, next)| < |Remaining(Some(rev), flags)|
    ensures commit.None? <==> flags == NO_FLAGS
    ensures next == NextFlags(flags) && next == FlagsAfter(FlagsOf(ctx), |visited| + 1)
  {
    Visited(visited, rev, Pending(flags), revs);
    assert revs[..|visited| + 1] == visited + [rev];
    FlagsAfterNext(FlagsOf(ctx), |visited|);
    if flags == NO_FLAGS {
      commit, next := None, flags;
    } else {
      commit, next := NextCommit(flags);
    }
  }

  /** One test set (lines 337-502), with the revision, the flags and the
      list of logs starting afresh. */
  method RunTestSet(b: Benchmarker, preps: Preparations, ctx: Context, ts: string, entries: seq<Resolver.DirEntry>,
                    logs: map<string, seq<ComparisonResult>>)
    returns (r: Outcome<TestSetResult>, ghost tasks: seq<Task>)
    requires b.Valid()
    modifies b, b.workers
    ensures b.Valid() && b.context == old(b.context)
    ensures r.Panic? <==> TestSetSpec(ctx, |b.workers| == 0, preps, ts, entries, logs).Panic?
    ensures r.Value? ==>
      var plan := TestSetSpec(ctx, |b.workers| == 0, preps, ts, entries, logs).value;
      tasks == plan.tasks && Meets(r.value, plan.expected, logs)
    ensures r.Value? ==> forall j :: 0 <= j < |b.workers| ==> Idle(b.workers[j])
    ensures Dispatched(b.workers, old(b.picks), old(Launches(b.workers)), tasks)
    ensures r.Value? ==> b.picks == old(b.picks) + |tasks|
    ensures r.Panic? ==> old(b.picks) + |tasks| <= b.picks <= old(b.picks) + |tasks| + 1
  {
    var dispatched;
    dispatched, tasks := DispatchRevisions(b, preps, ctx, ts, entries);
    if dispatched.Panic? {
      return Panic(dispatched.reason), tasks;
    }
    var csvs := dispatched.value;
    ghost var launches := Launches(b.workers);
    b.WaitForAllWorkers();
    assert Launches(b.workers) == launches;
    r := ApplyPolicy(csvs, logs);
  }

  /** The check after a test set (lines 491-501): compare two logs, report
      one, panic otherwise. */
  method ApplyPolicy(csvs: seq<string>, logs: map<string, seq<ComparisonResult>>) returns (r: Outcome<TestSetResult>)
    ensures r.Panic? <==> Policy(csvs, logs).Panic?
    ensures r.Value? ==> Meets(r.value, Policy(csvs, logs).value, logs)
  {
    if |csvs| == 2 {
      if csvs[0] !in logs || csvs[1] !in logs {
        return Panic("called `Result::unwrap()` on an `Err` value");
      }
      var report := CompareResults(logs[csvs[0]], logs[csvs[1]]);
      if report.Panic? {
        return Panic(report.reason);
      }
      r := Value(Compared(csvs[0], csvs[1], report.value));
    } else if |csvs| == 1 {
      r := Value(OnlyOne(csvs[0]));
    } else if |csvs| > 2 {
      r := Panic("More than 2 comparison CSVs found");
    } else {
      r := Panic("No comparison CSVs found");
    }
  }

  /** `run_benchmark`, with the per-test-set state reset: number the run,
      then run every test set that is a directory. `runNames` lists the
      benchmark directory, `listings` maps each test set that is a
      directory to its entries, `logs` holds each result log's rows. */
  method RunBenchmark(b: Benchmarker, preps: Preparations, benchDirExists: bool, runNames: seq<string>,
                      listings: map<string, seq<Resolver.DirEntry>>,
                      logs: map<string, seq<ComparisonResult>>)
    returns (r: Outcome<seq<TestSetResult>>, ghost tasks: seq<Task>)
    requires b.Valid()
    modifies b, b.workers
    ensures b.Valid()
    ensures (benchDirExists && exists i :: 0 <= i < |runNames| && ParseUsize(runNames[i]) == Some(USIZE_MAX))
      ==> r.Panic?
    ensures !(benchDirExists && exists i :: 0 <= i < |runNames| && ParseUsize(runNames[i]) == Some(USIZE_MAX))
      ==> b.context == old(b.context).(currentRun := b.context.currentRun)
          && (r.Panic? <==> RunSpec(b.context, |b.workers| == 0, preps, b.context.testSets, listings, logs).Panic?)
          && (forall i :: 0 <= i < |runNames| && benchDirExists && ParseUsize(runNames[i]).Some? ==>
                ParseUsize(runNames[i]).value < b.context.currentRun)
          && (!benchDirExists ==> b.context.currentRun == 0)
          && (b.context.currentRun > 0 ==>
                benchDirExists && exists i :: 0 <= i < |runNames| && ParseUsize(runNames[i]) == Some(b.context.currentRun - 1))
    ensures r.Value? ==>
      var plan := RunSpec(b.context, |b.workers| == 0, preps, b.context.testSets, listings, logs);
      plan.Value? && tasks == plan.value.tasks && MeetsAll(r.value, plan.value.expected, logs)
    ensures Dispatched(b.workers, old(b.picks), old(Launches(b.workers)), tasks)
    ensures r.Value? ==> b.picks == old(b.picks) + |tasks|
    ensures r.Panic? ==> old(b.picks) + |tasks| <= b.picks <= old(b.picks) + |tasks| + 1
  {
    var run := Resolver.GetCurrentRun(benchDirExists, runNames);
    if run.Panic? {
      SharedNothing(Launches(b.workers), b.picks);
      return Panic(run.reason), [];
    }
    b.context := b.context.(currentRun := run.value);
    r, tasks := RunTestSets(b, preps, listings, logs);
  }

  /** The test-set loop (lines 326-502), every test set starting afresh. */
  method RunTestSets(b: Benchmarker, preps: Preparations, listings: map<string, seq<Resolver.DirEntry>>,
                     logs: map<string, seq<ComparisonResult>>)
    returns (r: Outcome<seq<TestSetResult>>, ghost tasks: seq<Task>)
    requires b.Valid()
    modifies b, b.workers
    ensures b.Valid() && b.context == old(b.context)
    ensures var plan := RunSpec(b.context, |b.workers| == 0, preps, b.context.testSets, listings, logs);
      (r.Panic? <==> plan.Panic?)
      && (r.Value? ==> tasks == plan.value.tasks && MeetsAll(r.value, plan.value.expected, logs))
    ensures Dispatched(b.workers, old(b.picks), old(Launches(b.workers)), tasks)
    ensures r.Value? ==> b.picks == old(b.picks) + |tasks|
    ensures r.Panic? ==> old(b.picks) + |tasks| <= b.picks <= old(b.picks) + |tasks| + 1
  {
    tasks := [];
    ghost var before := Launches(b.workers);
    SharedNothing(before, b.picks);
    var ctx := b.context;
    var testSets := ctx.testSets;
    var results: seq<TestSetResult> := [];
    ghost var expected: seq<Expected> := [];
    var i := 0;
    while i < |testSets|
      invariant 0 <= i <= |testSets| && b.Valid() && b.context == ctx
      invariant RunSpec(ctx, |b.workers| == 0, preps, testSets[..i], listings, logs) == Value(Plan(tasks, expected))
      invariant MeetsAll(results, expected, logs)
      invariant Dispatched(b.workers, old(b.picks), before, tasks) && b.picks == old(b.picks) + |tasks|
    {
      var res;
      res, tasks, expected, results :=
        RunNextTestSet(b, preps, ctx, testSets, i, listings, logs, tasks, expected, results, old(b.picks), before);
      if res.Panic? {
        return Panic(res.reason), tasks;
      }
      i := i + 1;
    }
    assert testSets[..|testSets|] == testSets;
    r := Value(results);
  }

  /** One pass of the test-set loop: skip an entry that is not a directory,
      otherwise run the test set and add its result. */
  method RunNextTestSet(b: Benchmarker, preps: Preparations, ctx: Context, testSets: seq<string>, i: nat,
                        listings: map<string, seq<Resolver.DirEntry>>, logs: map<string, seq<ComparisonResult>>,
                        ghost tasks: seq<Task>, ghost expected: seq<Expected>, results: seq<TestSetResult>,
                        ghost start: nat, ghost before: seq<seq<Task>>)
    returns (r: Outcome<()>, ghost tasks': seq<Task>, ghost expected': seq<Expected>, results': seq<TestSetResult>)
    requires i < |testSets| && b.Valid() && b.context == ctx
    requires RunSpec(ctx, |b.workers| == 0, preps, testSets[..i], listings, logs) == Value(Plan(tasks, expected))
    requires MeetsAll(results, expected, logs)
    requires Dispatched(b.workers, start, before, tasks) && b.picks == start + |tasks|
    modifies b, b.workers
    ensures b.Valid() && b.context == ctx
    ensures Dispatched(b.workers, start, before, tasks')
    ensures r.Value? ==> b.picks == start + |tasks'|
    ensures r.Panic? ==> start + |tasks'| <= b.picks <= start + |tasks'| + 1
    ensures r.Panic? ==> RunSpec(ctx, |b.workers| == 0, preps, testSets, listings, logs).Panic?
    ensures r.Value? ==>
      RunSpec(ctx, |b.workers| == 0, preps, testSets[..i + 1], listings, logs) == Value(Plan(tasks', expected'))
      && MeetsAll(results', expected', logs)
  {
    var ts := testSets[i];
    if ts !in listings {
      RunSpecSkip(ctx, |b.workers| == 0, preps, testSets, i, listings, logs);
      return Value(()), tasks, expected, results;
    }
    var res, t := RunListedTestSet(b, preps, ctx, ts, listings[ts], logs, start, before, tasks);
    tasks' := tasks + t;
    if res.Panic? {
      RunPanicPersists(ctx, |b.workers| == 0, preps, testSets, listings, logs, i + 1);
      return Panic(res.reason), tasks', expected, results;
    }
    RunSpecStep(ctx, |b.workers| == 0, preps, testSets, i, listings, logs);
    expected' := expected + [TestSetSpec(ctx, |b.workers| == 0, preps, ts, listings[ts], logs).value.expected];
    results' := results + [res.value];
    r := Value(());
  }

  /** A test set that is a directory, run after the tasks `done`. */
  method RunListedTestSet(b: Benchmarker, preps: Preparations, ctx: Context, ts: string, entries: seq<Resolver.DirEntry>,
                          logs: map<string, seq<ComparisonResult>>,
                          ghost start: nat, ghost before: seq<seq<Task>>, ghost done: seq<Task>)
    returns (r: Outcome<TestSetResult>, ghost tasks: seq<Task>)
    requires b.Valid() && b.context == ctx
    requires Dispatched(b.workers, start, before, done) && b.picks == start + |done|
    modifies b, b.workers
    ensures b.Valid() && b.context == ctx
    ensures r.Panic? <==> TestSetSpec(ctx, |b.workers| == 0, preps, ts, entries, logs).Panic?
    ensures r.Value? ==>
      var plan := TestSetSpec(ctx, |b.workers| == 0, preps, ts, entries, logs).value;
      tasks == plan.tasks && Meets(r.value, plan.expected, logs)
    ensures Dispatched(b.workers, start, before, done + tasks)
    ensures r.Value? ==> b.picks == start + |done| + |tasks|
    ensures r.Panic? ==> start + |done| + |tasks| <= b.picks <= start + |done| + |tasks| + 1
  {
    ghost var mid := Launches(b.workers);
    r, tasks := RunTestSet(b, preps, ctx, ts, entries, logs);
    SharedConcat(Launches(b.workers), mid, before, done, tasks, start);
  }

  /** A test set that is not a directory leaves the plan as it was. */
  lemma RunSpecSkip(ctx: Context, noWorkers: bool, preps: Preparations, testSets: seq<string>, i: nat,
                    listings: map<string, seq<Resolver.DirEntry>>, logs: map<string, seq<ComparisonResult>>)
    requires i < |testSets| && testSets[i] !in listings
    ensures RunSpec(ctx, noWorkers, preps, testSets[..i + 1], listings, logs)
      == RunSpec(ctx, noWorkers, preps, testSets[..i], listings, logs)
  {
    assert testSets[..i + 1][..i] == testSets[..i];
  }

  /** A test set that is a directory adds its tasks and its check to the
      plan, or makes it panic. */
  lemma RunSpecStep(ctx: Context, noWorkers: bool, preps: Preparations, testSets: seq<string>, i: nat,
                    listings: map<string, seq<Resolver.DirEntry>>, logs: map<string, seq<ComparisonResult>>)
    requires i < |testSets| && testSets[i] in listings
    ensures var p := RunSpec(ctx, noWorkers, preps, testSets[..i], listings, logs);
      var q := TestSetSpec(ctx, noWorkers, preps, testSets[i], listings[testSets[i]], logs);
      RunSpec(ctx, noWorkers, preps, testSets[..i + 1], listings, logs)
        == if p.Panic? then p
           else if q.Panic? then Panic(q.reason)
           else Value(Plan(p.value.tasks + q.value.tasks, p.value.expected + [q.value.expected]))
  {
    assert testSets[..i + 1][..i] == testSets[..i];
  }

  /** Once a prefix of the test sets panics, so does the whole run. */
  lemma {:induction false} RunPanicPersists(ctx: Context, noWorkers: bool, preps: Preparations, testSets: seq<string>,
                                            listings: map<string, seq<Resolver.DirEntry>>,
                                            logs: map<string, seq<ComparisonResult>>, n: nat)
    requires n <= |testSets| && RunSpec(ctx, noWorkers, preps, testSets[..n], listings, logs).Panic?
    ensures RunSpec(ctx, noWorkers, preps, testSets, listings, logs).Panic?
    decreases |testSets| - n
  {
    if n < |testSets| {
      assert testSets[..n + 1][..n] == testSets[..n];
      RunPanicPersists(ctx, noWorkers, preps, testSets, listings, logs, n + 1);
    } else {
      assert testSets[..n] == testSets;
    }
  }
}
