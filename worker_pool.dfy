/** The worker pool of `benchmark.rs`: `BenchmarkWorker`, which runs one
    encoder sweep at a time on a thread of its own, and `Benchmarker`, which
    hands images to its workers round-robin, waiting for a worker's previous
    sweep before giving it the next one. Threads are not modelled: a worker
    records the payloads it launched and how many of them have been joined,
    and joining stands for waiting until that sweep has finished.
 */
module WorkerPool {
  import opened Wrappers
  import opened Text
  import opened ImageReader
  import Docker
  import Resolver

  /** The run configuration (`Config`), as `main.rs` builds it. */
  datatype Config = Config(
    benchmarkDirPath: string, dockerFilePath: string, localTestImageDirPath: string,
    dockerTestImageDirPath: string, numWorkers: nat, useTempDir: bool,
    libjxlCommit: Option<string>, compareToLocal: bool, compareToCommit: Option<string>)

  /** `Config::default()`. */
  const DEFAULT_CONFIG := Config("./benchmarks", "./Dockerfile", "./test_images", "/test_images",
                                 6, false, None, false, None)

  /** What every worker is given about the run (`Context`). */
  datatype Context = Context(
    benchmarkDir: string, testSets: seq<string>, currentRun: nat, localTestImageDir: string,
    dockerTestImageDir: string, numWorkers: nat, useTempDir: bool,
    libjxlCommit: Option<string>, compareToLocal: bool, compareToCommit: Option<string>)

  const DEFAULT_LIBJXL_COMMIT := "main"

  /** The job of one worker (`WorkerPayload`). */
  datatype Payload = Payload(
    context: Context, workerId: nat,
    outOrigPath: string, outCompPath: string, resOrigPath: string, resCompPath: string,
    imageName: string, imageFilePath: string, imageFormat: ImageFormat, testSet: string)

  /** The payload a worker starts with in `Benchmarker::new`. */
  function InitialPayload(context: Context, id: nat): Payload {
    Payload(context, id, "", "", "", "", "", "", Unsupported, "")
  }

  /** One worker: its container, its thread and its current payload. */
  class BenchmarkWorker {
    const id: nat
    var docker: Docker.DockerManager?
    var hasHandle: bool
    var working: bool
    var payload: Payload
    /** The payloads whose sweeps this worker launched, oldest first. */
    ghost var launched: seq<Payload>
    /** How many of those sweeps have been joined. */
    ghost var completed: nat

    /** A worker is busy exactly while it holds a thread handle, and only
        its latest sweep can still be running. */
    ghost predicate Valid()
      reads this
    {
      working == hasHandle && |launched| == completed + (if hasHandle then 1 else 0)
    }

    /** Everything about the worker, for stating what a call leaves alone. */
    ghost function State(): (Docker.DockerManager?, bool, bool, Payload, seq<Payload>, nat)
      reads this
    {
      (docker, hasHandle, working, payload, launched, completed)
    }

    /** `BenchmarkWorker::new`. */
    constructor (id: nat, payload: Payload)
      ensures Valid() && this.id == id && this.payload == payload
      ensures docker == null && !hasHandle && !working && launched == [] && completed == 0
    {
      this.id := id;
      this.payload := payload;
      docker := null;
      hasHandle := false;
      working := false;
      launched := [];
      completed := 0;
    }

    /** Take the thread handle and join it: the running sweep has finished. */
    method Join()
      requires Valid() && hasHandle
      modifies this
      ensures Valid() && !hasHandle && !working
      ensures completed == old(completed) + 1 && completed == |launched|
      ensures launched == old(launched) && docker == old(docker) && payload == old(payload)
    {
      hasHandle := false;
      working := false;
      completed := completed + 1;
    }

    /** `BenchmarkWorker::run`: join the previous sweep if there is one, then
        launch a sweep of the current payload on a copy of the container
        manager. Without a container manager the `unwrap` panics, after the
        join. */
    method Run() returns (r: Outcome<()>)
      requires Valid()
      modifies this
      ensures Valid() && docker == old(docker) && payload == old(payload)
      ensures completed == old(completed) + (if old(hasHandle) then 1 else 0)
      ensures r.Panic? <==> docker == null
      ensures r.Value? ==> hasHandle && working && launched == old(launched) + [payload]
      ensures r.Panic? ==> !hasHandle && launched == old(launched)
    {
      if hasHandle {
        Join();
      }
      if docker == null {
        return Panic("called `Option::unwrap()` on a `None` value");
      }
      working := true;
      hasHandle := true;
      launched := launched + [payload];
      r := Value(());
    }
  }

  /** A worker that has nothing left to wait for. */
  ghost predicate Idle(w: BenchmarkWorker)
    reads w
  {
    !w.hasHandle && !w.working && w.completed == |w.launched|
  }

  /** The pool (`Benchmarker`). */
  class Benchmarker {
    var context: Context
    const workers: seq<BenchmarkWorker>
    /** The worker the next image goes to (`current_worker_id`). */
    var cursor: nat
    /** How many times a worker has been picked. */
    ghost var picks: nat

    /** Worker `i` has id `i`, is valid and has its container manager; the
        cursor follows the picks round-robin. */
    ghost predicate Valid()
      reads this, workers
    {
      |workers| == context.numWorkers
      && (forall i :: 0 <= i < |workers| ==>
            workers[i].id == i && workers[i].Valid() && workers[i].docker != null)
      && (if |workers| == 0 then cursor == 0 else cursor == picks % |workers|)
    }

    constructor Init(context: Context, workers: seq<BenchmarkWorker>)
      requires |workers| == context.numWorkers
      requires forall i :: 0 <= i < |workers| ==>
        workers[i].id == i && workers[i].Valid() && workers[i].docker != null
      ensures Valid() && this.context == context && this.workers == workers
      ensures cursor == 0 && picks == 0
    {
      this.context := context;
      this.workers := workers;
      cursor := 0;
      picks := 0;
    }

    /** Worker `i` is the only worker that is `w`. */
    lemma WorkersDistinct(i: nat, j: nat)
      requires Valid() && i < |workers| && j < |workers| && workers[i] == workers[j]
      ensures i == j
    {
    }

    /** `get_next_worker_id`: the cursor, which then moves to the next worker,
        wrapping to 0 after the last. */
    method GetNextWorkerId() returns (id: nat)
      requires Valid()
      modifies this
      ensures Valid() && context == old(context) && picks == old(picks) + 1
      ensures id == old(cursor)
      ensures |workers| > 0 ==> id == old(picks) % |workers| && id < |workers|
      ensures |workers| == 0 ==> id == 0
    {
      id := cursor;
      cursor := cursor + 1;
      if cursor >= context.numWorkers {
        cursor := 0;
      }
      picks := picks + 1;
      if |workers| > 0 {
        RoundRobinStep(old(picks), |workers|);
      }
    }

    /** `wait_for_available_worker`: pick the next worker round-robin and,
        if it is still busy, join its sweep. With no workers the index is
        out of bounds. The panic for a busy worker without a thread handle
        cannot happen: busy workers always hold one. */
    method WaitForAvailableWorker() returns (r: Outcome<nat>)
      requires Valid()
      modifies this, workers
      ensures Valid() && context == old(context) && picks == old(picks) + 1
      ensures r.Panic? <==> |workers| == 0
      ensures r.Value? ==> r.value == old(picks) % |workers| && r.value < |workers|
      ensures r.Value? ==>
        Idle(workers[r.value])
        && workers[r.value].launched == old(workers[r.value].launched)
        && workers[r.value].payload == old(workers[r.value].payload)
        && workers[r.value].docker == old(workers[r.value].docker)
      ensures forall j :: 0 <= j < |workers| && (r.Panic? || j != r.value) ==>
        workers[j].State() == old(workers[j].State())
    {
      var id := GetNextWorkerId();
      if id >= |workers| {
        return Panic("index out of bounds");
      }
      var worker := workers[id];
      if worker.working {
        if worker.hasHandle {
          worker.Join();
        } else {
          assert false;
        }
      }
      r := Value(id);
    }

    /** `wait_for_all_workers`: join every worker that holds a thread handle;
        afterwards no worker is busy, so the sanity check never panics. */
    method WaitForAllWorkers()
      requires Valid()
      modifies workers
      ensures Valid()
      ensures forall j :: 0 <= j < |workers| ==>
        Idle(workers[j])
        && workers[j].launched == old(workers[j].launched)
        && workers[j].payload == old(workers[j].payload)
        && workers[j].docker == old(workers[j].docker)
    {
      var i := 0;
      while i < |workers|
        invariant 0 <= i <= |workers| && Valid()
        invariant forall j :: 0 <= j < i ==> Idle(workers[j])
        invariant forall j :: 0 <= j < |workers| ==>
          workers[j].launched == old(workers[j].launched)
          && workers[j].payload == old(workers[j].payload)
          && workers[j].docker == old(workers[j].docker)
        invariant forall j :: i <= j < |workers| ==> workers[j].State() == old(workers[j].State())
      {
        var worker := workers[i];
        if worker.hasHandle {
          worker.Join();
        }
        i := i + 1;
      }
      i := 0;
      while i < |workers|
        invariant 0 <= i <= |workers|
      {
        if workers[i].working {
          assert false;
        }
        i := i + 1;
      }
    }
  }

  /** `x` leaves remainder `r` when it is `q` whole `n`s and `r`. */
  lemma {:induction false} ModOfParts(x: int, n: int, q: int, r: int)
    requires n > 0 && 0 <= r < n && x == q * n + r
    ensures x % n == r
  {
    var q', r' := x / n, x % n;
    assert x == q' * n + r';
    assert (q - q') * n == r' - r;
    if q > q' {
      assert (q - q') * n >= n by { MulAtLeast(q - q', n); }
    } else if q < q' {
      assert (q' - q) * n >= n by { MulAtLeast(q' - q, n); }
    }
  }

  lemma {:induction false} MulAtLeast(a: int, n: int)
    requires a >= 1 && n > 0
    ensures a * n >= n
  {
    assert a * n == (a - 1) * n + n;
    if a > 1 { MulAtLeast(a - 1, n); }
  }

  /** Moving the cursor by one, wrapping at `n`, is counting modulo `n`. */
  lemma RoundRobinStep(k: nat, n: nat)
    requires n > 0
    ensures (if k % n + 1 >= n then 0 else k % n + 1) == (k + 1) % n
  {
    var q, r := k / n, k % n;
    if r + 1 >= n {
      ModOfParts(k + 1, n, q + 1, 0);
    } else {
      ModOfParts(k + 1, n, q, r + 1);
    }
  }

  /** Over any `n` consecutive picks every worker is picked: the pick
      numbered `k` goes to worker `k % n`. */
  lemma RoundRobinCoversAll(start: nat, n: nat, w: nat) returns (k: nat)
    requires w < n
    ensures start <= k < start + n && k % n == w
  {
    var q, s := start / n, start % n;
    if w >= s {
      k := start + (w - s);
      ModOfParts(k, n, q, w);
    } else {
      k := start + (n - s + w);
      ModOfParts(k, n, q + 1, w);
    }
  }

  /** The state `Benchmarker::new` builds: the context of the configured
      run, with the run number and test sets read from the disk. Both
      listings are parameters: the benchmark directory always exists by
      then (it is created if missing). */
  function NewContext(config: Config, currentRun: nat, testSets: seq<string>): Context {
    Context(config.benchmarkDirPath, testSets, currentRun, config.localTestImageDirPath,
            config.dockerTestImageDirPath, config.numWorkers, config.useTempDir,
            config.libjxlCommit, config.compareToLocal, config.compareToCommit)
  }

  /** A worker of `Benchmarker::new` once its container is set up. */
  ghost predicate SetUpWorker(w: BenchmarkWorker, context: Context, x: nat)
    reads w, w.docker
  {
    w.id == x && w.Valid() && Idle(w) && w.launched == [] && w.payload == InitialPayload(context, x)
    && w.docker != null && w.docker.dockerfile == DEFAULT_CONFIG.dockerFilePath
    && w.docker.containers == map[x := Docker.ContainerName(x)]
  }

  /** The setup processes of worker `x` both succeeded. */
  predicate SetupSucceeded(build: Docker.Spawn, start: Docker.Spawn) {
    build.Ok? && build.value.success && start.Ok? && start.value.success
  }

  /** One iteration of the worker loop of `Benchmarker::new`: a worker with
      the initial payload, and a container manager for the default
      Dockerfile whose setup must succeed. */
  method NewWorker(context: Context, x: nat, build: Docker.Spawn, start: Docker.Spawn)
    returns (r: Outcome<BenchmarkWorker>)
    ensures r.Value? <==> SetupSucceeded(build, start)
    ensures r.Value? ==> fresh(r.value) && fresh(r.value.docker) && SetUpWorker(r.value, context, x)
  {
    var worker := new BenchmarkWorker(x, InitialPayload(context, x));
    var manager := new Docker.DockerManager(DEFAULT_CONFIG.dockerFilePath, x);
    var setup := manager.Setup(worker.id, build, start);
    if setup.Panic? {
      return Panic(setup.reason);
    }
    if setup.value.Err? {
      return Panic("called `Result::unwrap()` on an `Err` value");
    }
    worker.docker := manager;
    r := Value(worker);
  }

  /** `Benchmarker::new`: resolve the run number and the test sets, then
      set up each worker in turn; a failed setup panics at its `unwrap`.
      `builds[x]` and `starts[x]` are what the processes of worker `x`'s
      setup report. */
  method NewBenchmarker(config: Config, runNames: seq<string>, testDirExists: bool,
                        testDirEntries: seq<Resolver.DirEntry>,
                        builds: seq<Docker.Spawn>, starts: seq<Docker.Spawn>)
    returns (r: Outcome<Benchmarker>)
    requires |builds| == config.numWorkers && |starts| == config.numWorkers
    ensures r.Value? ==> fresh(r.value) && r.value.Valid()
    ensures r.Value? ==>
      r.value.context == NewContext(config, r.value.context.currentRun,
                                    if testDirExists then Resolver.TestSetNames(testDirEntries) else [])
      && r.value.cursor == 0 && r.value.picks == 0
    ensures r.Value? ==> forall i :: 0 <= i < |r.value.workers| ==>
      fresh(r.value.workers[i]) && SetUpWorker(r.value.workers[i], r.value.context, i)
    ensures r.Value? ==> forall i :: 0 <= i < config.numWorkers ==> SetupSucceeded(builds[i], starts[i])
    ensures r.Value? ==>
      (forall i :: 0 <= i < |runNames| && ParseUsize(runNames[i]).Some? ==>
         ParseUsize(runNames[i]).value < r.value.context.currentRun)
      && (r.value.context.currentRun > 0 ==>
            exists i :: 0 <= i < |runNames| && ParseUsize(runNames[i]) == Some(r.value.context.currentRun - 1))
    ensures (exists i :: 0 <= i < |runNames| && ParseUsize(runNames[i]) == Some(USIZE_MAX)) ==> r.Panic?
    ensures (forall i :: 0 <= i < config.numWorkers ==> SetupSucceeded(builds[i], starts[i]))
            && (forall i :: 0 <= i < |runNames| ==> ParseUsize(runNames[i]) != Some(USIZE_MAX))
            ==> r.Value?
  {
    var testSets := Resolver.GetAllTestSetNames(testDirExists, testDirEntries);
    var run := Resolver.GetCurrentRun(true, runNames);
    if run.Panic? {
      return Panic(run.reason);
    }
    var context := NewContext(config, run.value, testSets);
    var workers: seq<BenchmarkWorker> := [];
    var x := 0;
    while x < config.numWorkers
      invariant 0 <= x <= config.numWorkers && |workers| == x
      invariant forall i :: 0 <= i < x ==> fresh(workers[i]) && SetUpWorker(workers[i], context, i)
      invariant forall i :: 0 <= i < x ==> SetupSucceeded(builds[i], starts[i])
    {
      var worker := NewWorker(context, x, builds[x], starts[x]);
      if worker.Panic? {
        return Panic(worker.reason);
      }
      workers := workers + [worker.value];
      x := x + 1;
    }
    var b := new Benchmarker.Init(context, workers);
    r := Value(b);
  }
}
