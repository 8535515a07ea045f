# benchmark-jpegxl, modelled in Dafny

This project models the core of `benchmark-jpegxl`, a harness that measures
the libjxl JPEG XL encoder. The repository holds two generations of it.

- **The Rust benchmarker** (`benchmark.rs`, `image_reader.rs`, `metrics.rs`,
  `docker_manager.rs`):
  - It finds the next run number and the test sets.
  - It hands every image of a test set to a pool of workers, round-robin.
  - For each image, a worker cleans, checks out and builds its container's
    libjxl for one revision and encodes the image over a grid of 17 distances
    by 5 efforts.
  - It repeats this for up to three revisions: the base commit, an optional
    comparison commit and the local tree.
  - It compares the per-revision result CSVs line by line and averages the
    differences.
- **The Python scripts** (`old_test_jxl.py`, `test_jxl.py`):
  - They number a fresh run directory.
  - They glob a dataset's images and encode them with `cjxl`. The old script
    sweeps 9 efforts by 9 distances; the new one sweeps efforts 1 to 10 into
    one output file per image.
  - They tabulate file sizes, decode with `djxl`, and compare original and
    decoded images by name.

## How the model works

- The software's exact behaviour is kept wherever it is decided by the code
  itself: branches, panics, names, numbering, parsing and the order of work.
- Everything outside the process comes in as parameters:
  - what a spawned command printed, or that it could not be spawned;
  - directory listings, file sizes and image dimensions;
  - the CSV files a comparison reads;
  - what the decoder reports about an image.
- An operation that can panic, raise or fail an `assert` returns
  `Outcome.Panic`. A Rust `Result` the code hands back stays a `Result`.
- The imperative parts keep their form:
  - the worker pool, the Python `Table` and `JXLTester`, and the Docker
    manager are classes with `modifies` frames;
  - the commit loop, the sweeps, the comparisons and the Python loops are
    `while` loops with invariants.
- Each method is proved against a function that states what the whole run
  issues and yields. Examples: `RevisionsTasks` gives the encoder tasks of a
  test set; `DatasetRows` gives the rows of a compression table.
- The dispatch methods also state what the workers did with those tasks.
  Worker `j` launched its round-robin share (`Assigned`) of the tasks, in
  order: the pick numbered `k` goes to worker `k % n`. The pool's pick count
  grows by one per task, so an entry that is skipped takes no worker.
- Modules follow the source:

  | module | models |
  |---|---|
  | `Wrappers` | `Option`, `Result` and `Outcome` |
  | `Text` | the string and number handling of the standard libraries |
  | `ImageReader` | `image_reader.rs` |
  | `Metrics` | `metrics.rs` |
  | `Docker` | `docker_manager.rs` |
  | `Resolver` | run numbering and test-set discovery |
  | `WorkerPool` | `BenchmarkWorker` and `Benchmarker` |
  | `Sweep` | the encoder grid of `JXLCompressionBenchmark::run` |
  | `Comparison` | `compare_results` |
  | `RunBenchmark` | `Benchmarker::run_benchmark` |
  | `PyCommon` | what the two scripts share |
  | `OldTestJxl` | `old_test_jxl.py` |
  | `TestJxl` | `test_jxl.py` |

## Model

| member | source | states |
|---|---|---|
| Text.SplitNoSeparator | benchmark-jpegxl/src/benchmark.rs:433-441 | splitting a name that has no separator yields the name alone, as the `split(".")` of an image name without a dot does |
| Text.SplitConcat | benchmark-jpegxl/src/image_reader.rs:538 | splitting `a + c + b` on `c` yields the pieces of `a` followed by the pieces of `b` |
| Text.SplitPiecesAvoidSeparator | benchmark-jpegxl/src/image_reader.rs:538 | no piece of a split contains the separator |
| Text.SplitLength | benchmark-jpegxl/src/docker_manager.rs:76-77 | a split has at least two pieces exactly when the separator occurs |
| Text.JoinSplit | benchmark-jpegxl/src/docker_manager.rs:75-79 | joining the pieces of a split with the same separator gives back the string |
| Text.SplitJoin | benchmark-jpegxl/src/image_reader.rs:538-539 | splitting a join of separator-free pieces gives back the pieces |
| Text.NatToStringDigits | benchmark-jpegxl/src/docker_manager.rs:23-27 | a printed number is a non-empty digit string whose value is the number |
| Text.NatToStringInjective | benchmark-jpegxl/src/docker_manager.rs:23-27 | distinct numbers print differently |
| Text.ParseUnsigned | benchmark-jpegxl/src/benchmark.rs:238-246 | an unsigned parse never yields more than the type's maximum |
| Text.ParseUnsignedNatToString | benchmark-jpegxl/src/benchmark.rs:238-246 | parsing a printed number gives the number back when it fits, and fails otherwise |
| Text.Lines | benchmark-jpegxl/src/metrics.rs:109 | the empty text has no lines; any other text has at least one |
| Text.TrimEnd | benchmark-jpegxl/src/metrics.rs:111-118 | the result is the longest prefix that does not end in whitespace, and only whitespace was removed |
| Text.TrailingRun | benchmark-jpegxl/src/metrics.rs:111-118 | the result is the maximal non-whitespace suffix of the text |
| Text.LastToken | benchmark-jpegxl/src/metrics.rs:111-118 | the last whitespace-separated token is non-empty and free of whitespace; there is none exactly when the line is all whitespace |
| Text.LastTokenPlacement | benchmark-jpegxl/src/metrics.rs:111-118 | the last token occurs in the line at a word boundary, with only whitespace after it |
| ImageReader.NamedComponents | benchmark-jpegxl/src/image_reader.rs:507 | the normalised path components contain no empty and no `.` component |
| ImageReader.FileName | benchmark-jpegxl/src/image_reader.rs:507 | a path's file name, when there is one, is neither empty, `.` nor `..` |
| ImageReader.FileExtension | benchmark-jpegxl/src/image_reader.rs:497 | an extension contains no dot |
| ImageReader.FileNameOfPlainName | benchmark-jpegxl/src/image_reader.rs:507 | the file name of a plain name is that name |
| ImageReader.FileNameInDirectory | benchmark-jpegxl/src/image_reader.rs:536 | the file name of `dir/name` is `name`, whatever the directory |
| ImageReader.ExtensionOfDottedName | benchmark-jpegxl/src/image_reader.rs:537 | the extension of `stem.ext` is `ext` |
| ImageReader.FormatName | benchmark-jpegxl/src/image_reader.rs:159-179 | every format except `Unsupported` has a name; `Unsupported` panics |
| ImageReader.FormatExt | benchmark-jpegxl/src/image_reader.rs:181-201 | every format except `Unsupported` has an extension; `Unsupported` panics |
| ImageReader.FormatFromName | benchmark-jpegxl/src/image_reader.rs:251-273 | a recognised name is the name of the format it yields |
| ImageReader.FormatFromFileName | benchmark-jpegxl/src/image_reader.rs:203-225 | the format of a file is read from its extension, and a file without one panics |
| ImageReader.FormatNameRoundTrip | benchmark-jpegxl/src/image_reader.rs:251-273 | reading back a format's name gives the format |
| ImageReader.SupportedNames | benchmark-jpegxl/src/image_reader.rs:251-273 | a name is recognised if and only if it is the name of some format |
| ImageReader.FormatExtIsDottedName | benchmark-jpegxl/src/image_reader.rs:181-201 | every extension is the dotted name, except that JPEG writes `.jpg` but is named `jpeg` |
| ImageReader.JpgIsUnsupportedByName | benchmark-jpegxl/src/image_reader.rs:203-225 | a `.jpg` file is `Unsupported` when classified by name, so the benchmark skips the extension it writes itself |
| ImageReader.FormatOfExtension | benchmark-jpegxl/src/image_reader.rs:598-615 | `get_format` never answers `Unsupported` or JPEG XL; every extension `From<String>` knows, other than `jxl`, gets that format; `jpg`, `jxl` and every unknown extension get `Jpeg` |
| ImageReader.GetFormat | benchmark-jpegxl/src/image_reader.rs:595-616 | a path with an extension gets the format `get_format` assigns to it; a path without one panics |
| ImageReader.FormatOfExtensionFixed | benchmark-jpegxl/src/image_reader.rs:598-615 | the corrected table also never answers `Unsupported`, and answers JPEG XL exactly for `jxl` |
| ImageReader.GetFormatFixed | benchmark-jpegxl/src/image_reader.rs:595-616 | the corrected `get_format` reads the corrected table at the path's extension |
| ImageReader.FormatExtShape | benchmark-jpegxl/src/image_reader.rs:181-201 | every extension is a dot followed by a name without dots or slashes |
| ImageReader.ExtensionInDirectory | benchmark-jpegxl/src/image_reader.rs:597 | the extension of `dir/stem.ext` is `ext` |
| ImageReader.ExtensionOfFormattedPath | benchmark-jpegxl/src/image_reader.rs:597 | the extension of a path written with a format's extension is that extension without its dot |
| ImageReader.GetFormatFixedRoundTrip | benchmark-jpegxl/src/image_reader.rs:595-616 | with the `jxl` arm, every file named with a format's own extension reads back as that format |
| ImageReader.GetFormatAsWritten | benchmark-jpegxl/src/image_reader.rs:595-616 | as written, every format other than JPEG XL reads back from its own extension, but a `.jxl` file reads as JPEG |
| ImageReader.FormatOfOwnExtension | benchmark-jpegxl/src/image_reader.rs:598-615 | the as-written table maps each format's own extension back to it, except `jxl`, which falls to JPEG |
| ImageReader.ColorTypeFromName | benchmark-jpegxl/src/image_reader.rs:34-50 | a recognised colour name is the name of the colour type parsed |
| ImageReader.ColorTypeRoundTrip | benchmark-jpegxl/src/image_reader.rs:34-66 | reading back a colour type's name gives the type; a name is recognised exactly when some type has it |
| ImageReader.BytesPerPixel | benchmark-jpegxl/src/image_reader.rs:646-663 | bytes per pixel is channels times bytes per sample, for every colour type |
| ImageReader.JxlColorSpace | benchmark-jpegxl/src/image_reader.rs:83-107 | a JPEG XL frame has a colour type exactly for 1 to 4 channels of 8- or 16-bit samples, with that many channels and that sample width |
| ImageReader.ColorTypeOfDecoded | benchmark-jpegxl/src/image_reader.rs:110-126 | a decoder colour type converts exactly when it is one of the ten known types, and converts to itself |
| ImageReader.RawSize | benchmark-jpegxl/src/image_reader.rs:664 | the raw size is width × height × channels × bytes per sample, and the 32-bit product panics exactly when it overflows |
| ImageReader.GetRawSize | benchmark-jpegxl/src/image_reader.rs:646-666 | a decoded image has a raw size exactly when its colour type is known and the product fits in 32 bits |
| ImageReader.GetRawJxlSize | benchmark-jpegxl/src/image_reader.rs:624-644 | a JPEG XL raw size is computed exactly when the colour space is supported and width × height × bytes per pixel fits in `u32` (otherwise it panics), and is then width × height × channels × sample width |
| ImageReader.OptF32FromString | benchmark-jpegxl/src/image_reader.rs:275-300 | the empty field is `None`; any other field must parse as a decimal, or the read panics |
| ImageReader.OptU32FromString | benchmark-jpegxl/src/image_reader.rs:346-371 | the empty field is `None`; any other field must parse as a 32-bit unsigned number, or the read panics |
| ImageReader.OptStringFromString | benchmark-jpegxl/src/image_reader.rs:417-440 | a string field is `None` exactly when it is empty |
| ImageReader.OptU32ToString | benchmark-jpegxl/src/image_reader.rs:346-371 | an optional number is written as the empty field exactly when it is `None` |
| ImageReader.OptU32Value | benchmark-jpegxl/src/image_reader.rs:408-413 | the numeric value of an optional number is 0 for `None`, else the number |
| ImageReader.OptF32Value | benchmark-jpegxl/src/image_reader.rs:337-342 | the numeric value of an optional decimal is 0 for `None`, else the decimal |
| ImageReader.OptU32RoundTrip | benchmark-jpegxl/src/image_reader.rs:346-371 | writing an in-range optional number and reading it back gives it unchanged |
| ImageReader.OptStringRoundTrip | benchmark-jpegxl/src/image_reader.rs:417-440 | writing an optional string and reading it back is the identity, except for `Some("")` |
| ImageReader.ParseJxlFileName | benchmark-jpegxl/src/image_reader.rs:538-563 | provenance can be read from a name exactly when it contains a `-`; the original image name is then always present |
| ImageReader.ReadProvenance | benchmark-jpegxl/src/image_reader.rs:494-567 | a path reads exactly when it has an extension and, for `.jxl`, a dashed name; other files have no provenance, `.jxl` files have the provenance their name encodes |
| ImageReader.ReadImage | benchmark-jpegxl/src/image_reader.rs:494-593 | reading succeeds exactly when the path has an extension and a named parent directory, the matching decoder read the file, a `.jxl` name has a `-`, and the raw size is computable; the file data then holds the path, name, test set (the parent directory), size, dimensions, a raw size consistent with the colour space, and the as-written format (`Jpeg` for `.jxl`); the colour space and provenance come from the frame for `.jxl` files and from the raster otherwise |
| ImageReader.ParentNameInDirectory | benchmark-jpegxl/src/image_reader.rs:508-515 | a file directly inside a named directory has that directory as its test set, whatever lies above it |
| Metrics.FileSizeRatio | benchmark-jpegxl/src/metrics.rs:15-26 | the ratio of compressed to original size ("orig"), or its inverse ("comp"), is 0 for an empty denominator; any other denominator name panics |
| Metrics.FileSizeRatioReciprocal | benchmark-jpegxl/src/metrics.rs:15-26 | for non-empty files the two ratios are reciprocal |
| Metrics.FileSizeRatioEmptyFiles | benchmark-jpegxl/tests/metrics_tests.rs:54-55 | two empty files give ratio 0 both ways |
| Metrics.FileSizeRatioScaleInvariant | benchmark-jpegxl/src/metrics.rs:15-26 | scaling both sizes by the same positive factor leaves the ratio unchanged |
| Metrics.ParseOrZero | benchmark-jpegxl/src/metrics.rs:109 | a field is its decimal value, or 0 when it is not a decimal |
| Metrics.Butteraugli | benchmark-jpegxl/src/metrics.rs:96-121 | a score is read only from a run that failed with an error report of at least one line ending in a token; otherwise the parse panics |
| Metrics.ButteraugliReport | benchmark-jpegxl/src/metrics.rs:105-118 | the score's distance is the first line as a decimal, and its p-norm is the last token of the last line |
| Metrics.ButteraugliUsualReport | benchmark-jpegxl/src/metrics.rs:105-118 | for the usual two-line report, the score is the two printed decimals |
| Metrics.ButteraugliWarningFirst | benchmark-jpegxl/src/metrics.rs:109 | when a warning line comes first, the distance silently becomes 0 |
| Metrics.Ssimulacra2 | benchmark-jpegxl/src/metrics.rs:133-144 | a score is read only from a successful run whose first line is a decimal, and is that decimal; anything else panics |
| Docker.ContainerName | benchmark-jpegxl/src/docker_manager.rs:23-27 | a worker's container name is the fixed prefix, a dash, then the worker's number |
| Docker.ContainerNameInjective | benchmark-jpegxl/src/docker_manager.rs:23-27 | distinct workers get distinct container names |
| Docker.ExecuteCommand | benchmark-jpegxl/src/docker_manager.rs:32-42 | a command that cannot be spawned panics; otherwise success gives stdout as `Ok` and failure gives stderr as `Err` |
| Docker.ExecuteInContainer | benchmark-jpegxl/src/docker_manager.rs:188-215 | a spawn failure is the outer error; success gives stdout; failure gives stderr, or stdout when stderr is empty |
| Docker.ExecuteInContainerErrorText | benchmark-jpegxl/src/docker_manager.rs:206-214 | a failed run reports an empty error exactly when it printed nothing on either stream |
| Docker.Command.constructor | benchmark-jpegxl/src/docker_manager.rs:193 | a new command names its program and has no arguments |
| Docker.Command.Arg | benchmark-jpegxl/src/docker_manager.rs:194-198 | an argument is appended at the end |
| Docker.Command.Args | benchmark-jpegxl/src/docker_manager.rs:199 | arguments are appended at the end, in order |
| Docker.ExecArgs | benchmark-jpegxl/src/docker_manager.rs:193-199 | the exec argument vector is `exec -w /temp <container> <subcommand>` followed by the arguments |
| Docker.MkdirTargetOfPath | benchmark-jpegxl/src/docker_manager.rs:72-80 | the directory created for `dir/name` is `dir` |
| Docker.MkdirTargetOfBareName | benchmark-jpegxl/src/docker_manager.rs:72-80 | the directory created for a bare name is the empty string |
| Docker.CjxlArgs | benchmark-jpegxl/src/docker_manager.rs:84-91 | the encoder receives input, output, `--distance=<d>` and `--effort=<e>`, and the effort reads back when it fits in 32 bits |
| Docker.ExecuteCjxl | benchmark-jpegxl/src/docker_manager.rs:61-96 | a `mkdir -p` of the output's directory is issued first, and its spawn failure ends the call; otherwise the encoder runs in the container and its classified result is returned |
| Docker.ApplyLocalAsDiff | benchmark-jpegxl/src/docker_manager.rs:281-306 | the fixed success message is returned whenever both commands could be spawned, whatever they reported |
| Docker.BuildScriptEndsInExitZero | benchmark-jpegxl/src/docker_manager.rs:314 | the build script is two commands, the second being `exit 0`, so a failed build still reports success |
| Docker.BuildScriptPieces | benchmark-jpegxl/src/docker_manager.rs:314 | the build script is the `ci.sh` invocation and the exit, separated by the one `;` |
| Docker.DockerManager.constructor | benchmark-jpegxl/src/docker_manager.rs:18-30 | a new manager has the shared image name, this worker's container name and no containers |
| Docker.DockerManager.Setup | benchmark-jpegxl/src/docker_manager.rs:123-178 | a failed build reports "Failed to build docker image" and records nothing; a successful build records this worker's container, then starts it and reports how that went |
| Resolver.GetCurrentRun | benchmark-jpegxl/src/benchmark.rs:231-250 | the run number is above every numeric run directory and is 0 without a benchmark directory; when positive, its predecessor exists; a run named usize::MAX panics |
| Resolver.GetAllTestSetNames | benchmark-jpegxl/src/benchmark.rs:252-268 | the test sets are the filtered listing of the test-image directory, or none without that directory |
| Resolver.TestSetNamesMembership | benchmark-jpegxl/src/benchmark.rs:252-268 | a name is a test set exactly when some listed entry with that name is a directory not starting with a dot |
| Resolver.TestSetNamesConcat | benchmark-jpegxl/src/benchmark.rs:252-268 | the test sets of two listings together are the test sets of each, in order |
| Resolver.TestSetNamesExcluded | benchmark-jpegxl/src/benchmark.rs:260-262 | no test set name starts with a dot |
| WorkerPool.BenchmarkWorker.constructor | benchmark-jpegxl/src/benchmark.rs:77-85 | a new worker has its id and payload, no container manager, no thread and no history |
| WorkerPool.BenchmarkWorker.Join | benchmark-jpegxl/src/benchmark.rs:94-101 | joining takes the worker's thread, marks it idle, and counts one more completed sweep |
| WorkerPool.BenchmarkWorker.Run | benchmark-jpegxl/src/benchmark.rs:87-105 | a worker without a container manager panics; otherwise any previous sweep is joined and a sweep of the current payload is launched and left running |
| WorkerPool.Benchmarker.Init | benchmark-jpegxl/src/benchmark.rs:147-194 | the benchmarker holds its context and one set-up worker per id, with the cursor at 0 |
| WorkerPool.Benchmarker.WorkersDistinct | benchmark-jpegxl/src/benchmark.rs:174-192 | no worker object is shared between two positions of the pool |
| WorkerPool.Benchmarker.GetNextWorkerId | benchmark-jpegxl/src/benchmark.rs:196-203 | the id handed out is the old cursor, which is the number of earlier picks modulo the pool size |
| WorkerPool.Benchmarker.WaitForAvailableWorker | benchmark-jpegxl/src/benchmark.rs:270-284 | an empty pool panics; otherwise the round-robin worker is returned idle with its history and payload intact, and every other worker is unchanged |
| WorkerPool.Benchmarker.WaitForAllWorkers | benchmark-jpegxl/src/benchmark.rs:291-309 | afterwards every worker is idle, with its history, payload and manager unchanged |
| WorkerPool.RoundRobinStep | benchmark-jpegxl/src/benchmark.rs:196-203 | advancing the cursor with wrap-around is counting picks modulo the pool size |
| WorkerPool.RoundRobinCoversAll | benchmark-jpegxl/src/benchmark.rs:196-203 | within any window of as many picks as workers, every worker is picked |
| WorkerPool.NewWorker | benchmark-jpegxl/src/benchmark.rs:174-192 | a worker is created exactly when its container's build and start succeed; it is fresh, carries a fresh manager for its id, and has the run's context |
| WorkerPool.NewBenchmarker | benchmark-jpegxl/src/benchmark.rs:147-194 | a benchmarker comes into being exactly when every worker was set up and no run directory is named `usize::MAX`; its context is the configuration with the discovered test sets and a run number above every numbered run directory, one past an existing one when positive; every worker is fresh and set up for its position |
| Sweep.DistanceAt | benchmark-jpegxl/src/benchmark.rs:580-583 | every distance of the sweep lies between 0.5 and 15 |
| Sweep.DistancesAsListed | benchmark-jpegxl/src/benchmark.rs:580-583 | the distances are exactly the 17 listed, in order |
| Sweep.DistancesIncrease | benchmark-jpegxl/src/benchmark.rs:580-583 | the distances strictly increase |
| Sweep.DistanceToken | benchmark-jpegxl/src/benchmark.rs:590-596 | a printed distance is non-empty and contains no `-` and no `/` |
| Sweep.DistanceTokenParses | benchmark-jpegxl/src/image_reader.rs:541 | a printed distance reads back as the distance |
| Sweep.DistanceTokenInjective | benchmark-jpegxl/src/benchmark.rs:590-596 | distinct distances print differently |
| Sweep.Stem | benchmark-jpegxl/src/benchmark.rs:433-441 | an image's stem is the dot-free prefix of its file name |
| Sweep.StemIsPrefix | benchmark-jpegxl/src/benchmark.rs:433-441 | the first piece of a split on `.` is a dot-free prefix of the name |
| Sweep.GridJobAt | benchmark-jpegxl/src/benchmark.rs:587-588 | the job for distance `i` and effort `e` sits at position `5i + (e - 5)` of the grid |
| Sweep.GridJobsIndex | benchmark-jpegxl/src/benchmark.rs:587-596 | the first `n` grid jobs are the grid points 0 to `n - 1`, in order |
| Sweep.SweepEfforts | benchmark-jpegxl/src/benchmark.rs:588-617 | the inner loop appends the five efforts of one distance to the grid so far |
| Sweep.GridJobsStep | benchmark-jpegxl/src/benchmark.rs:588-596 | one step of the inner loop extends the grid by the next job |
| Sweep.SweepJobs | benchmark-jpegxl/src/benchmark.rs:587-617 | the sweep issues 85 jobs, the whole grid in distance-major order |
| Sweep.CompImageNameParses | benchmark-jpegxl/src/image_reader.rs:538-563 | the provenance parsed from a compressed name gives back the stem, distance and effort written into it |
| Sweep.EffortPart | benchmark-jpegxl/src/image_reader.rs:550-556 | the last dash piece of a compressed name is the effort followed by `.jxl` |
| Sweep.DashedSplit | benchmark-jpegxl/src/image_reader.rs:538 | the last two dash pieces of `stem-distance-last` are `distance` and `last` |
| Sweep.CompImageNamePlain | benchmark-jpegxl/src/benchmark.rs:590-596 | a compressed name is `stem-distance-effort.jxl`, a plain file name |
| Sweep.CompImageNameProvenance | benchmark-jpegxl/src/image_reader.rs:530-593 | reading a compressed file back from any directory recovers its stem, distance and effort |
| Sweep.GridJobProvenance | benchmark-jpegxl/src/image_reader.rs:530-593 | every file of the grid reads back with the distance and effort it was encoded with |
| Sweep.GridJobIsJob | benchmark-jpegxl/src/benchmark.rs:587-596 | every grid point is the job built from its own distance and effort |
| Sweep.JobProvenance | benchmark-jpegxl/src/image_reader.rs:530-593 | any job's file reads back with its distance and effort |
| Sweep.GridPointsDiffer | benchmark-jpegxl/src/benchmark.rs:587-588 | two grid positions differ in distance or in effort |
| Sweep.GridNamesDistinct | benchmark-jpegxl/src/benchmark.rs:590-596 | no two jobs of a sweep write the same file |
| Sweep.GridJobArguments | benchmark-jpegxl/src/benchmark.rs:611-617 | each job hands the encoder the input, its own output name, its distance and an effort between 5 and 9 |
| Comparison.NameLeReflexive | benchmark-jpegxl/src/benchmark.rs:673 | the name order used for sorting is reflexive |
| Comparison.NameLeTotal | benchmark-jpegxl/src/benchmark.rs:673 | the name order is total |
| Comparison.NameLeAntisymmetric | benchmark-jpegxl/src/benchmark.rs:673 | the name order is antisymmetric |
| Comparison.Insert | benchmark-jpegxl/src/benchmark.rs:673 | insertion adds one element, and the last element is either the new one or the old last |
| Comparison.SortByName | benchmark-jpegxl/src/benchmark.rs:672-675 | sorting keeps the number of results |
| Comparison.InsertSorted | benchmark-jpegxl/src/benchmark.rs:673 | insertion keeps a sorted list sorted |
| Comparison.InsertMultiset | benchmark-jpegxl/src/benchmark.rs:673 | insertion adds exactly the new element |
| Comparison.WithNameAppend | benchmark-jpegxl/src/benchmark.rs:673 | the results with a given name grow by an appended result exactly when it has that name |
| Comparison.InsertStable | benchmark-jpegxl/src/benchmark.rs:673 | insertion puts a result after all results of equal name |
| Comparison.SortByNameCorrect | benchmark-jpegxl/src/benchmark.rs:672-675 | sorting by name yields a sorted permutation that keeps the order of equal names, as the stable `sort_by` does |
| Comparison.DiffOf | benchmark-jpegxl/src/benchmark.rs:699-740 | a difference row is the second result's measures minus the first's, labelled with the first result's names, distance and effort |
| Comparison.Accumulate | benchmark-jpegxl/src/benchmark.rs:764-778 | adding a row adds its differences and keeps the summary labels |
| Comparison.Divide | benchmark-jpegxl/src/benchmark.rs:780-792 | dividing divides every difference and keeps the summary labels |
| Comparison.DiffRows | benchmark-jpegxl/src/benchmark.rs:684-742 | the rows are compared pairwise; it panics unless every pair agrees on names, distance and effort, and otherwise yields one difference per pair |
| Comparison.Summarize | benchmark-jpegxl/src/benchmark.rs:744-792 | the summary is labelled "Summary" and holds the mean of the differences; with no rows there is none |
| Comparison.CompareResults | benchmark-jpegxl/src/benchmark.rs:661-810 | the comparison succeeds exactly when the two sorted result lists line up, and then yields their differences and the mean |
| Comparison.SumOfDiffs | benchmark-jpegxl/src/benchmark.rs:764-778 | the summed differences equal the difference of the summed measures |
| Comparison.AddSubs | benchmark-jpegxl/src/benchmark.rs:764-778 | a sum of differences is a difference of sums, componentwise |
| Comparison.MeanIsDifferenceOfMeans | benchmark-jpegxl/src/benchmark.rs:744-792 | the summary is the mean of the second run's measures minus the mean of the first's |
| Comparison.ScaleDistributes | benchmark-jpegxl/src/benchmark.rs:780-792 | dividing a difference componentwise divides each side |
| RunBenchmark.Visits | benchmark-jpegxl/src/benchmark.rs:316-320 | a test set visits the base commit first and at most three revisions; only the base commit is visited without comparison flags |
| RunBenchmark.NextFlags | benchmark-jpegxl/src/benchmark.rs:474-485 | clearing the flag of the revision moved to drops exactly that revision from those still to come; without flags nothing changes |
| RunBenchmark.PendingAfter | benchmark-jpegxl/src/benchmark.rs:474-485 | after `k` passes the flags in `self.context` ask for exactly the revisions not yet moved to |
| RunBenchmark.CommitClearedAfter | benchmark-jpegxl/src/benchmark.rs:474-478 | after the first pass the commit to compare to is cleared for good |
| RunBenchmark.RevisionContextFlags | benchmark-jpegxl/src/benchmark.rs:356-358 | the base revision's payloads carry the configured context; each later revision's carry no commit to compare to and flags naming exactly the revisions after it, so the last of three, or the local tree reached directly, carry no flags; nothing else of the context differs |
| RunBenchmark.CsvPaths | benchmark-jpegxl/src/benchmark.rs:467-468 | one comparison CSV is collected per visited revision |
| RunBenchmark.CsvPathsAt | benchmark-jpegxl/src/benchmark.rs:467-468 | the CSV of the `i`-th visit is the CSV of the `i`-th revision |
| RunBenchmark.CsvPathComponents | benchmark-jpegxl/src/benchmark.rs:352-354 | the CSV path names the test set and the revision as its components before the file name |
| RunBenchmark.LastThreeParts | benchmark-jpegxl/src/benchmark.rs:352-354 | splitting a path ending in three slash-free components ends in those components |
| RunBenchmark.CsvPathInjective | benchmark-jpegxl/src/benchmark.rs:352-354 | distinct test sets or revisions write distinct comparison CSVs |
| RunBenchmark.EntryTasksMembership | benchmark-jpegxl/src/benchmark.rs:362-463 | an entry yields a task exactly when it is a supported image file, and that task is the image's |
| RunBenchmark.RevisionTasksMembership | benchmark-jpegxl/src/benchmark.rs:362-463 | a revision's tasks are exactly the tasks of the supported images in the listing |
| RunBenchmark.TaskForSplit | benchmark-jpegxl/src/benchmark.rs:362-463 | an image of a longer listing is an image of its front or its last entry |
| RunBenchmark.TaskOfWithTask | benchmark-jpegxl/src/benchmark.rs:423-459 | pointing a payload at an image replaces its whole task, and the task read back is that image's; the worker id is kept |
| RunBenchmark.Assigned | benchmark-jpegxl/src/benchmark.rs:196-203 | a worker's round-robin share of a list of tasks is no longer than the list |
| RunBenchmark.AssignedSnoc | benchmark-jpegxl/src/benchmark.rs:196-203 | one more task goes to the worker its pick number selects, and to no other |
| RunBenchmark.AssignedConcat | benchmark-jpegxl/src/benchmark.rs:196-203 | dispatching two lists in turn gives each worker its share of the first, then its share of the second |
| RunBenchmark.AssignedTo | benchmark-jpegxl/src/benchmark.rs:196-203 | the task of pick `start + k` is in the share of worker `(start + k) % n` |
| RunBenchmark.SharedConcat | benchmark-jpegxl/src/benchmark.rs:362-464 | a pool that launched its shares of `tasks` and then its shares of `more` launched its shares of `tasks + more` |
| RunBenchmark.SharedNothing | benchmark-jpegxl/src/benchmark.rs:326-502 | dispatching nothing leaves every worker with what it had launched |
| RunBenchmark.Prepare | benchmark-jpegxl/src/benchmark.rs:386-420 | preparing a worker's checkout succeeds exactly when `git clean` succeeds, the checkout of the revision succeeds (for the local tree: both diff processes could be started), and the build succeeds |
| RunBenchmark.Unwrap | benchmark-jpegxl/src/benchmark.rs:386-393 | `unwrap` on a command gives its output exactly when the command ran and succeeded |
| RunBenchmark.RevisionTasksSucceed | benchmark-jpegxl/src/benchmark.rs:362-463 | with workers, a revision hands out all its images exactly when every file has an extension and every image's checkout preparation succeeds |
| RunBenchmark.Policy | benchmark-jpegxl/src/benchmark.rs:491-501 | one CSV is reported alone, two are compared (and must be readable and line up), and none or more than two panic |
| RunBenchmark.AsWrittenChecks | benchmark-jpegxl/src/benchmark.rs:316-502 | as written, each test set sees the CSVs of all earlier test sets; there is one check per test set |
| RunBenchmark.AsWrittenFirstTestSet | benchmark-jpegxl/src/benchmark.rs:326-502 | as written, the first test set sees only its own CSVs |
| RunBenchmark.AsWrittenNoFlagsAccumulates | benchmark-jpegxl/src/benchmark.rs:323-468 | as written without flags, the `k`-th test set sees one CSV for each of the first `k + 1` test sets |
| RunBenchmark.AsWrittenComparesAcrossTestSets | benchmark-jpegxl/src/benchmark.rs:491-494 | as written without flags, the second test set compares its CSV with the first test set's |
| RunBenchmark.AsWrittenThirdTestSetPanics | benchmark-jpegxl/src/benchmark.rs:497-498 | as written without flags, the third test set panics with more than two CSVs |
| RunBenchmark.AsWrittenComparisonPanicsOnSecondTestSet | benchmark-jpegxl/src/benchmark.rs:474-498 | as written with one comparison revision, the second test set visits only the remembered last revision and panics with three CSVs |
| RunBenchmark.ResetComparesWithinTestSet | benchmark-jpegxl/src/benchmark.rs:491-501 | with the revision and CSVs reset per test set, no flags report one CSV, two revisions are compared with each other, and three panic |
| RunBenchmark.DispatchImage | benchmark-jpegxl/src/benchmark.rs:384-463 | an image takes exactly one pick: the round-robin worker, whose checkout is prepared at the revision, whose payload becomes this image's task and which launches it; every other worker is unchanged, and on a panic no worker launches anything or changes its payload; the launched tasks of each worker grow by this task exactly for the picked worker and only on success; it panics exactly when the pool is empty or the preparation fails |
| RunBenchmark.DispatchEntry | benchmark-jpegxl/src/benchmark.rs:363-463 | a directory, a file without an extension and a file of unsupported format take no worker and launch nothing; an image takes one pick and, on success, adds its task to the picked worker's share; the entry panics exactly when its plan does |
| RunBenchmark.DispatchTask | benchmark-jpegxl/src/benchmark.rs:384-463 | dispatching an image after earlier tasks keeps every worker's launches equal to its round-robin share of all tasks so far, and takes one pick |
| RunBenchmark.DispatchRevision | benchmark-jpegxl/src/benchmark.rs:362-464 | dispatching a revision gives every worker exactly its round-robin share, in order, of the tasks it launched, from the pool's pick count on; on success those are the revision's planned tasks and the pick count grows by their number, so skipped entries take no worker; it panics exactly when its plan does (a file without an extension, an empty pool, or a failed checkout preparation), after at most one extra pick |
| RunBenchmark.PanicPersists | benchmark-jpegxl/src/benchmark.rs:362-464 | a panic on a prefix of the listing is a panic for the whole listing |
| RunBenchmark.RevisionsPanicPersists | benchmark-jpegxl/src/benchmark.rs:341-487 | a panic on the first revisions is a panic for all of them |
| RunBenchmark.RevisionsTasksSnoc | benchmark-jpegxl/src/benchmark.rs:341-487 | visiting one more revision appends its tasks |
| RunBenchmark.CsvPathsSnoc | benchmark-jpegxl/src/benchmark.rs:467-468 | visiting one more revision appends its CSV |
| RunBenchmark.NextCommit | benchmark-jpegxl/src/benchmark.rs:474-485 | the comparison commit comes first and is then cleared; otherwise the local tree comes and the flags are all cleared |
| RunBenchmark.RevisionsTasksOutcomes | benchmark-jpegxl/src/benchmark.rs:341-487 | the revisions' combined outcome is the sequence of their outcomes combined |
| RunBenchmark.PrefixPanics | benchmark-jpegxl/src/benchmark.rs:341-487 | a panic among the visited revisions is a panic for all revisions |
| RunBenchmark.VisitRevision | benchmark-jpegxl/src/benchmark.rs:342-468 | a visit clones the context with the current flags for the revision's payloads, dispatches the revision, records its outcome and, unless it panicked, its CSV; the workers' launches stay their round-robin shares of all tasks dispatched so far |
| RunBenchmark.DispatchRevisionAfter | benchmark-jpegxl/src/benchmark.rs:362-464 | a revision dispatched after earlier tasks hands out its planned tasks, and each worker's launches grow by its round-robin share of them, one pick per task |
| RunBenchmark.OutcomesSnoc | benchmark-jpegxl/src/benchmark.rs:341-487 | recording one more outcome extends the combined outcome by it |
| RunBenchmark.Visited | benchmark-jpegxl/src/benchmark.rs:341 | taking the next revision off the remainder extends the visited prefix |
| RunBenchmark.DispatchRevisions | benchmark-jpegxl/src/benchmark.rs:341-487 | the commit loop for one test set dispatches the tasks of each revision it visits in turn, each revision's payloads cloned from the context with the flags still set at that pass; every worker gets its round-robin share, one pick per task on success, and the loop yields the revisions' CSVs |
| RunBenchmark.CommitLoop | benchmark-jpegxl/src/benchmark.rs:341-487 | the loop visits a prefix of the revisions, all of them unless a panic stopped it, with the flags cleared one pass at a time and each revision's tasks carrying the flags of its pass; it yields their CSVs, and the workers have launched their round-robin shares of the tasks dispatched |
| RunBenchmark.CommitStep | benchmark-jpegxl/src/benchmark.rs:342-486 | one pass of the loop visits the current revision and moves to the next, with strictly fewer revisions left and the flags of the next pass, keeping the workers' launches their round-robin shares |
| RunBenchmark.AdvanceCommit | benchmark-jpegxl/src/benchmark.rs:470-485 | without flags the loop stops; otherwise it moves to the next revision the flags ask for, with strictly fewer left and the flags of the next pass |
| RunBenchmark.RunTestSet | benchmark-jpegxl/src/benchmark.rs:327-501 | a test set's run gives every worker its round-robin share of the planned tasks, whose contexts carry the flags of their revision's pass, one pick per task; it leaves every worker idle and meets the per-test-set comparison policy, or panics exactly when the plan does, preparation failures included |
| RunBenchmark.ApplyPolicy | benchmark-jpegxl/src/benchmark.rs:491-501 | the outcome agrees with the policy and carries out its comparison |
| RunBenchmark.RunBenchmark | benchmark-jpegxl/src/benchmark.rs:311-503 | the loop with the revision, the flags and the CSV list reset for every test set: the run number is fixed first, above every numbered run directory and one past an existing one when positive (0 without a benchmark directory), and panics on a directory named `usize::MAX`; the context changes only in its run number; the run then follows the plan of all test sets, whose tasks carry the flags of their revision's pass, panicking exactly when the plan does, and every worker has launched its round-robin share of the planned tasks, one pick per task |
| RunBenchmark.RunTestSets | benchmark-jpegxl/src/benchmark.rs:326-502 | the test sets run in order, each from the base commit with the configured flags cleared pass by pass, as planned, with every worker launching its round-robin share of the planned tasks; they panic exactly when the plan does |
| RunBenchmark.RunNextTestSet | benchmark-jpegxl/src/benchmark.rs:327-501 | running one more test set extends the plan, the results and the workers' round-robin shares by it |
| RunBenchmark.RunListedTestSet | benchmark-jpegxl/src/benchmark.rs:327-501 | a test set that is a directory runs as planned after earlier tasks, extending every worker's round-robin share by its tasks |
| RunBenchmark.RunSpecSkip | benchmark-jpegxl/src/benchmark.rs:333-335 | an entry that is not a directory leaves the plan unchanged |
| RunBenchmark.RunSpecStep | benchmark-jpegxl/src/benchmark.rs:327-502 | a directory adds its test set's tasks and check to the plan, or makes it panic |
| RunBenchmark.RunPanicPersists | benchmark-jpegxl/src/benchmark.rs:326-502 | a panic on the first test sets is a panic for all of them |
| PyCommon.LastIndexBefore | test_jxl.py:259 | a last-occurrence search below `n` finds an index below `n` |
| PyCommon.LastIndexOf | test_jxl.py:259 | a last occurrence lies inside the string |
| PyCommon.BaseStart | test_jxl.py:259 | the basename starts inside the path |
| PyCommon.Basename | test_jxl.py:259 | a basename contains no slash |
| PyCommon.BasenameOfJoin | test_jxl.py:259 | the basename of a name, and of `dir/name`, is `name` |
| PyCommon.SplitExtAt | test_jxl.py:259 | the extension starts within the basename |
| PyCommon.SplitExtParts | test_jxl.py:259 | root and extension put together give the path; the extension is empty or one dot followed by a dot-free, slash-free name |
| PyCommon.ImageNameIsSplitOfRoot | test_jxl.py:259 | the image name is the basename of the root |
| PyCommon.SplitExtAtOfBasename | test_jxl.py:300 | the extension found in a basename is the one found in the full path |
| PyCommon.ImageNameIsRootOfSplit | test_jxl.py:300-302 | the two ways the scripts compute an image name agree: the basename's root and the root's basename |
| PyCommon.ImageNameAfter | test_jxl.py:259 | after a directory prefix, `stem.ext` names image `stem` |
| PyCommon.ImageNameOfFile | test_jxl.py:259 | the image name of `dir/stem.ext` is `stem` |
| PyCommon.PathJoin | test_jxl.py:174-175 | joining to an absolute path yields that path |
| PyCommon.RemoveSuffix | old_test_jxl.py:308 | removing a present suffix leaves what precedes it; an absent suffix leaves the string unchanged |
| PyCommon.ImageFormatOfFacts | test_jxl.py:27-28 | an image format is the last dot piece of the path, and the whole path when it has no dot |
| PyCommon.Strip | test_jxl.py:167 | stripping leaves no whitespace at either end |
| PyCommon.ParsePyIntDigits | test_jxl.py:167 | `int()` of a digit string is its value |
| PyCommon.StripDigits | test_jxl.py:167 | a digit string needs no stripping and carries no sign |
| PyCommon.ParsePyIntNatToString | test_jxl.py:167-173 | `int(str(n))` is `n` |
| PyCommon.MaxRun | test_jxl.py:163-170 | the running maximum starts at -1 and never goes below it |
| PyCommon.MaxRunUpper | test_jxl.py:163-170 | the maximum is at least every numeric directory name |
| PyCommon.MaxRunAttained | test_jxl.py:163-170 | the maximum is -1 or some numeric directory name |
| PyCommon.MaxRunBounds | test_jxl.py:163-170 | the maximum is the largest numeric directory name, or -1 when there is none |
| PyCommon.NextRunAfterCreate | test_jxl.py:163-178 | after the new run directory is created, the next run is numbered one higher |
| PyCommon.JxlTester.constructor | test_jxl.py:133-153 | a new tester has its output and results roots and no current run (number -1, empty paths) |
| PyCommon.JxlTester.CreateCurrRunDirs | test_jxl.py:156-178 | the current run is one past the largest numbered directory, under both roots |
| PyCommon.JxlTester.SetupPaths | test_jxl.py:181-195 | a dataset that is not a directory fails the assertion; otherwise the two paths are run/dataset/dir under each root |
| PyCommon.MatchingPathsMembership | test_jxl.py:198-201 | a path is globbed exactly when it joins the directory to a listed name that matches the pattern |
| PyCommon.GlobbedImageName | test_jxl.py:198-201 | a globbed file's image name is its name without the four-character extension |
| PyCommon.ImagesInDir | test_jxl.py:198-201 | the assertion fails exactly when nothing matches; otherwise all matches are returned, in listing order |
| PyCommon.Table.constructor | test_jxl.py:83-91 | a missing column list or data becomes empty |
| PyCommon.Table.CreateCol | test_jxl.py:103-108 | the column name is appended and each row gains its cell; too short a column appends to the rows it covers, then raises |
| PyCommon.Table.CreateRow | test_jxl.py:111-112 | the row is appended, and a rectangular table stays rectangular when the row is as wide as the columns |
| PyCommon.ImageDims | test_jxl.py:16-18 | the dimensions of an image that cannot be opened raise |
| PyCommon.ImageSize | test_jxl.py:22-23 | the size of a missing file raises |
| PyCommon.DiffCommands | test_jxl.py:305 | there is one diff command per compared pair |
| PyCommon.DiffCommandsIndex | test_jxl.py:305 | the `j`-th command compares the `j`-th images into `<image>-diff.png` |
| PyCommon.StemsAgreeAt | test_jxl.py:300-303 | when all positions agree, each position agrees |
| PyCommon.StemsAgreeFromAll | test_jxl.py:300-303 | when each position agrees, all positions agree |
| PyCommon.ComparePairs | test_jxl.py:298-306 | every pair is diffed in order until the first name mismatch, which raises; the run succeeds exactly when all names agree |
| PyCommon.CompareImages | test_jxl.py:293-306 | different counts raise; a missing result directory fails the assertion; otherwise pairs are diffed in order until a name mismatch |
| PyCommon.StemsPersistFalse | test_jxl.py:298-306 | a mismatch on a prefix is a mismatch of the whole |
| PyCommon.CompareImageDirs | test_jxl.py:289-306 | both directories must hold PNGs, or the assertion fails before any command is issued; then the images are compared as above |
| OldTestJxl.GetDatasetName | old_test_jxl.py:307-309 | a dataset name contains no slash |
| OldTestJxl.GetDatasetNameOfDir | old_test_jxl.py:307-309 | the dataset name of `parent/name` is `name`, with or without a trailing slash |
| OldTestJxl.SettingAtIndex | old_test_jxl.py:459-471 | the `j`-th encoding uses effort `j / 9 + 1` and the `j mod 9`-th distance |
| OldTestJxl.SettingAtStep | old_test_jxl.py:459-471 | effort `e` with the `k`-th distance is the encoding at position `9(e - 1) + k` |
| OldTestJxl.DistanceLevelsFacts | old_test_jxl.py:17-27 | there are nine distances, strictly increasing, printed distinctly and without dashes |
| OldTestJxl.GridOrder | old_test_jxl.py:459-471 | encodings are ordered by effort, then by distance |
| OldTestJxl.CompressNameInjective | old_test_jxl.py:462 | a compressed file name determines its effort and distance |
| OldTestJxl.CompressNamesDistinct | old_test_jxl.py:459-471 | no two encodings of one image write the same file |
| OldTestJxl.CompressionDataFacts | old_test_jxl.py:61-80 | the record raises exactly when a file cannot be read or the original is empty; otherwise it holds the paths, settings, sizes and formats, the size delta, and the percentage of the original |
| OldTestJxl.CompressionRowOrder | old_test_jxl.py:195-209 | the row holds each field under the column of the same name, in column order |
| OldTestJxl.CreateRowFromCompressionData | old_test_jxl.py:195-209 | one row is appended, and a table with these columns stays rectangular |
| OldTestJxl.SweepStep | old_test_jxl.py:459-471 | one encoding issues one command and appends one row, or raises |
| OldTestJxl.DatasetStep | old_test_jxl.py:456-471 | one image issues its commands and appends its rows, or raises |
| OldTestJxl.SweepPanicPersists | old_test_jxl.py:459-471 | a raise during the sweep is a raise for the image |
| OldTestJxl.DatasetPanicPersists | old_test_jxl.py:456-471 | a raise for one image is a raise for the dataset |
| OldTestJxl.CompressSetting | old_test_jxl.py:461-469 | one distance at one effort issues its command and appends its row, or the sweep raises |
| OldTestJxl.CompressAtEffort | old_test_jxl.py:460-471 | one effort issues the commands and appends the rows of all nine distances |
| OldTestJxl.CompressImage | old_test_jxl.py:457-471 | an image appends exactly its 81 planned rows and commands, or raises |
| OldTestJxl.CompressNextImage | old_test_jxl.py:456-471 | one more image extends the dataset's rows and commands |
| OldTestJxl.CompressImages | old_test_jxl.py:456-471 | the dataset appends exactly its planned rows and commands, or raises |
| OldTestJxl.CompressFromPng | old_test_jxl.py:450-473 | a new table is titled by the dataset and holds the planned rows of all globbed PNGs; no PNG or an unreadable file raises |
| OldTestJxl.SweepRowAt | old_test_jxl.py:459-471 | the `j`-th row of a sweep is the row of the `j`-th encoding |
| OldTestJxl.SettingDataFacts | old_test_jxl.py:464-468 | the `j`-th record names the original, the `j`-th file, and its effort and distance |
| OldTestJxl.SweepRowCells | old_test_jxl.py:459-471 | the `j`-th row starts with the original path, the `j`-th file name, its effort and its distance |
| OldTestJxl.SettingRowCells | old_test_jxl.py:195-209 | a record's row starts with its original path, file name, effort and distance |
| OldTestJxl.DatasetRowsLength | old_test_jxl.py:456-471 | a dataset of `n` images has `81n` rows |
| TestJxl.GetDatasetName | test_jxl.py:204-205 | a dataset name is the slash-free tail of the path |
| TestJxl.GetDatasetNameOfDir | test_jxl.py:204-205 | the name of `parent/name` is `name`, but with a trailing slash it is empty |
| TestJxl.AfterCjxl | test_jxl.py:264 | a run that produces output sets the output file to the encoded size; a run that does not leaves the disk as it was; no other file and no dimension changes |
| TestJxl.AfterEfforts | test_jxl.py:262-270 | an image's runs leave every dimension as it was |
| TestJxl.BeforeImage | test_jxl.py:258-270 | the disk each image starts from has the dimensions of the initial disk |
| TestJxl.LastEncoded | test_jxl.py:262-270 | the last effort up to `n` that produced output: it did produce output, no later effort up to `n` did, and none is found only when no effort did |
| TestJxl.OutputAfterEfforts | test_jxl.py:260-270 | after efforts 1 to `n` the output file holds what the last effort that produced output wrote, no other file changed, and with no such effort the disk is as before |
| TestJxl.CompressionDataFacts | test_jxl.py:46-63 | the record raises exactly when a file cannot be read or the input is empty; otherwise it holds the paths, effort, sizes and formats, the size delta, and the percentage of the input |
| TestJxl.CompressionRowOrder | test_jxl.py:115-128 | the row holds each field under the column of the same name, in column order |
| TestJxl.CreateRowFromCompressionData | test_jxl.py:115-128 | one row is appended, and a table with these columns stays rectangular |
| TestJxl.EffortCommands | test_jxl.py:262-270 | there is one encoder command per effort |
| TestJxl.EffortPanicPersists | test_jxl.py:262-270 | a raise at one effort is a raise for the image |
| TestJxl.DatasetPanicPersists | test_jxl.py:258-270 | a raise for one image is a raise for the dataset |
| TestJxl.DatasetStep | test_jxl.py:258-270 | one image issues its commands and appends its rows; the dataset succeeds exactly when the earlier images and this one do |
| TestJxl.DatasetGrows | test_jxl.py:258-270 | the table after one more image holds the rows of one more image |
| TestJxl.CompressAtEffort | test_jxl.py:263-270 | one effort issues its command and appends its row, or the image raises |
| TestJxl.CompressImage | test_jxl.py:259-270 | an image appends exactly its planned rows and commands, one per effort, and leaves the disk after its runs, or raises |
| TestJxl.CompressNextImage | test_jxl.py:258-270 | one more image, run on the disk the earlier images left, extends the dataset's rows and commands |
| TestJxl.CompressImages | test_jxl.py:258-270 | the dataset appends exactly its planned rows and commands, or raises |
| TestJxl.CompressFromPng | test_jxl.py:252-272 | a new table is titled by the dataset and holds the planned rows for efforts 1 to 10 of all globbed PNGs; no PNG or an unreadable file raises |
| TestJxl.EffortRowAt | test_jxl.py:262-270 | the `j`-th row of an image is the record of effort `j + 1` |
| TestJxl.ImageRowCells | test_jxl.py:262-270 | the `j`-th row names the input, the one output file and effort `j + 1`; its size column is the size effort `j + 1` wrote if it produced output, else that of the last earlier effort that did, else the file the image found on disk |
| TestJxl.EffortRowCells | test_jxl.py:265-269 | a record's row names the input, the output file and the effort, with the size the last run that produced output wrote, or the earlier file when none did |
| TestJxl.SingleOutputFile | test_jxl.py:259-260 | every effort of an image writes the same file, `<output>/<stem>.jxl`, so each encoding overwrites the last |
| TestJxl.DatasetRowsLast | test_jxl.py:258-270 | a successful dataset prefix is the previous prefix plus the last image's rows |
| TestJxl.DatasetRowsLength | test_jxl.py:258-270 | a dataset of `n` images has `n` rows per effort level |
| TestJxl.TenRowsPerImage | test_jxl.py:12 | with ten effort levels, each image contributes ten rows |
| TestJxl.EffortCommandAt | test_jxl.py:264 | the `j`-th command is `cjxl -e <j+1> <png> <output>` |
| TestJxl.DecompressOutputs | test_jxl.py:280-284 | there is one decoded file per input |
| TestJxl.DecompressCommands | test_jxl.py:283 | there is one decoder command per input |
| TestJxl.DecompressOutputAt | test_jxl.py:280-284 | the `j`-th output is `<output>/<stem>.png` of the `j`-th input, decoded by the `j`-th command |
| TestJxl.DecompressToPng | test_jxl.py:275-286 | no `.jxl` file fails the assertion with no command issued; otherwise every input is decoded, in order, and the outputs are returned |
| TestJxl.DecodedKeepsName | test_jxl.py:280-284 | each decoded file has the image name of its input |
| TestJxl.DecodedFileName | test_jxl.py:281-282 | a decoded file keeps the stem of the `.jxl` it came from |

## Left out

- Threads: a worker's running sweep is a flag plus a launch history, and joining stands for the sweep finishing. Interleavings, and the failure of a sweep's own thread, are not modelled.
- Process execution: Docker and git processes are parameters (`Spawn`: spawn failure or exit status with the two streams). The model classifies their results, and states argument vectors only for `execute_in_container` and `execute_cjxl` (`ExecArgs`, `CjxlArgs`). Other commands, the per-image clean, checkout, diff and build among them, are represented by what they report (`RunBenchmark.Preparation`, one per task).
- `retrieve_file`, `teardown`, `change_libjxl_commit`, `apply_diff`, `clean_libjxl`, `build_libjxl`, `execute_ssimulacra2` and `execute_butteraugli` are thin wrappers over a process call. Only the classification they share is modelled (`ExecuteCommand`, `ExecuteInContainer`, `ApplyLocalAsDiff`); `RunBenchmark.Prepare` applies it to the per-image calls.
- `compare_to_orig`, `calculate_mse`, `calculate_psnr` and `calculate_ssim` are left out. They are floating-point image arithmetic, and the decoded pixels are not modelled. `compare_to_orig` is in `benchmark.rs` at 812 onwards.
- CSV reading and writing (`csv_writer.rs`), `utils.rs`, `main.rs`, `config.rs` and `context.rs` are not part of this model. The context is a datatype and the result CSVs come in as a map from path to rows.
- The per-image body of `JXLCompressionBenchmark::run` is left out except the sweep of encoder jobs. This covers reading the files back, writing results and the per-job metrics.
- Sweep.DistanceToken: Rust's `{}` printing of `f64` is modelled only for the sweep's distances, which are multiples of 0.1 below 100. General float printing is not modelled.
- Decimal parsing (`Text.ParseDecimal`) accepts an optional sign, digits and an optional fraction. Exponents, `inf` and `NaN` are not accepted, and `f32` rounding is not modelled.
- RunBenchmark.RunBenchmark: the test-set loop resets the revision, the flags and the CSV list for each test set, as the Findings row explains. The source clears the flags in `self.context` during the first test set's commit loop (benchmark.rs:474-485) and never restores them, so later test sets run with both flags cleared; the corrected loop starts every test set from the configured flags. Within a test set the model follows the source: `RevisionContext` gives each revision's payloads the flags still set at that pass (`RevisionContextFlags`).
- RunBenchmark.Preparation: the clean, checkout and build of one image are keyed by its task. Which worker's container ran them, and what an earlier image left in that container, are not modelled.
- Integer overflow: the model assumes a build with overflow checks, so `run + 1` on a run directory named `usize::MAX` (benchmark.rs:245) and the `u32` product `width * height * bytes_per_pixel` (image_reader.rs:642, 664) panic. A release build wraps instead: the run number becomes 0 and the scan goes on, and the raw size is taken modulo 2^32. This applies to ImageReader.RawSize, ImageReader.GetRawSize, ImageReader.GetRawJxlSize, Resolver.GetCurrentRun, WorkerPool.NewBenchmarker and RunBenchmark.RunBenchmark.
- Comparison.Summarize: Rust divides by zero for an empty comparison and writes NaN. The model returns `None` instead.
- ImageReader.ReadImage: the decoder's result and the file size are parameters; reading the file twice (for the size and for the metadata) is one read. Which step panics first decides only the message, which is not modelled.
- The `full_name` of `ColorType` and the `Display` impls used only for CSV output are left out.
- `main`, argument parsing, plotting (`boxplot_csv_file`), `to_csv`, `run_command` and `start_test_run` in the Python scripts are left out. They are I/O and orchestration over the modelled functions, and their commands are returned as strings.
- The old script's `decompress_to_png` and `ImageDecompressionData` (old_test_jxl.py:100-131, 476-502) are outside the modelled core. They are a second 9 x 9 sweep that runs one `djxl` command per setting and builds a table of decompression rows: the decompressed size, its deltas to the original and compressed sizes, and the two percentages, where an empty `.jxl` raises `ZeroDivisionError`.
- OldTestJxl.CompressFromPng: `disk` is the file system after the whole sweep, not before it, and the encoder's writes are not modelled as steps. Each row reads its output's size from that final state, where the source reads it right after the run that wrote it. The two agree because no file is written twice: one image's settings write distinct files (`CompressNamesDistinct`), the images of one directory have distinct stems, and no `.jxl` output is a `.png` input. `TestJxl` models the encoder's writes step by step instead, because its sweep overwrites one output file.
- Floating point: the `f64` sums and means of `compare_results` and the Python scripts' ratios are exact reals. So `Comparison.SumOfDiffs` and `Comparison.MeanIsDifferenceOfMeans` hold in `f64` only up to rounding. Reals have no NaN, so a log whose `distance` field is NaN is not modelled. In the source it would fail the `distance` equality assertion of `compare_results` (benchmark.rs:696) even against itself, where `DiffRows` lets it through.
- Python paths are modelled without `os.path.abspath` normalisation. `int()` accepts ASCII digits, underscores, whitespace and a sign, but not the other Unicode digits. `glob` returns matches in listing order, which is a parameter.
- PyCommon.Table.CreateCol: Python lists are aliased. The model copies rows and does not share row lists between tables.
- TestJxl.CompressFromPng and OldTestJxl.CompressFromPng: when a row raises, the commands issued before the raise are not described.
- Panic messages are simplified to short descriptions. Which calls panic is kept; the exact text is not.
- TestJxl.AfterCjxl: the encoder's effect on the disk is an `Encodings` map from input and effort to output size. The size it writes depends only on the input and the effort, and a run that produces no output leaves the disk untouched.

## Findings

| source | as written | input that shows it | evidently intended | confidence | as-written member | corrected member |
|---|---|---|---|---|---|---|
| benchmark-jpegxl/src/benchmark.rs:316-502 | `commit` and `comparison_csvs` are declared once, before the test-set loop, and never reset. | Two test sets and no comparison flags: the second test set compares its CSV with the first test set's, and a third test set panics with "More than 2 comparison CSVs found". With a comparison commit, the second test set visits only that commit and panics with three CSVs. | Each test set starts again from the base commit with no CSVs, and compares only its own revisions. | not executed | RunBenchmark.AsWrittenComparisonPanicsOnSecondTestSet | RunBenchmark.ResetComparesWithinTestSet |
| benchmark-jpegxl/src/image_reader.rs:598-615 | `get_format` has no `"jxl"` arm, so a `.jxl` file falls through to `ImageFormat::Jpeg`. | `get_format("out/x-1-5.jxl")` gives `Jpeg`, so every compressed image is recorded as JPEG. | `"jxl"` maps to `ImageFormat::JpegXl`, the format `as_ext` writes as `.jxl`. | not executed | ImageReader.GetFormatAsWritten | ImageReader.GetFormatFixedRoundTrip |
