/** The second Python harness, `test_jxl.py`: for every PNG image of a
    dataset it runs `cjxl` at efforts 1 to 10 into one output file per
    image, records one table row per run, decodes every `.jxl` of a
    directory back to PNG with `djxl`, and compares image sets pairwise by
    name. Run numbering, `setup_paths`, globbing, `Table` and
    `compare_images` are shared with its predecessor and live in
    `PyCommon`; what is particular to this script is here. */
module TestJxl {
  import opened Wrappers
  import opened Text
  import opened PyCommon

  const EFFORT_LEVELS := 10

  /** `get_dataset_name`: the last path component, with no special case
      for a trailing '/'. */
  function GetDatasetName(datasetPath: string): (name: string)
    ensures '/' !in name
    ensures |name| <= |datasetPath| && name == datasetPath[|datasetPath| - |name|..]
  {
    Basename(datasetPath)
  }

  /** A dataset directory written without a trailing '/' is named after
      its last component; written with one, its name is empty. */
  lemma GetDatasetNameOfDir(parent: string, name: string)
    requires '/' !in name
    ensures GetDatasetName(parent + "/" + name) == name
    ensures GetDatasetName(parent + "/" + name + "/") == ""
  {
    BasenameOfJoin(parent, name);
    var p := parent + "/" + name;
    BasenameOfJoin(p, "");
    assert p + "/" + "" == p + "/";
  }

  // ---------------------------------------------------------------------
  // What `cjxl` leaves on disk

  /** The size of the file `cjxl -e <effort> <input> <output>` writes, by
      input and effort; a missing entry means the command leaves no
      output file. */
  type Encodings = map<(string, nat), nat>

  /** The disk right after `cjxl -e <effort> <input> <output>`: when the
      encoder produces output, the output file has the size it gave it;
      otherwise the disk is as it was, so a file an earlier run left at
      the output path is still there. No other file changes. */
  function AfterCjxl(disk: Disk, encodings: Encodings, input: string, output: string, effort: nat): (d: Disk)
    ensures d.dims == disk.dims
    ensures d.sizes - {output} == disk.sizes - {output}
    ensures (input, effort) in encodings ==> output in d.sizes && d.sizes[output] == encodings[(input, effort)]
    ensures (input, effort) !in encodings ==> d == disk
  {
    if (input, effort) in encodings then Disk(disk.sizes[output := encodings[(input, effort)]], disk.dims)
    else disk
  }

  // ---------------------------------------------------------------------
  // ImageCompressionData and its row

  /** `ImageCompressionData`: the fields its constructor records. */
  datatype CompressionData = CompressionData(
    inputImagePath: string,
    compressedImagePath: string,
    compressionEffort: int,
    imageDims: string,
    inputImageSize: nat,
    inputImageFormat: string,
    compressedImageSize: nat,
    compressedImageFormat: string,
    deltaSize: int,
    percentOfOrig: real)

  /** `ImageCompressionData(...)`: read the input's dimensions and size and
      the output's size (raising when a file is missing), take both formats
      from the paths, and relate the sizes; an empty input raises
      `ZeroDivisionError`. */
  function NewCompressionData(disk: Disk, input: string, compressed: string, effort: int): Outcome<CompressionData> {
    if input !in disk.dims then Panic("FileNotFoundError: " + input)
    else if input !in disk.sizes then Panic("FileNotFoundError: " + input)
    else if compressed !in disk.sizes then Panic("FileNotFoundError: " + compressed)
    else if disk.sizes[input] == 0 then Panic("ZeroDivisionError: division by zero")
    else
      var inputSize: int := disk.sizes[input];
      var compressedSize: int := disk.sizes[compressed];
      Value(CompressionData(input, compressed, effort, DimsText(disk.dims[input].0, disk.dims[input].1),
        inputSize, ImageFormatOf(input), compressedSize, ImageFormatOf(compressed),
        compressedSize - inputSize, compressedSize as real / inputSize as real * 100.0))
  }

  /** When `ImageCompressionData` raises, and what it records otherwise:
      the two paths and the effort as given, both sizes as on disk, both
      formats from the paths, and `delta_size` and `percent_of_orig`
      relating the sizes. */
  lemma CompressionDataFacts(disk: Disk, input: string, compressed: string, effort: int)
    ensures NewCompressionData(disk, input, compressed, effort).Panic? <==>
      input !in disk.dims || input !in disk.sizes || compressed !in disk.sizes || disk.sizes[input] == 0
    ensures NewCompressionData(disk, input, compressed, effort).Value? ==>
      var cd := NewCompressionData(disk, input, compressed, effort).value;
      && cd.inputImagePath == input && cd.compressedImagePath == compressed
      && cd.compressionEffort == effort
      && cd.inputImageSize == disk.sizes[input] && cd.compressedImageSize == disk.sizes[compressed]
      && cd.inputImageFormat == ImageFormatOf(input) && cd.compressedImageFormat == ImageFormatOf(compressed)
      && cd.deltaSize + cd.inputImageSize == cd.compressedImageSize
      && cd.percentOfOrig * (cd.inputImageSize as real) == (cd.compressedImageSize as real) * 100.0
  {
  }

  /** `ImageCompressionData.get_col_names()`. */
  const COL_NAMES: seq<string> := [
    "Input Image Path",
    "Compressed Image Path",
    "Compression Effort",
    "Image Dims",
    "Input Image Size",
    "Input Image Format",
    "Compressed Image Size",
    "Compressed Image Format",
    "Delta Size",
    "Percent Of Orig"
  ]

  /** The field a column name stands for. */
  function Field(cd: CompressionData, colName: string): Option<Cell> {
    if colName == "Input Image Path" then Some(Str(cd.inputImagePath))
    else if colName == "Compressed Image Path" then Some(Str(cd.compressedImagePath))
    else if colName == "Compression Effort" then Some(Int(cd.compressionEffort))
    else if colName == "Image Dims" then Some(Str(cd.imageDims))
    else if colName == "Input Image Size" then Some(Int(cd.inputImageSize))
    else if colName == "Input Image Format" then Some(Str(cd.inputImageFormat))
    else if colName == "Compressed Image Size" then Some(Int(cd.compressedImageSize))
    else if colName == "Compressed Image Format" then Some(Str(cd.compressedImageFormat))
    else if colName == "Delta Size" then Some(Int(cd.deltaSize))
    else if colName == "Percent Of Orig" then Some(Float(cd.percentOfOrig))
    else None
  }

  /** The row `create_row_from_compression_data` builds. */
  function CompressionRow(cd: CompressionData): seq<Cell> {
    [Str(cd.inputImagePath), Str(cd.compressedImagePath), Int(cd.compressionEffort),
     Str(cd.imageDims), Int(cd.inputImageSize), Str(cd.inputImageFormat),
     Int(cd.compressedImageSize), Str(cd.compressedImageFormat), Int(cd.deltaSize), Float(cd.percentOfOrig)]
  }

  /** The row is in `get_col_names` order: one cell per column, each the
      field its column names. */
  lemma CompressionRowOrder(cd: CompressionData)
    ensures |CompressionRow(cd)| == |COL_NAMES|
    ensures forall i :: 0 <= i < |COL_NAMES| ==> Field(cd, COL_NAMES[i]) == Some(CompressionRow(cd)[i])
  {
  }

  /** `Table.create_row_from_compression_data`. */
  method CreateRowFromCompressionData(t: Table, cd: CompressionData)
    modifies t
    ensures t.title == old(t.title) && t.colNames == old(t.colNames)
    ensures t.data == old(t.data) + [CompressionRow(cd)]
    ensures old(t.Rectangular()) && t.colNames == COL_NAMES ==> t.Rectangular()
  {
    t.CreateRow(CompressionRow(cd));
  }

  // ---------------------------------------------------------------------
  // compress_from_png

  /** `f"{output_dir}/{file_name}.jxl"`: the one output file every effort
      of an image writes. */
  function OutputFile(outputDir: string, png: string): string {
    outputDir + "/" + ImageName(png) + ".jxl"
  }

  /** `f"cjxl -e {effort} {png_file} {output_file}"`. */
  function CompressCommand(effort: nat, png: string, outputFile: string): string {
    "cjxl -e " + NatToString(effort) + " " + png + " " + outputFile
  }

  /** The disk after image `png`'s runs at efforts 1 to `n`, starting
      from `disk`: every run writes the same output file. */
  function AfterEfforts(disk: Disk, encodings: Encodings, png: string, outputDir: string, n: nat): (d: Disk)
    ensures d.dims == disk.dims
    decreases n
  {
    if n == 0 then disk
    else AfterCjxl(AfterEfforts(disk, encodings, png, outputDir, n - 1), encodings, png, OutputFile(outputDir, png), n)
  }

  /** The data recorded for image `png` right after its run at `effort`,
      its runs having started from `disk`. */
  function EffortData(disk: Disk, encodings: Encodings, png: string, outputDir: string, effort: nat)
    : Outcome<CompressionData>
  {
    var out := OutputFile(outputDir, png);
    NewCompressionData(AfterEfforts(disk, encodings, png, outputDir, effort), png, out, effort)
  }

  // The loops below take the effort bound as a parameter `levels`;
  // `compress_from_png` runs them with `EFFORT_LEVELS`.

  /** The rows image `png` adds for efforts 1 to `n`; the first missing
      file or empty input raises. */
  function EffortRows(disk: Disk, encodings: Encodings, png: string, outputDir: string, n: nat)
    : Outcome<seq<seq<Cell>>>
    decreases n
  {
    if n == 0 then Value([])
    else
      match EffortRows(disk, encodings, png, outputDir, n - 1)
      case Panic(m) => Panic(m)
      case Value(rows) =>
        match EffortData(disk, encodings, png, outputDir, n)
        case Panic(m) => Panic(m)
        case Value(cd) => Value(rows + [CompressionRow(cd)])
  }

  /** The `cjxl` commands for image `png` at efforts 1 to `n`. */
  function EffortCommands(png: string, outputDir: string, n: nat): (cmds: seq<string>)
    ensures |cmds| == n
    decreases n
  {
    if n == 0 then []
    else EffortCommands(png, outputDir, n - 1) + [CompressCommand(n, png, OutputFile(outputDir, png))]
  }

  /** A raise at one effort is a raise for the whole image. */
  lemma {:induction false} EffortPanicPersists(disk: Disk, encodings: Encodings, png: string, outputDir: string,
                                               n: nat, levels: nat)
    requires n <= levels && EffortRows(disk, encodings, png, outputDir, n).Panic?
    ensures EffortRows(disk, encodings, png, outputDir, levels).Panic?
    decreases levels - n
  {
    if n < levels {
      EffortPanicPersists(disk, encodings, png, outputDir, n + 1, levels);
    }
  }

  /** The disk image `n` starts from: `disk` after the runs of the images
      before it, in order. */
  function BeforeImage(disk: Disk, encodings: Encodings, pngs: seq<string>, outputDir: string, levels: nat, n: nat)
    : (d: Disk)
    requires n <= |pngs|
    ensures d.dims == disk.dims
    decreases n
  {
    if n == 0 then disk
    else AfterEfforts(BeforeImage(disk, encodings, pngs, outputDir, levels, n - 1), encodings, pngs[n - 1], outputDir, levels)
  }

  /** The rows of the first `n` images. */
  function DatasetRows(disk: Disk, encodings: Encodings, pngs: seq<string>, outputDir: string, levels: nat, n: nat)
    : Outcome<seq<seq<Cell>>>
    requires n <= |pngs|
    decreases n
  {
    if n == 0 then Value([])
    else
      match DatasetRows(disk, encodings, pngs, outputDir, levels, n - 1)
      case Panic(m) => Panic(m)
      case Value(rows) =>
        match EffortRows(BeforeImage(disk, encodings, pngs, outputDir, levels, n - 1), encodings, pngs[n - 1], outputDir, levels)
        case Panic(m) => Panic(m)
        case Value(more) => Value(rows + more)
  }

  /** The commands for the first `n` images. */
  function DatasetCommands(pngs: seq<string>, outputDir: string, levels: nat, n: nat): seq<string>
    requires n <= |pngs|
    decreases n
  {
    if n == 0 then []
    else DatasetCommands(pngs, outputDir, levels, n - 1) + EffortCommands(pngs[n - 1], outputDir, levels)
  }

  /** A raise on one image is a raise for the dataset. */
  lemma {:induction false} DatasetPanicPersists(disk: Disk, encodings: Encodings, pngs: seq<string>, outputDir: string,
                                                levels: nat, n: nat)
    requires n <= |pngs| && DatasetRows(disk, encodings, pngs, outputDir, levels, n).Panic?
    ensures DatasetRows(disk, encodings, pngs, outputDir, levels, |pngs|).Panic?
    decreases |pngs| - n
  {
    if n < |pngs| {
      DatasetPanicPersists(disk, encodings, pngs, outputDir, levels, n + 1);
    }
  }

  /** Image `i` extends the dataset by its commands, then its rows or its
      raise. */
  lemma DatasetStep(disk: Disk, encodings: Encodings, pngs: seq<string>, outputDir: string, levels: nat, i: nat)
    requires i < |pngs|
    ensures DatasetCommands(pngs, outputDir, levels, i + 1)
      == DatasetCommands(pngs, outputDir, levels, i) + EffortCommands(pngs[i], outputDir, levels)
    ensures DatasetRows(disk, encodings, pngs, outputDir, levels, i + 1).Value? <==>
      DatasetRows(disk, encodings, pngs, outputDir, levels, i).Value?
      && EffortRows(BeforeImage(disk, encodings, pngs, outputDir, levels, i), encodings, pngs[i], outputDir, levels).Value?
    ensures DatasetRows(disk, encodings, pngs, outputDir, levels, i + 1).Value? ==>
      DatasetRows(disk, encodings, pngs, outputDir, levels, i + 1).value
        == DatasetRows(disk, encodings, pngs, outputDir, levels, i).value
           + EffortRows(BeforeImage(disk, encodings, pngs, outputDir, levels, i), encodings, pngs[i], outputDir, levels).value
  {
  }

  /** Rows that continue the first `i` images' rows by image `i`'s rows
      continue them to `i + 1` images. */
  lemma DatasetGrows(disk: Disk, encodings: Encodings, pngs: seq<string>, outputDir: string, levels: nat, i: nat,
                     before: seq<seq<Cell>>, data: seq<seq<Cell>>)
    requires i < |pngs| && DatasetRows(disk, encodings, pngs, outputDir, levels, i).Value?
    requires EffortRows(BeforeImage(disk, encodings, pngs, outputDir, levels, i), encodings, pngs[i], outputDir, levels).Value?
    requires data == before + DatasetRows(disk, encodings, pngs, outputDir, levels, i).value
      + EffortRows(BeforeImage(disk, encodings, pngs, outputDir, levels, i), encodings, pngs[i], outputDir, levels).value
    ensures DatasetRows(disk, encodings, pngs, outputDir, levels, i + 1).Value?
    ensures data == before + DatasetRows(disk, encodings, pngs, outputDir, levels, i + 1).value
  {
    DatasetStep(disk, encodings, pngs, outputDir, levels, i);
    var done := DatasetRows(disk, encodings, pngs, outputDir, levels, i).value;
    var added := EffortRows(BeforeImage(disk, encodings, pngs, outputDir, levels, i), encodings, pngs[i], outputDir, levels).value;
    ConcatAssoc(before, done, added);
  }

  lemma ConcatEmpty<T>(a: seq<T>)
    ensures a + [] == a
  {
  }

  lemma ConcatAssoc<T>(a: seq<T>, b: seq<T>, c: seq<T>)
    ensures a + b + c == a + (b + c)
  {
  }

  /** One pass of the `while effort <= EFFORT_LEVELS` loop: the `cjxl`
      command at `effort`, which takes the disk `cur` to its next state,
      then the row of the data it records or its raise, continuing the
      rows `t` already ends with. */
  method CompressAtEffort(t: Table, disk: Disk, cur: Disk, encodings: Encodings, png: string, outputFile: string,
                          outputDir: string, effort: nat, levels: nat, ghost before: seq<seq<Cell>>, issued: seq<string>)
    returns (r: Outcome<()>, commands: seq<string>, next: Disk)
    requires 1 <= effort <= levels && outputFile == OutputFile(outputDir, png)
    requires cur == AfterEfforts(disk, encodings, png, outputDir, effort - 1)
    requires EffortRows(disk, encodings, png, outputDir, effort - 1).Value?
    requires t.data == before + EffortRows(disk, encodings, png, outputDir, effort - 1).value
    requires issued == EffortCommands(png, outputDir, effort - 1)
    modifies t
    ensures t.title == old(t.title) && t.colNames == old(t.colNames)
    ensures commands == EffortCommands(png, outputDir, effort)
    ensures next == AfterEfforts(disk, encodings, png, outputDir, effort)
    ensures r.Panic? ==> EffortRows(disk, encodings, png, outputDir, levels).Panic?
    ensures r.Value? ==>
      && EffortRows(disk, encodings, png, outputDir, effort).Value?
      && t.data == before + EffortRows(disk, encodings, png, outputDir, effort).value
  {
    commands := issued + [CompressCommand(effort, png, outputFile)];
    next := AfterCjxl(cur, encodings, png, outputFile, effort);
    var cd := NewCompressionData(next, png, outputFile, effort);
    if cd.Panic? {
      EffortPanicPersists(disk, encodings, png, outputDir, effort, levels);
      return Panic(cd.reason), commands, next;
    }
    CreateRowFromCompressionData(t, cd.value);
    r := Value(());
  }

  /** The runs of one image from the disk `disk`: efforts 1 to `levels`
      into `<output_dir>/<stem>.jxl`, one command and one row each, in
      order, or the first raise; `after` is the disk the runs leave. */
  method CompressImage(t: Table, disk: Disk, encodings: Encodings, png: string, outputDir: string, levels: nat)
    returns (r: Outcome<()>, commands: seq<string>, after: Disk)
    modifies t
    ensures t.title == old(t.title) && t.colNames == old(t.colNames)
    ensures r.Value? <==> EffortRows(disk, encodings, png, outputDir, levels).Value?
    ensures r.Value? ==>
      t.data == old(t.data) + EffortRows(disk, encodings, png, outputDir, levels).value
      && commands == EffortCommands(png, outputDir, levels)
      && after == AfterEfforts(disk, encodings, png, outputDir, levels)
  {
    var fileName := Basename(Root(png));
    ImageNameIsSplitOfRoot(png);
    var outputFile := outputDir + "/" + fileName + ".jxl";
    commands := [];
    after := disk;
    ConcatEmpty(t.data);
    var effort := 1;
    while effort <= levels
      invariant 1 <= effort <= levels + 1
      invariant t.title == old(t.title) && t.colNames == old(t.colNames)
      invariant after == AfterEfforts(disk, encodings, png, outputDir, effort - 1)
      invariant EffortRows(disk, encodings, png, outputDir, effort - 1).Value?
      invariant t.data == old(t.data) + EffortRows(disk, encodings, png, outputDir, effort - 1).value
      invariant commands == EffortCommands(png, outputDir, effort - 1)
    {
      var done;
      done, commands, after :=
        CompressAtEffort(t, disk, after, encodings, png, outputFile, outputDir, effort, levels, old(t.data), commands);
      if done.Panic? {
        return done, commands, after;
      }
      effort := effort + 1;
    }
    r := Value(());
  }

  /** One pass of the `for png_file in input_files` loop: the runs of
      image `i` from the disk `cur` the images before it left, continuing
      their rows. */
  method CompressNextImage(t: Table, disk: Disk, cur: Disk, encodings: Encodings, pngs: seq<string>, outputDir: string,
                           levels: nat, i: nat, ghost before: seq<seq<Cell>>, issued: seq<string>)
    returns (r: Outcome<()>, commands: seq<string>, next: Disk)
    requires i < |pngs| && cur == BeforeImage(disk, encodings, pngs, outputDir, levels, i)
    requires DatasetRows(disk, encodings, pngs, outputDir, levels, i).Value?
    requires t.data == before + DatasetRows(disk, encodings, pngs, outputDir, levels, i).value
    requires issued == DatasetCommands(pngs, outputDir, levels, i)
    modifies t
    ensures t.title == old(t.title) && t.colNames == old(t.colNames)
    ensures r.Panic? ==> DatasetRows(disk, encodings, pngs, outputDir, levels, i + 1).Panic?
    ensures r.Value? ==>
      && DatasetRows(disk, encodings, pngs, outputDir, levels, i + 1).Value?
      && t.data == before + DatasetRows(disk, encodings, pngs, outputDir, levels, i + 1).value
      && commands == DatasetCommands(pngs, outputDir, levels, i + 1)
      && next == BeforeImage(disk, encodings, pngs, outputDir, levels, i + 1)
  {
    var more;
    r, more, next := CompressImage(t, cur, encodings, pngs[i], outputDir, levels);
    commands := issued + more;
    DatasetStep(disk, encodings, pngs, outputDir, levels, i);
    if r.Value? {
      DatasetGrows(disk, encodings, pngs, outputDir, levels, i, before, t.data);
    }
  }

  /** The image loop: the runs of every image in order, one disk carried
      from each run to the next, or the first raise. */
  method CompressImages(t: Table, disk: Disk, encodings: Encodings, pngs: seq<string>, outputDir: string, levels: nat)
    returns (r: Outcome<()>, commands: seq<string>)
    modifies t
    ensures t.title == old(t.title) && t.colNames == old(t.colNames)
    ensures r.Value? <==> DatasetRows(disk, encodings, pngs, outputDir, levels, |pngs|).Value?
    ensures r.Value? ==>
      t.data == old(t.data) + DatasetRows(disk, encodings, pngs, outputDir, levels, |pngs|).value
      && commands == DatasetCommands(pngs, outputDir, levels, |pngs|)
  {
    commands := [];
    var cur := disk;
    ConcatEmpty(t.data);
    var i := 0;
    while i < |pngs|
      invariant 0 <= i <= |pngs|
      invariant t.title == old(t.title) && t.colNames == old(t.colNames)
      invariant cur == BeforeImage(disk, encodings, pngs, outputDir, levels, i)
      invariant DatasetRows(disk, encodings, pngs, outputDir, levels, i).Value?
      invariant t.data == old(t.data) + DatasetRows(disk, encodings, pngs, outputDir, levels, i).value
      invariant commands == DatasetCommands(pngs, outputDir, levels, i)
    {
      var done;
      done, commands, cur := CompressNextImage(t, disk, cur, encodings, pngs, outputDir, levels, i, old(t.data), commands);
      if done.Panic? {
        DatasetPanicPersists(disk, encodings, pngs, outputDir, levels, i + 1);
        return done, commands;
      }
      i := i + 1;
    }
    r := Value(());
  }

  /** `compress_from_png(input_dir, output_dir)`: a fresh table titled
      after the dataset with the ten columns, then efforts 1 to
      `EFFORT_LEVELS` for every globbed PNG image in glob order. */
  method CompressFromPng(disk: Disk, encodings: Encodings, inputDir: string, inputNames: seq<string>, outputDir: string)
    returns (r: Outcome<Table>, commands: seq<string>)
    ensures var pngs := MatchingPaths(inputDir, inputNames, Png);
      r.Value? <==> |pngs| > 0 && DatasetRows(disk, encodings, pngs, outputDir, EFFORT_LEVELS, |pngs|).Value?
    ensures var pngs := MatchingPaths(inputDir, inputNames, Png);
      r.Value? ==>
        && fresh(r.value)
        && r.value.title == "Compression Data for Image Dataset " + GetDatasetName(inputDir)
        && r.value.colNames == COL_NAMES
        && r.value.data == DatasetRows(disk, encodings, pngs, outputDir, EFFORT_LEVELS, |pngs|).value
        && commands == DatasetCommands(pngs, outputDir, EFFORT_LEVELS, |pngs|)
  {
    commands := [];
    var datasetName := GetDatasetName(inputDir);
    var table := new Table("Compression Data for Image Dataset " + datasetName, Some(COL_NAMES), None);
    var inputFiles := ImagesInDir(inputDir, inputNames, Png);
    if inputFiles.Panic? {
      return Panic(inputFiles.reason), commands;
    }
    var done;
    done, commands := CompressImages(table, disk, encodings, inputFiles.value, outputDir, EFFORT_LEVELS);
    if done.Panic? {
      return Panic(done.reason), commands;
    }
    r := Value(table);
  }

  // ---------------------------------------------------------------------
  // What compress_from_png records

  /** Row `j` of an image's rows is the row of its data at effort `j + 1`,
      and there is one row per effort. */
  lemma {:induction false} EffortRowAt(disk: Disk, encodings: Encodings, png: string, outputDir: string, n: nat, j: nat)
    requires j < n && EffortRows(disk, encodings, png, outputDir, n).Value?
    ensures |EffortRows(disk, encodings, png, outputDir, n).value| == n
    ensures EffortData(disk, encodings, png, outputDir, j + 1).Value?
    ensures EffortRows(disk, encodings, png, outputDir, n).value[j]
      == CompressionRow(EffortData(disk, encodings, png, outputDir, j + 1).value)
    decreases n
  {
    var prev := EffortRows(disk, encodings, png, outputDir, n - 1);
    assert prev.Value?;
    if n - 1 > j {
      EffortRowAt(disk, encodings, png, outputDir, n - 1, j);
    } else if j > 0 {
      EffortRowAt(disk, encodings, png, outputDir, n - 1, j - 1);
    }
  }

  /** The last effort among 1 to `n` at which `cjxl` produced output for
      `png`, if any. */
  function LastEncoded(encodings: Encodings, png: string, n: nat): (k: Option<nat>)
    ensures k.Some? ==> 1 <= k.value <= n && (png, k.value) in encodings
    ensures k.Some? ==> forall e :: k.value < e <= n ==> (png, e) !in encodings
    ensures k.None? ==> forall e :: 1 <= e <= n ==> (png, e) !in encodings
    decreases n
  {
    if n == 0 then None
    else if (png, n) in encodings then Some(n)
    else LastEncoded(encodings, png, n - 1)
  }

  /** After efforts 1 to `n`, the image's output file holds what the last
      effort that produced output wrote; when none did, the disk is as it
      was before the image's first run. */
  lemma {:induction false} OutputAfterEfforts(disk: Disk, encodings: Encodings, png: string, outputDir: string, n: nat)
    ensures var d := AfterEfforts(disk, encodings, png, outputDir, n);
      var out := OutputFile(outputDir, png);
      var k := LastEncoded(encodings, png, n);
      && d.sizes - {out} == disk.sizes - {out}
      && (k.Some? ==> out in d.sizes && d.sizes[out] == encodings[(png, k.value)])
      && (k.None? ==> d == disk)
    decreases n
  {
    if n > 0 {
      OutputAfterEfforts(disk, encodings, png, outputDir, n - 1);
    }
  }

  /** What row `j` of an image's rows records: the input, the image's one
      output file, effort `j + 1` and, in the size column, the size the
      last effort up to `j + 1` that produced output wrote (the output
      file of a failed run is the one before it), among one row per
      effort. */
  lemma ImageRowCells(disk: Disk, encodings: Encodings, png: string, outputDir: string, levels: nat, j: nat)
    requires j < levels && EffortRows(disk, encodings, png, outputDir, levels).Value?
    ensures |EffortRows(disk, encodings, png, outputDir, levels).value| == levels
    ensures var row := EffortRows(disk, encodings, png, outputDir, levels).value[j];
      var out := OutputFile(outputDir, png);
      var k := LastEncoded(encodings, png, j + 1);
      && |row| == |COL_NAMES|
      && row[0] == Str(png)
      && row[1] == Str(out)
      && row[2] == Int(j + 1)
      && ((png, j + 1) in encodings ==> row[6] == Int(encodings[(png, j + 1)]))
      && (k.Some? ==> row[6] == Int(encodings[(png, k.value)]))
      && (k.None? ==> out in disk.sizes && row[6] == Int(disk.sizes[out]))
  {
    EffortRowAt(disk, encodings, png, outputDir, levels, j);
    EffortRowCells(disk, encodings, png, outputDir, j + 1);
  }

  lemma EffortRowCells(disk: Disk, encodings: Encodings, png: string, outputDir: string, effort: nat)
    requires EffortData(disk, encodings, png, outputDir, effort).Value?
    ensures var row := CompressionRow(EffortData(disk, encodings, png, outputDir, effort).value);
      var out := OutputFile(outputDir, png);
      var k := LastEncoded(encodings, png, effort);
      && |row| == |COL_NAMES|
      && row[0] == Str(png)
      && row[1] == Str(out)
      && row[2] == Int(effort)
      && (1 <= effort && (png, effort) in encodings ==> row[6] == Int(encodings[(png, effort)]))
      && (k.Some? ==> row[6] == Int(encodings[(png, k.value)]))
      && (k.None? ==> out in disk.sizes && row[6] == Int(disk.sizes[out]))
  {
    var out := OutputFile(outputDir, png);
    CompressionDataFacts(AfterEfforts(disk, encodings, png, outputDir, effort), png, out, effort);
    OutputAfterEfforts(disk, encodings, png, outputDir, effort);
  }

  /** Every row of an image names the same output file: the image's stem
      with `.jxl`, in the output directory. */
  lemma SingleOutputFile(disk: Disk, encodings: Encodings, inputDir: string, name: string, outputDir: string,
                         levels: nat, i: nat, j: nat)
    requires GlobMatches(name, Png) && '/' !in name
    requires i < levels && j < levels
    requires EffortRows(disk, encodings, PathJoin(inputDir, name), outputDir, levels).Value?
    ensures var rows := EffortRows(disk, encodings, PathJoin(inputDir, name), outputDir, levels).value;
      && |rows| == levels
      && |rows[i]| == |rows[j]| == |COL_NAMES|
      && rows[i][1] == rows[j][1] == Str(outputDir + "/" + name[..|name| - 4] + ".jxl")
  {
    GlobbedImageName(inputDir, name, Png);
    ImageRowCells(disk, encodings, PathJoin(inputDir, name), outputDir, levels, i);
    ImageRowCells(disk, encodings, PathJoin(inputDir, name), outputDir, levels, j);
  }

  /** The rows of `n` images are those of the first `n - 1` images
      followed by those of image `n - 1`. */
  lemma DatasetRowsLast(disk: Disk, encodings: Encodings, pngs: seq<string>, outputDir: string, levels: nat, n: nat)
    requires 0 < n <= |pngs| && DatasetRows(disk, encodings, pngs, outputDir, levels, n).Value?
    ensures DatasetRows(disk, encodings, pngs, outputDir, levels, n - 1).Value?
    ensures EffortRows(BeforeImage(disk, encodings, pngs, outputDir, levels, n - 1), encodings, pngs[n - 1], outputDir, levels).Value?
    ensures |DatasetRows(disk, encodings, pngs, outputDir, levels, n).value|
      == |DatasetRows(disk, encodings, pngs, outputDir, levels, n - 1).value|
         + |EffortRows(BeforeImage(disk, encodings, pngs, outputDir, levels, n - 1), encodings, pngs[n - 1], outputDir, levels).value|
  {
  }

  /** The rows of `n` images number `levels` per image. */
  lemma {:induction false} DatasetRowsLength(disk: Disk, encodings: Encodings, pngs: seq<string>, outputDir: string,
                                             levels: nat, n: nat)
    requires n <= |pngs| && DatasetRows(disk, encodings, pngs, outputDir, levels, n).Value?
    ensures |DatasetRows(disk, encodings, pngs, outputDir, levels, n).value| == n * levels
    decreases n
  {
    if n > 0 {
      DatasetRowsLast(disk, encodings, pngs, outputDir, levels, n);
      DatasetRowsLength(disk, encodings, pngs, outputDir, levels, n - 1);
      if levels > 0 {
        EffortRowAt(BeforeImage(disk, encodings, pngs, outputDir, levels, n - 1), encodings, pngs[n - 1], outputDir, levels, 0);
      }
      assert (n - 1) * levels + levels == n * levels;
    }
  }

  /** `compress_from_png` records ten rows per image. */
  lemma TenRowsPerImage(disk: Disk, encodings: Encodings, pngs: seq<string>, outputDir: string)
    requires DatasetRows(disk, encodings, pngs, outputDir, EFFORT_LEVELS, |pngs|).Value?
    ensures |DatasetRows(disk, encodings, pngs, outputDir, EFFORT_LEVELS, |pngs|).value| == 10 * |pngs|
  {
    DatasetRowsLength(disk, encodings, pngs, outputDir, EFFORT_LEVELS, |pngs|);
  }

  /** The commands of one image run efforts 1 to `n` in order, each into
      the image's one output file. */
  lemma {:induction false} EffortCommandAt(png: string, outputDir: string, n: nat, j: nat)
    requires j < n
    ensures EffortCommands(png, outputDir, n)[j] == CompressCommand(j + 1, png, OutputFile(outputDir, png))
    decreases n
  {
    if j < n - 1 {
      EffortCommandAt(png, outputDir, n - 1, j);
    }
  }

  // ---------------------------------------------------------------------
  // decompress_to_png

  /** `f"{output_dir}/{file_name}.png"` for an input `.jxl`. */
  function DecompressName(outputDir: string, jxl: string): string {
    outputDir + "/" + ImageName(jxl) + ".png"
  }

  /** `f"djxl {jxl_file} {output_file}"`. */
  function DecompressCommand(jxl: string, outputFile: string): string {
    "djxl " + jxl + " " + outputFile
  }

  /** The output files of the first `n` inputs, in input order. */
  function DecompressOutputs(jxls: seq<string>, outputDir: string, n: nat): (outs: seq<string>)
    requires n <= |jxls|
    ensures |outs| == n
    decreases n
  {
    if n == 0 then [] else DecompressOutputs(jxls, outputDir, n - 1) + [DecompressName(outputDir, jxls[n - 1])]
  }

  /** The commands for the first `n` inputs, in input order. */
  function DecompressCommands(jxls: seq<string>, outputDir: string, n: nat): (cmds: seq<string>)
    requires n <= |jxls|
    ensures |cmds| == n
    decreases n
  {
    if n == 0 then []
    else DecompressCommands(jxls, outputDir, n - 1) + [DecompressCommand(jxls[n - 1], DecompressName(outputDir, jxls[n - 1]))]
  }

  /** Output `j` is the PNG named after input `j`, one per input. */
  lemma {:induction false} DecompressOutputAt(jxls: seq<string>, outputDir: string, n: nat, j: nat)
    requires j < n <= |jxls|
    ensures |DecompressOutputs(jxls, outputDir, n)| == n
    ensures DecompressOutputs(jxls, outputDir, n)[j] == DecompressName(outputDir, jxls[j])
    ensures DecompressCommands(jxls, outputDir, n)[j] == DecompressCommand(jxls[j], DecompressName(outputDir, jxls[j]))
    decreases n
  {
    if n - 1 > j {
      DecompressOutputAt(jxls, outputDir, n - 1, j);
    } else if j > 0 {
      DecompressOutputAt(jxls, outputDir, n - 1, j - 1);
    }
  }

  /** `decompress_to_png(input_dir, output_dir)`: glob the `.jxl` files
      (raising when there are none), then one `djxl` command per file,
      collecting `<output_dir>/<stem>.png` in input order. */
  method DecompressToPng(inputDir: string, inputNames: seq<string>, outputDir: string)
    returns (r: Outcome<seq<string>>, commands: seq<string>)
    ensures r.Panic? <==> ImagesInDir(inputDir, inputNames, Jxl).Panic?
    ensures r.Panic? ==> commands == []
    ensures var jxls := MatchingPaths(inputDir, inputNames, Jxl);
      r.Value? ==>
        && r.value == DecompressOutputs(jxls, outputDir, |jxls|)
        && commands == DecompressCommands(jxls, outputDir, |jxls|)
  {
    commands := [];
    var runOutputFiles := [];
    var inputFiles := ImagesInDir(inputDir, inputNames, Jxl);
    if inputFiles.Panic? {
      return Panic(inputFiles.reason), commands;
    }
    var jxls := inputFiles.value;
    var i := 0;
    while i < |jxls|
      invariant 0 <= i <= |jxls|
      invariant runOutputFiles == DecompressOutputs(jxls, outputDir, i)
      invariant commands == DecompressCommands(jxls, outputDir, i)
    {
      var fileName := Basename(Root(jxls[i]));
      ImageNameIsSplitOfRoot(jxls[i]);
      var outputFile := outputDir + "/" + fileName + ".png";
      commands := commands + [DecompressCommand(jxls[i], outputFile)];
      runOutputFiles := runOutputFiles + [outputFile];
      i := i + 1;
    }
    r := Value(runOutputFiles);
  }

  /** Each decoded PNG of a globbed `.jxl` keeps the `.jxl`'s image name,
      which is what lets `compare_images` pair it with its original. */
  lemma DecodedKeepsName(inputDir: string, names: seq<string>, outputDir: string, j: nat)
    requires forall k :: 0 <= k < |names| ==> '/' !in names[k]
    requires j < |MatchingPaths(inputDir, names, Jxl)|
    ensures var jxls := MatchingPaths(inputDir, names, Jxl);
      && |DecompressOutputs(jxls, outputDir, |jxls|)| == |jxls|
      && ImageName(DecompressOutputs(jxls, outputDir, |jxls|)[j]) == ImageName(jxls[j])
  {
    var jxls := MatchingPaths(inputDir, names, Jxl);
    DecompressOutputAt(jxls, outputDir, |jxls|, j);
    MatchingPathsMembership(inputDir, names, Jxl, jxls[j]);
    var k :| 0 <= k < |names| && GlobMatches(names[k], Jxl) && jxls[j] == PathJoin(inputDir, names[k]);
    DecodedFileName(inputDir, names[k], outputDir);
  }

  /** The `.png` written for a globbed `.jxl` file has the file's stem. */
  lemma DecodedFileName(inputDir: string, name: string, outputDir: string)
    requires GlobMatches(name, Jxl) && '/' !in name
    ensures ImageName(DecompressName(outputDir, PathJoin(inputDir, name))) == ImageName(PathJoin(inputDir, name))
  {
    GlobbedImageName(inputDir, name, Jxl);
    var stem := name[..|name| - 4];
    assert stem[0] == name[0];
    assert '/' !in stem by {
      forall i | 0 <= i < |stem| ensures stem[i] != '/' { assert stem[i] == name[i]; }
    }
    ImageNameOfFile(outputDir, stem, ".png");
  }
}
