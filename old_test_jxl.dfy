/** The first Python harness, `old_test_jxl.py`: for every PNG image of a
    dataset it runs `cjxl` over a grid of efforts and distances, records one
    table row per output file, and compares image sets pairwise by name.
    The table, run numbering, globbing and `compare_images` it shares with
    its successor live in `PyCommon`; what is particular to this script is
    here: the 9 x 9 sweep, its output names and its 11-column rows. */
module OldTestJxl {
  import opened Wrappers
  import opened Text
  import opened PyCommon

  const EFFORT_LEVELS := 9

  /** `DISTANCE_LEVELS`, and how an f-string prints each of them. */
  const DISTANCE_LEVELS: seq<real> := [0.0, 0.5, 1.0, 2.0, 3.0, 5.0, 10.0, 15.0, 25.0]
  const DISTANCE_TEXTS: seq<string> := ["0.0", "0.5", "1.0", "2.0", "3.0", "5.0", "10.0", "15.0", "25.0"]

  /** `get_dataset_name`: drop one trailing '/', then take the last component. */
  function GetDatasetName(datasetPath: string): (name: string)
    ensures '/' !in name
  {
    Basename(RemoveSuffix(datasetPath, "/"))
  }

  /** A dataset directory is named after its last component, written with
      or without one trailing '/'. */
  lemma GetDatasetNameOfDir(parent: string, name: string)
    requires name != "" && '/' !in name
    ensures GetDatasetName(parent + "/" + name) == name
    ensures GetDatasetName(parent + "/" + name + "/") == name
  {
    var p := parent + "/" + name;
    BasenameOfJoin(parent, name);
    assert (p + "/")[|p + "/"| - 1..] == "/";
    assert RemoveSuffix(p + "/", "/") == p;
    assert p[|p| - 1..] == [name[|name| - 1]];
    assert RemoveSuffix(p, "/") == p;
  }

  // ---------------------------------------------------------------------
  // The sweep

  /** One point of the sweep: an effort, a distance and the distance's text. */
  datatype Setting = Setting(effort: nat, distance: real, distanceText: string)

  /** The number of settings of one image's sweep. */
  const GRID_SIZE := EFFORT_LEVELS * 9

  /** Setting `j` of the sweep `compress_from_png` runs for one image:
      each pass of the outer loop takes the nine distances in order, then
      the next pass does so again one effort higher. */
  function SettingAt(j: nat): Setting
    decreases j
  {
    if j < 9 then Setting(1, DISTANCE_LEVELS[j], DISTANCE_TEXTS[j])
    else
      var s := SettingAt(j - 9);
      Setting(s.effort + 1, s.distance, s.distanceText)
  }

  /** Setting `j` has effort `j / 9 + 1` and distance `j % 9`. */
  lemma {:induction false} SettingAtIndex(j: nat)
    ensures SettingAt(j) == Setting(j / 9 + 1, DISTANCE_LEVELS[j % 9], DISTANCE_TEXTS[j % 9])
    decreases j
  {
    if j >= 9 {
      SettingAtIndex(j - 9);
      assert (j - 9) / 9 + 1 == j / 9 && (j - 9) % 9 == j % 9;
    }
  }

  /** The setting at step `k` of the inner loop during effort `e`. */
  lemma SettingAtStep(e: nat, k: nat)
    requires 1 <= e <= EFFORT_LEVELS && k < |DISTANCE_LEVELS|
    ensures (e - 1) * 9 + k < GRID_SIZE
    ensures SettingAt((e - 1) * 9 + k) == Setting(e, DISTANCE_LEVELS[k], DISTANCE_TEXTS[k])
  {
    var j := (e - 1) * 9 + k;
    SettingAtIndex(j);
    assert j / 9 == e - 1 && j % 9 == k;
  }

  /** The distances increase, and each has its own text without '-'. */
  lemma DistanceLevelsFacts()
    ensures |DISTANCE_LEVELS| == |DISTANCE_TEXTS| == 9
    ensures forall i, j :: 0 <= i < j < 9 ==> DISTANCE_LEVELS[i] < DISTANCE_LEVELS[j]
    ensures forall i, j :: 0 <= i < 9 && 0 <= j < 9 && DISTANCE_TEXTS[i] == DISTANCE_TEXTS[j] ==> i == j
    ensures forall i :: 0 <= i < 9 ==> '-' !in DISTANCE_TEXTS[i]
  {
    forall i, j | 0 <= i < 9 && 0 <= j < 9 && DISTANCE_TEXTS[i] == DISTANCE_TEXTS[j] ensures i == j {
      assert |DISTANCE_TEXTS[i]| == |DISTANCE_TEXTS[j]|;
      assert DISTANCE_TEXTS[i][0] == DISTANCE_TEXTS[j][0];
      assert DISTANCE_TEXTS[i][|DISTANCE_TEXTS[i]| - 3] == DISTANCE_TEXTS[j][|DISTANCE_TEXTS[j]| - 3];
      assert DISTANCE_TEXTS[i][|DISTANCE_TEXTS[i]| - 1] == DISTANCE_TEXTS[j][|DISTANCE_TEXTS[j]| - 1];
    }
  }

  /** The sweep is in lexicographic (effort, distance) order, so no setting
      comes twice. */
  lemma GridOrder(i: nat, j: nat)
    requires i < j < GRID_SIZE
    ensures SettingAt(i).effort < SettingAt(j).effort
      || (SettingAt(i).effort == SettingAt(j).effort && SettingAt(i).distance < SettingAt(j).distance)
  {
    DistanceLevelsFacts();
    SettingAtIndex(i);
    SettingAtIndex(j);
    if i / 9 == j / 9 {
      assert i % 9 < j % 9;
    }
  }

  /** `f"{compress_dir}/{file_name}-d{distance}-e{effort}.jxl"`. */
  function CompressName(compressDir: string, stem: string, s: Setting): string {
    compressDir + "/" + stem + "-d" + s.distanceText + "-e" + NatToString(s.effort) + ".jxl"
  }

  /** `f"cjxl -d {distance} -e {effort} {orig_file} {compress_file}"`. */
  function CompressCommand(orig: string, compressFile: string, s: Setting): string {
    "cjxl -d " + s.distanceText + " -e " + NatToString(s.effort) + " " + orig + " " + compressFile
  }

  /** Two names of one image agree only for the same effort and the same
      distance text, provided the texts have no '-'. */
  lemma CompressNameInjective(compressDir: string, stem: string, s: Setting, t: Setting)
    requires '-' !in s.distanceText && '-' !in t.distanceText
    requires CompressName(compressDir, stem, s) == CompressName(compressDir, stem, t)
    ensures s.effort == t.effort && s.distanceText == t.distanceText
  {
    var pre := compressDir + "/" + stem + "-d";
    var ea := "e" + NatToString(s.effort) + ".jxl";
    var eb := "e" + NatToString(t.effort) + ".jxl";
    var x := s.distanceText + ['-'] + ea;
    var y := t.distanceText + ['-'] + eb;
    assert CompressName(compressDir, stem, s) == pre + x;
    assert CompressName(compressDir, stem, t) == pre + y;
    CancelFront(pre, x, y);
    DashCancel(s.distanceText, ea, t.distanceText, eb);
    assert ea[1..|ea| - 4] == NatToString(s.effort);
    assert eb[1..|eb| - 4] == NatToString(t.effort);
    NatToStringInjective(s.effort, t.effort);
  }

  lemma CancelFront(pre: string, x: string, y: string)
    requires pre + x == pre + y
    ensures x == y
  {
    assert x == (pre + x)[|pre|..];
    assert y == (pre + y)[|pre|..];
  }

  /** A '-'-free front before a '-' is determined by the string. */
  lemma DashCancel(a: string, ra: string, b: string, rb: string)
    requires '-' !in a && '-' !in b && a + ['-'] + ra == b + ['-'] + rb
    ensures a == b && ra == rb
  {
    var x := a + ['-'] + ra;
    var y := b + ['-'] + rb;
    assert x[|a|] == '-' && y[|b|] == '-';
    assert a == x[..|a|] && b == y[..|b|];
    assert ra == x[|a| + 1..] && rb == y[|b| + 1..];
  }

  /** The 81 output names of one image are pairwise distinct. */
  lemma CompressNamesDistinct(compressDir: string, stem: string, i: nat, j: nat)
    requires i < GRID_SIZE && j < GRID_SIZE && i != j
    ensures CompressName(compressDir, stem, SettingAt(i)) != CompressName(compressDir, stem, SettingAt(j))
  {
    DistanceLevelsFacts();
    var lo := if i < j then i else j;
    var hi := if i < j then j else i;
    GridOrder(lo, hi);
    SettingAtIndex(i);
    SettingAtIndex(j);
    if CompressName(compressDir, stem, SettingAt(i)) == CompressName(compressDir, stem, SettingAt(j)) {
      CompressNameInjective(compressDir, stem, SettingAt(i), SettingAt(j));
    }
  }

  // ---------------------------------------------------------------------
  // ImageCompressionData and its row

  /** `ImageCompressionData`: the fields its constructor records. */
  datatype CompressionData = CompressionData(
    origImagePath: string,
    compressedImagePath: string,
    compressionEffort: int,
    compressionDistance: real,
    imageDims: string,
    origImageSize: nat,
    origImageFormat: string,
    compressedImageSize: nat,
    compressedImageFormat: string,
    deltaSize: int,
    percentOfOrig: real)

  /** `ImageCompressionData(...)`: read the original's dimensions and size
      and the output's size (raising when a file is missing), take both
      formats from the paths, and relate the sizes; an empty original
      raises `ZeroDivisionError`. */
  function NewCompressionData(disk: Disk, orig: string, compressed: string, effort: int, distance: real)
    : Outcome<CompressionData>
  {
    if orig !in disk.dims then Panic("FileNotFoundError: " + orig)
    else if orig !in disk.sizes then Panic("FileNotFoundError: " + orig)
    else if compressed !in disk.sizes then Panic("FileNotFoundError: " + compressed)
    else if disk.sizes[orig] == 0 then Panic("ZeroDivisionError: division by zero")
    else
      var origSize: int := disk.sizes[orig];
      var compressedSize: int := disk.sizes[compressed];
      Value(CompressionData(orig, compressed, effort, distance, DimsText(disk.dims[orig].0, disk.dims[orig].1),
        origSize, ImageFormatOf(orig), compressedSize, ImageFormatOf(compressed),
        compressedSize - origSize, compressedSize as real / origSize as real * 100.0))
  }

  /** When `ImageCompressionData` raises, and what it records otherwise:
      the two paths and the setting as given, both sizes as on disk, both
      formats from the paths, and `delta_size` and `percent_of_orig`
      relating the sizes. */
  lemma CompressionDataFacts(disk: Disk, orig: string, compressed: string, effort: int, distance: real)
    ensures NewCompressionData(disk, orig, compressed, effort, distance).Panic? <==>
      orig !in disk.dims || orig !in disk.sizes || compressed !in disk.sizes || disk.sizes[orig] == 0
    ensures NewCompressionData(disk, orig, compressed, effort, distance).Value? ==>
      var cd := NewCompressionData(disk, orig, compressed, effort, distance).value;
      && cd.origImagePath == orig && cd.compressedImagePath == compressed
      && cd.compressionEffort == effort && cd.compressionDistance == distance
      && cd.origImageSize == disk.sizes[orig] && cd.compressedImageSize == disk.sizes[compressed]
      && cd.origImageFormat == ImageFormatOf(orig) && cd.compressedImageFormat == ImageFormatOf(compressed)
      && cd.deltaSize + cd.origImageSize == cd.compressedImageSize
      && cd.percentOfOrig * (cd.origImageSize as real) == (cd.compressedImageSize as real) * 100.0
  {
  }

  /** `ImageCompressionData.get_col_names()`. */
  const COL_NAMES: seq<string> := [
    "Original Image Path",
    "Compressed Image Path",
    "Compression Effort",
    "Compression Distance",
    "Image Dims",
    "Original Image Size",
    "Original Image Format",
    "Compressed Image Size",
    "Compressed Image Format",
    "Delta Image Size",
    "% of Original Image Size"
  ]

  /** The field a column name stands for. */
  function Field(cd: CompressionData, colName: string): Option<Cell> {
    if colName == "Original Image Path" then Some(Str(cd.origImagePath))
    else if colName == "Compressed Image Path" then Some(Str(cd.compressedImagePath))
    else if colName == "Compression Effort" then Some(Int(cd.compressionEffort))
    else if colName == "Compression Distance" then Some(Float(cd.compressionDistance))
    else if colName == "Image Dims" then Some(Str(cd.imageDims))
    else if colName == "Original Image Size" then Some(Int(cd.origImageSize))
    else if colName == "Original Image Format" then Some(Str(cd.origImageFormat))
    else if colName == "Compressed Image Size" then Some(Int(cd.compressedImageSize))
    else if colName == "Compressed Image Format" then Some(Str(cd.compressedImageFormat))
    else if colName == "Delta Image Size" then Some(Int(cd.deltaSize))
    else if colName == "% of Original Image Size" then Some(Float(cd.percentOfOrig))
    else None
  }

  /** The row `create_row_from_compression_data` builds: one cell per
      column, each the field its column names. */
  function CompressionRow(cd: CompressionData): seq<Cell> {
    [Str(cd.origImagePath), Str(cd.compressedImagePath), Int(cd.compressionEffort),
     Float(cd.compressionDistance), Str(cd.imageDims), Int(cd.origImageSize), Str(cd.origImageFormat),
     Int(cd.compressedImageSize), Str(cd.compressedImageFormat), Int(cd.deltaSize), Float(cd.percentOfOrig)]
  }

  /** The row is in `get_col_names` order: one cell per column, each the
      field its column names. */
  lemma CompressionRowOrder(cd: CompressionData)
    ensures |CompressionRow(cd)| == |COL_NAMES|
    ensures forall i :: 0 <= i < |COL_NAMES| ==> Field(cd, COL_NAMES[i]) == Some(CompressionRow(cd)[i])
  {
  }

  /** `Table.create_row_from_compression_data`. */
  method CreateRowFromCompressionData(t: Table, cd: CompressionData)
    modifies t
    ensures t.title == old(t.title) && t.colNames == old(t.colNames)
    ensures t.data == old(t.data) + [CompressionRow(cd)]
    ensures old(t.Rectangular()) && t.colNames == COL_NAMES ==> t.Rectangular()
  {
    t.CreateRow(CompressionRow(cd));
  }

  // ---------------------------------------------------------------------
  // compress_from_png

  /** The data recorded for image `orig` at setting `j`. */
  function SettingData(disk: Disk, orig: string, compressDir: string, j: nat): Outcome<CompressionData> {
    var s := SettingAt(j);
    NewCompressionData(disk, orig, CompressName(compressDir, ImageName(orig), s), s.effort, s.distance)
  }

  /** The rows image `orig` adds for the first `n` settings of the sweep;
      the first missing file or empty original raises. */
  function SweepRows(disk: Disk, orig: string, compressDir: string, n: nat): Outcome<seq<seq<Cell>>>
    requires n <= GRID_SIZE
    decreases n, 0
  {
    if n == 0 then Value([]) else SweepRowsThrough(disk, orig, compressDir, n - 1)
  }

  /** The rows for the settings up to and including `j`. */
  function SweepRowsThrough(disk: Disk, orig: string, compressDir: string, j: nat): Outcome<seq<seq<Cell>>>
    requires j < GRID_SIZE
    decreases j, 1
  {
    match SweepRows(disk, orig, compressDir, j)
    case Panic(m) => Panic(m)
    case Value(rows) =>
      match SettingData(disk, orig, compressDir, j)
      case Panic(m) => Panic(m)
      case Value(cd) => Value(rows + [CompressionRow(cd)])
  }

  /** The `cjxl` commands for image `orig` at the first `n` settings. */
  function SweepCommands(orig: string, compressDir: string, n: nat): (cmds: seq<string>)
    requires n <= GRID_SIZE
    decreases n
  {
    if n == 0 then []
    else
      var s := SettingAt(n - 1);
      SweepCommands(orig, compressDir, n - 1) + [CompressCommand(orig, CompressName(compressDir, ImageName(orig), s), s)]
  }

  /** Step `k` of the inner loop during effort `e` extends the sweep by
      setting `(e - 1) * 9 + k`: its command, then its row or its raise. */
  lemma SweepStep(disk: Disk, orig: string, compressDir: string, e: nat, k: nat)
    requires 1 <= e <= EFFORT_LEVELS && k < |DISTANCE_LEVELS|
    ensures (e - 1) * 9 + k < GRID_SIZE
    ensures var n := (e - 1) * 9 + k;
      var s := Setting(e, DISTANCE_LEVELS[k], DISTANCE_TEXTS[k]);
      var file := CompressName(compressDir, ImageName(orig), s);
      var cd := NewCompressionData(disk, orig, file, e, DISTANCE_LEVELS[k]);
      && SweepCommands(orig, compressDir, n + 1) == SweepCommands(orig, compressDir, n) + [CompressCommand(orig, file, s)]
      && (SweepRows(disk, orig, compressDir, n).Value? && cd.Panic? ==> SweepRows(disk, orig, compressDir, n + 1).Panic?)
      && (SweepRows(disk, orig, compressDir, n).Value? && cd.Value? ==>
           SweepRows(disk, orig, compressDir, n + 1) == Value(SweepRows(disk, orig, compressDir, n).value + [CompressionRow(cd.value)]))
  {
    SettingAtStep(e, k);
  }

  /** The rows of one image's whole sweep. */
  function ImageRows(disk: Disk, orig: string, compressDir: string): Outcome<seq<seq<Cell>>> {
    SweepRows(disk, orig, compressDir, GRID_SIZE)
  }

  /** The commands of one image's whole sweep. */
  function ImageCommands(orig: string, compressDir: string): seq<string> {
    SweepCommands(orig, compressDir, GRID_SIZE)
  }

  /** The rows of the first `n` images. */
  function DatasetRows(disk: Disk, origs: seq<string>, compressDir: string, n: nat): Outcome<seq<seq<Cell>>>
    requires n <= |origs|
    decreases n
  {
    if n == 0 then Value([])
    else
      match DatasetRows(disk, origs, compressDir, n - 1)
      case Panic(m) => Panic(m)
      case Value(rows) =>
        match ImageRows(disk, origs[n - 1], compressDir)
        case Panic(m) => Panic(m)
        case Value(more) => Value(rows + more)
  }

  /** The commands for the first `n` images. */
  function DatasetCommands(origs: seq<string>, compressDir: string, n: nat): seq<string>
    requires n <= |origs|
    decreases n
  {
    if n == 0 then [] else DatasetCommands(origs, compressDir, n - 1) + ImageCommands(origs[n - 1], compressDir)
  }

  /** Image `i` extends the dataset by its commands, then its rows or its
      raise. */
  lemma DatasetStep(disk: Disk, origs: seq<string>, compressDir: string, i: nat)
    requires i < |origs|
    ensures DatasetCommands(origs, compressDir, i + 1) ==
      DatasetCommands(origs, compressDir, i) + ImageCommands(origs[i], compressDir)
    ensures DatasetRows(disk, origs, compressDir, i).Value? && ImageRows(disk, origs[i], compressDir).Panic?
      ==> DatasetRows(disk, origs, compressDir, i + 1).Panic?
    ensures DatasetRows(disk, origs, compressDir, i).Value? && ImageRows(disk, origs[i], compressDir).Value?
      ==> DatasetRows(disk, origs, compressDir, i + 1)
          == Value(DatasetRows(disk, origs, compressDir, i).value + ImageRows(disk, origs[i], compressDir).value)
  {
  }

  /** A raise at one setting is a raise for the whole image. */
  lemma {:induction false} SweepPanicPersists(disk: Disk, orig: string, compressDir: string, n: nat)
    requires n <= GRID_SIZE && SweepRows(disk, orig, compressDir, n).Panic?
    ensures SweepRows(disk, orig, compressDir, GRID_SIZE).Panic?
    decreases GRID_SIZE - n
  {
    if n < GRID_SIZE {
      SweepPanicPersists(disk, orig, compressDir, n + 1);
    }
  }

  /** A raise on one image is a raise for the dataset. */
  lemma {:induction false} DatasetPanicPersists(disk: Disk, origs: seq<string>, compressDir: string, n: nat)
    requires n <= |origs| && DatasetRows(disk, origs, compressDir, n).Panic?
    ensures DatasetRows(disk, origs, compressDir, |origs|).Panic?
    decreases |origs| - n
  {
    if n < |origs| {
      DatasetPanicPersists(disk, origs, compressDir, n + 1);
    }
  }

  /** One step of the inner loop: the `cjxl` command for distance `k` at
      effort `effort`, then the row of the data it records or its raise,
      continuing the sweep of `orig` from setting `(effort - 1) * 9 + k`. */
  method CompressSetting(t: Table, disk: Disk, orig: string, fileName: string, compressDir: string,
                         effort: nat, k: nat, ghost before: seq<seq<Cell>>, issued: seq<string>)
    returns (r: Outcome<()>, commands: seq<string>)
    requires 1 <= effort <= EFFORT_LEVELS && k < |DISTANCE_LEVELS| && fileName == ImageName(orig)
    requires SweepRows(disk, orig, compressDir, (effort - 1) * 9 + k).Value?
    requires t.data == before + SweepRows(disk, orig, compressDir, (effort - 1) * 9 + k).value
    requires issued == SweepCommands(orig, compressDir, (effort - 1) * 9 + k)
    modifies t
    ensures t.title == old(t.title) && t.colNames == old(t.colNames)
    ensures commands == SweepCommands(orig, compressDir, (effort - 1) * 9 + k + 1)
    ensures r.Panic? ==> SweepRows(disk, orig, compressDir, GRID_SIZE).Panic?
    ensures r.Value? ==>
      && SweepRows(disk, orig, compressDir, (effort - 1) * 9 + k + 1).Value?
      && t.data == before + SweepRows(disk, orig, compressDir, (effort - 1) * 9 + k + 1).value
  {
    var setting := Setting(effort, DISTANCE_LEVELS[k], DISTANCE_TEXTS[k]);
    var compressFile := CompressName(compressDir, fileName, setting);
    commands := issued + [CompressCommand(orig, compressFile, setting)];
    var cd := NewCompressionData(disk, orig, compressFile, effort, DISTANCE_LEVELS[k]);
    SweepStep(disk, orig, compressDir, effort, k);
    if cd.Panic? {
      SweepPanicPersists(disk, orig, compressDir, (effort - 1) * 9 + k + 1);
      return Panic(cd.reason), commands;
    }
    CreateRowFromCompressionData(t, cd.value);
    r := Value(());
  }

  /** One pass of the inner loop: the nine distances at effort `effort`,
      continuing the sweep of `orig` from setting `(effort - 1) * 9`, whose
      rows `t` already ends with. */
  method CompressAtEffort(t: Table, disk: Disk, orig: string, compressDir: string, effort: nat,
                          ghost before: seq<seq<Cell>>, issued: seq<string>)
    returns (r: Outcome<()>, commands: seq<string>)
    requires 1 <= effort <= EFFORT_LEVELS
    requires SweepRows(disk, orig, compressDir, (effort - 1) * 9).Value?
    requires t.data == before + SweepRows(disk, orig, compressDir, (effort - 1) * 9).value
    requires issued == SweepCommands(orig, compressDir, (effort - 1) * 9)
    modifies t
    ensures t.title == old(t.title) && t.colNames == old(t.colNames)
    ensures r.Panic? ==> SweepRows(disk, orig, compressDir, GRID_SIZE).Panic?
    ensures r.Value? ==>
      && SweepRows(disk, orig, compressDir, effort * 9).Value?
      && t.data == before + SweepRows(disk, orig, compressDir, effort * 9).value
      && commands == SweepCommands(orig, compressDir, effort * 9)
  {
    var fileName := ImageName(orig);
    commands := issued;
    ghost var n := (effort - 1) * 9;
    var k := 0;
    while k < |DISTANCE_LEVELS|
      invariant 0 <= k <= |DISTANCE_LEVELS| && n == (effort - 1) * 9 + k
      invariant t.title == old(t.title) && t.colNames == old(t.colNames)
      invariant SweepRows(disk, orig, compressDir, n).Value?
      invariant t.data == before + SweepRows(disk, orig, compressDir, n).value
      invariant commands == SweepCommands(orig, compressDir, n)
    {
      var done;
      done, commands := CompressSetting(t, disk, orig, fileName, compressDir, effort, k, before, commands);
      if done.Panic? {
        return done, commands;
      }
      k := k + 1;
      n := n + 1;
    }
    assert n == effort * 9;
    r := Value(());
  }

  /** The sweep of one image: the `cjxl` commands and the rows of every
      setting, in order, or the first raise. */
  method CompressImage(t: Table, disk: Disk, orig: string, compressDir: string)
    returns (r: Outcome<()>, commands: seq<string>)
    modifies t
    ensures t.title == old(t.title) && t.colNames == old(t.colNames)
    ensures r.Value? <==> ImageRows(disk, orig, compressDir).Value?
    ensures r.Value? ==>
      t.data == old(t.data) + ImageRows(disk, orig, compressDir).value
      && commands == ImageCommands(orig, compressDir)
  {
    commands := [];
    var effort := 1;
    while effort <= EFFORT_LEVELS
      invariant 1 <= effort <= EFFORT_LEVELS + 1
      invariant t.title == old(t.title) && t.colNames == old(t.colNames)
      invariant SweepRows(disk, orig, compressDir, (effort - 1) * 9).Value?
      invariant t.data == old(t.data) + SweepRows(disk, orig, compressDir, (effort - 1) * 9).value
      invariant commands == SweepCommands(orig, compressDir, (effort - 1) * 9)
    {
      var done;
      done, commands := CompressAtEffort(t, disk, orig, compressDir, effort, old(t.data), commands);
      if done.Panic? {
        return Panic(done.reason), commands;
      }
      effort := effort + 1;
    }
    r := Value(());
  }

  /** One pass of the outer loop: the sweep of image `i`, continuing the
      dataset from the rows of the images before it, which `t` already ends
      with. */
  method CompressNextImage(t: Table, disk: Disk, origFiles: seq<string>, compressDir: string, i: nat,
                           ghost before: seq<seq<Cell>>, issued: seq<string>)
    returns (r: Outcome<()>, commands: seq<string>)
    requires i < |origFiles| && DatasetRows(disk, origFiles, compressDir, i).Value?
    requires t.data == before + DatasetRows(disk, origFiles, compressDir, i).value
    requires issued == DatasetCommands(origFiles, compressDir, i)
    modifies t
    ensures t.title == old(t.title) && t.colNames == old(t.colNames)
    ensures r.Panic? ==> DatasetRows(disk, origFiles, compressDir, i + 1).Panic?
    ensures r.Value? ==>
      && DatasetRows(disk, origFiles, compressDir, i + 1).Value?
      && t.data == before + DatasetRows(disk, origFiles, compressDir, i + 1).value
      && commands == DatasetCommands(origFiles, compressDir, i + 1)
  {
    var more;
    r, more := CompressImage(t, disk, origFiles[i], compressDir);
    commands := issued + more;
    DatasetStep(disk, origFiles, compressDir, i);
  }

  /** The outer `for orig_file in orig_files` loop: the sweep of every
      image in order, or the first raise. */
  method CompressImages(t: Table, disk: Disk, origFiles: seq<string>, compressDir: string)
    returns (r: Outcome<()>, commands: seq<string>)
    modifies t
    ensures t.title == old(t.title) && t.colNames == old(t.colNames)
    ensures r.Value? <==> DatasetRows(disk, origFiles, compressDir, |origFiles|).Value?
    ensures r.Value? ==>
      t.data == old(t.data) + DatasetRows(disk, origFiles, compressDir, |origFiles|).value
      && commands == DatasetCommands(origFiles, compressDir, |origFiles|)
  {
    commands := [];
    var i := 0;
    while i < |origFiles|
      invariant 0 <= i <= |origFiles|
      invariant t.title == old(t.title) && t.colNames == old(t.colNames)
      invariant DatasetRows(disk, origFiles, compressDir, i).Value?
      invariant t.data == old(t.data) + DatasetRows(disk, origFiles, compressDir, i).value
      invariant commands == DatasetCommands(origFiles, compressDir, i)
    {
      var done;
      done, commands := CompressNextImage(t, disk, origFiles, compressDir, i, old(t.data), commands);
      if done.Panic? {
        DatasetPanicPersists(disk, origFiles, compressDir, i + 1);
        return done, commands;
      }
      i := i + 1;
    }
    r := Value(());
  }

  /** `compress_from_png(orig_dir, compress_dir)`: a fresh table titled
      after the dataset with the eleven columns, then the sweep of every
      globbed PNG image in glob order.

      `disk` is the file system as the encoder runs of the whole sweep
      leave it. The source reads each output's size right after the run
      that writes it; reading it from the final state instead gives the
      same size, because no file is written twice: the settings of one
      image write distinct files (`CompressNamesDistinct`), the images of
      one directory have distinct stems, and the `.jxl` outputs are never
      the `.png` inputs. */
  method CompressFromPng(disk: Disk, origDir: string, origNames: seq<string>, compressDir: string)
    returns (r: Outcome<Table>, commands: seq<string>)
    ensures var images := MatchingPaths(origDir, origNames, Png);
      r.Value? <==> |images| > 0 && DatasetRows(disk, images, compressDir, |images|).Value?
    ensures var images := MatchingPaths(origDir, origNames, Png);
      r.Value? ==>
        && fresh(r.value)
        && r.value.title == "Compression Data for Image Dataset: " + GetDatasetName(origDir)
        && r.value.colNames == COL_NAMES
        && r.value.data == DatasetRows(disk, images, compressDir, |images|).value
        && commands == DatasetCommands(images, compressDir, |images|)
  {
    commands := [];
    var datasetName := GetDatasetName(origDir);
    var table := new Table("Compression Data for Image Dataset: " + datasetName, Some(COL_NAMES), None);
    var origFiles := ImagesInDir(origDir, origNames, Png);
    if origFiles.Panic? {
      return Panic(origFiles.reason), commands;
    }
    var done;
    done, commands := CompressImages(table, disk, origFiles.value, compressDir);
    if done.Panic? {
      return Panic(done.reason), commands;
    }
    r := Value(table);
  }

  // ---------------------------------------------------------------------
  // What the sweep records

  /** Row `j` of an image's sweep is the row of the image's data at
      setting `j`, and there is one row per setting. */
  lemma {:induction false} SweepRowAt(disk: Disk, orig: string, compressDir: string, n: nat, j: nat)
    requires j < n <= GRID_SIZE && SweepRows(disk, orig, compressDir, n).Value?
    ensures |SweepRows(disk, orig, compressDir, n).value| == n
    ensures SettingData(disk, orig, compressDir, j).Value?
    ensures SweepRows(disk, orig, compressDir, n).value[j] == CompressionRow(SettingData(disk, orig, compressDir, j).value)
    decreases n
  {
    var prev := SweepRows(disk, orig, compressDir, n - 1);
    assert prev.Value?;
    if n - 1 > j {
      SweepRowAt(disk, orig, compressDir, n - 1, j);
    } else if j > 0 {
      SweepRowAt(disk, orig, compressDir, n - 1, j - 1);
    }
  }

  /** The data recorded at setting `j` names the original, its
      `-d<distance>-e<effort>` output, effort `j / 9 + 1` and distance
      `DISTANCE_LEVELS[j % 9]`. */
  lemma SettingDataFacts(disk: Disk, orig: string, compressDir: string, j: nat)
    requires SettingData(disk, orig, compressDir, j).Value?
    ensures var cd := SettingData(disk, orig, compressDir, j).value;
      && cd.origImagePath == orig
      && cd.compressedImagePath == CompressName(compressDir, ImageName(orig), SettingAt(j))
      && cd.compressionEffort == j / 9 + 1
      && cd.compressionDistance == DISTANCE_LEVELS[j % 9]
  {
    SettingAtIndex(j);
    var s := SettingAt(j);
    CompressionDataFacts(disk, orig, CompressName(compressDir, ImageName(orig), s), s.effort, s.distance);
  }

  /** What row `j` of an image's sweep records: the original, its
      `-d<distance>-e<effort>` output, effort `j / 9 + 1` and distance
      `DISTANCE_LEVELS[j % 9]`, among one row per setting. */
  lemma SweepRowCells(disk: Disk, orig: string, compressDir: string, j: nat)
    requires j < GRID_SIZE && SweepRows(disk, orig, compressDir, GRID_SIZE).Value?
    ensures |SweepRows(disk, orig, compressDir, GRID_SIZE).value| == GRID_SIZE
    ensures var row := SweepRows(disk, orig, compressDir, GRID_SIZE).value[j];
      && |row| == |COL_NAMES|
      && row[0] == Str(orig)
      && row[1] == Str(CompressName(compressDir, ImageName(orig), SettingAt(j)))
      && row[2] == Int(j / 9 + 1)
      && row[3] == Float(DISTANCE_LEVELS[j % 9])
  {
    SweepRowAt(disk, orig, compressDir, GRID_SIZE, j);
    SettingRowCells(disk, orig, compressDir, j);
  }

  lemma SettingRowCells(disk: Disk, orig: string, compressDir: string, j: nat)
    requires SettingData(disk, orig, compressDir, j).Value?
    ensures var row := CompressionRow(SettingData(disk, orig, compressDir, j).value);
      && |row| == |COL_NAMES|
      && row[0] == Str(orig)
      && row[1] == Str(CompressName(compressDir, ImageName(orig), SettingAt(j)))
      && row[2] == Int(j / 9 + 1)
      && row[3] == Float(DISTANCE_LEVELS[j % 9])
  {
    SettingDataFacts(disk, orig, compressDir, j);
  }

  /** The rows of `n` images number 81 per image. */
  lemma {:induction false} DatasetRowsLength(disk: Disk, origs: seq<string>, compressDir: string, n: nat)
    requires n <= |origs| && DatasetRows(disk, origs, compressDir, n).Value?
    ensures |DatasetRows(disk, origs, compressDir, n).value| == n * EFFORT_LEVELS * |DISTANCE_LEVELS|
    decreases n
  {
    if n > 0 {
      DatasetRowsLength(disk, origs, compressDir, n - 1);
      SweepRowAt(disk, origs[n - 1], compressDir, GRID_SIZE, 0);
    }
  }
}
