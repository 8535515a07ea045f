/** Image metadata of the benchmark harness (`image_reader.rs`): the format
    and colour-type string tables, the JPEG XL colour-space table, the raw
    size formula, the optional CSV fields where an empty string means
    "absent", and the provenance that a compressed file's name carries.
    Decoders are not modelled: what they report (dimensions, channel count,
    sample type) is a parameter.
 */
module ImageReader {
  import opened Wrappers
  import opened Text

  // ---------------------------------------------------------------------
  // Paths, following `std::path::Path` on '/'-separated paths

  /** The path components that `Path::components` reports as normal names or
      `..`: empty pieces (repeated or trailing '/') and `.` are dropped. */
  function NamedComponents(pieces: seq<string>): (r: seq<string>)
    ensures forall i :: 0 <= i < |r| ==> r[i] != "" && r[i] != "."
    decreases |pieces|
  {
    if |pieces| == 0 then []
    else
      var rest := NamedComponents(pieces[..|pieces| - 1]);
      var last := pieces[|pieces| - 1];
      if last == "" || last == "." then rest else rest + [last]
  }

  /** `Path::file_name`: the last component, unless it is `..` or there is none. */
  function FileName(path: string): (r: Option<string>)
    ensures r.Some? ==> r.value != "" && r.value != "." && r.value != ".."
  {
    var comps := NamedComponents(Split(path, '/'));
    if |comps| == 0 || comps[|comps| - 1] == ".." then None else Some(comps[|comps| - 1])
  }

  /** The extension of a file name: the text after its last '.', provided
      something other than nothing comes before that dot. */
  function FileExtension(name: string): (r: Option<string>)
    ensures r.Some? ==> '.' !in r.value
  {
    if name == ".." then None
    else
      var parts := Split(name, '.');
      SplitPiecesAvoidSeparator(name, '.');
      assert parts[|parts| - 1] in parts;
      if |parts| == 1 || Join(parts[..|parts| - 1], '.') == "" then None
      else Some(parts[|parts| - 1])
  }

  /** `Path::parent` followed by `Path::file_name`: the name of the
      component before the last one, if there is one and it is not `..`. */
  function ParentName(path: string): (r: Option<string>)
    ensures r.Some? ==> r.value != "" && r.value != "." && r.value != ".."
  {
    var comps := NamedComponents(Split(path, '/'));
    if |comps| < 2 || comps[|comps| - 2] == ".." then None else Some(comps[|comps| - 2])
  }

  /** `Path::extension`. */
  function Extension(path: string): Option<string> {
    match FileName(path)
    case None => None
    case Some(name) => FileExtension(name)
  }

  predicate PlainName(name: string) {
    '/' !in name && name != "" && name != "." && name != ".."
  }

  lemma {:induction false} FileNameOfPlainName(name: string)
    requires PlainName(name)
    ensures FileName(name) == Some(name)
  {
    SplitNoSeparator(name, '/');
    assert [name][..0] == [];
  }

  /** The file name of `dir/name` is `name`, whatever the directory. */
  lemma {:induction false} FileNameInDirectory(dir: string, name: string)
    requires PlainName(name)
    ensures FileName(dir + "/" + name) == Some(name)
  {
    SplitNoSeparator(name, '/');
    SplitConcat(dir, name, '/');
    assert dir + "/" + name == dir + ['/'] + name;
    var pieces := Split(dir, '/') + [name];
    assert pieces[..|pieces| - 1] == Split(dir, '/');
  }

  /** A file directly inside a named directory reports that directory as
      its parent's name, whatever lies above it. */
  lemma {:induction false} ParentNameInDirectory(root: string, dir: string, name: string)
    requires PlainName(dir) && PlainName(name)
    ensures ParentName(root + "/" + dir + "/" + name) == Some(dir)
  {
    SplitNoSeparator(dir, '/');
    SplitNoSeparator(name, '/');
    SplitConcat(root, dir, '/');
    assert root + "/" + dir == root + ['/'] + dir;
    var upper := Split(root, '/') + [dir];
    SplitConcat(root + "/" + dir, name, '/');
    assert root + "/" + dir + "/" + name == (root + "/" + dir) + ['/'] + name;
    var pieces := upper + [name];
    assert pieces[..|pieces| - 1] == upper;
    assert upper[..|upper| - 1] == Split(root, '/');
    var below := NamedComponents(Split(root, '/'));
    assert NamedComponents(upper) == below + [dir];
    assert NamedComponents(pieces) == below + [dir] + [name];
  }

  /** A name `stem.ext` has extension `ext` when `stem` is not empty. */
  lemma {:induction false} ExtensionOfDottedName(stem: string, ext: string)
    requires stem != "" && ext != "" && '.' !in ext
    ensures FileExtension(stem + "." + ext) == Some(ext)
  {
    var name := stem + "." + ext;
    assert name == stem + ['.'] + ext;
    SplitConcat(stem, ext, '.');
    SplitNoSeparator(ext, '.');
    var parts := Split(stem, '.') + [ext];
    assert parts[..|parts| - 1] == Split(stem, '.');
    JoinSplit(stem, '.');
  }

  // ---------------------------------------------------------------------
  // Image formats

  datatype ImageFormat =
    | JpegXl | Png | Jpeg | Gif | WebP | Pnm | Tiff | Tga | Dds | Bmp | Ico
    | Hdr | OpenExr | Farbfeld | Avif | Qoi | Unsupported

  /** `ImageFormat::to_string`; `Unsupported` panics. */
  function FormatName(f: ImageFormat): (r: Outcome<string>)
    ensures r.Value? <==> f != Unsupported
  {
    match f
    case JpegXl => Value("jxl")
    case Png => Value("png")
    case Jpeg => Value("jpeg")
    case Gif => Value("gif")
    case WebP => Value("webp")
    case Pnm => Value("ppm")
    case Tiff => Value("tiff")
    case Tga => Value("tga")
    case Dds => Value("dds")
    case Bmp => Value("bmp")
    case Ico => Value("ico")
    case Hdr => Value("hdr")
    case OpenExr => Value("exr")
    case Farbfeld => Value("ff")
    case Avif => Value("avif")
    case Qoi => Value("qoi")
    case Unsupported => Panic("Unsupported image format")
  }

  /** `ImageFormat::as_ext`; `Unsupported` panics. */
  function FormatExt(f: ImageFormat): (r: Outcome<string>)
    ensures r.Value? <==> f != Unsupported
  {
    match f
    case JpegXl => Value(".jxl")
    case Png => Value(".png")
    case Jpeg => Value(".jpg")
    case Gif => Value(".gif")
    case WebP => Value(".webp")
    case Pnm => Value(".ppm")
    case Tiff => Value(".tiff")
    case Tga => Value(".tga")
    case Dds => Value(".dds")
    case Bmp => Value(".bmp")
    case Ico => Value(".ico")
    case Hdr => Value(".hdr")
    case OpenExr => Value(".exr")
    case Farbfeld => Value(".ff")
    case Avif => Value(".avif")
    case Qoi => Value(".qoi")
    case Unsupported => Panic("Unsupported image format")
  }

  /** `From<String> for ImageFormat`, which is also the table that
      `ImageFormat::from_file_name` applies to a file's extension. */
  function FormatFromName(s: string): (f: ImageFormat)
    ensures f != Unsupported ==> FormatName(f) == Value(s)
  {
    match s
    case "jxl" => JpegXl
    case "png" => Png
    case "jpeg" => Jpeg
    case "gif" => Gif
    case "webp" => WebP
    case "ppm" => Pnm
    case "tiff" => Tiff
    case "tga" => Tga
    case "dds" => Dds
    case "bmp" => Bmp
    case "ico" => Ico
    case "hdr" => Hdr
    case "exr" => OpenExr
    case "ff" => Farbfeld
    case "avif" => Avif
    case "qoi" => Qoi
    case _ => Unsupported
  }

  /** `ImageFormat::from_file_name`: panics when the name has no extension. */
  function FormatFromFileName(path: string): (r: Outcome<ImageFormat>)
    ensures r.Value? <==> Extension(path).Some?
    ensures r.Value? ==> r.value == FormatFromName(Extension(path).value)
  {
    match Extension(path)
    case None => Panic("called `Option::unwrap()` on a `None` value")
    case Some(ext) => Value(FormatFromName(ext))
  }

  /** Printing a supported format and reading it back gives the format, and
      the printed names are exactly the names that are read as supported. */
  lemma FormatNameRoundTrip(f: ImageFormat)
    ensures f != Unsupported ==> FormatFromName(FormatName(f).value) == f
  {
  }

  lemma SupportedNames(s: string)
    ensures FormatFromName(s) != Unsupported <==> exists g :: FormatName(g) == Value(s)
  {
    if FormatFromName(s) != Unsupported {
      var g := FormatFromName(s);
      assert FormatName(g) == Value(s);
    }
    if exists g :: FormatName(g) == Value(s) {
      var g :| FormatName(g) == Value(s);
      FormatNameRoundTrip(g);
    }
  }

  /** The file extension is the name with a dot in front, except that
      `Jpeg`'s name is "jpeg" and its extension is ".jpg". */
  lemma FormatExtIsDottedName(f: ImageFormat)
    requires f != Unsupported
    ensures f != Jpeg ==> FormatExt(f).value == "." + FormatName(f).value
    ensures f == Jpeg ==> FormatExt(f).value == ".jpg" && FormatName(f).value == "jpeg"
  {
  }

  /** "jpg" is not one of the names `from_file_name` knows. */
  lemma JpgIsUnsupportedByName()
    ensures FormatFromName("jpg") == Unsupported
    ensures FormatFromName(FormatExt(Jpeg).value[1..]) == Unsupported
  {
  }

  /** The table of `ImageReader::get_format`, as written: it knows "jpg" and
      "jpeg", has no arm for "jxl", and sends every other extension to `Jpeg`. */
  function FormatOfExtension(ext: string): (f: ImageFormat)
    ensures f != Unsupported && f != JpegXl
    ensures f != Jpeg ==> FormatName(f) == Value(ext)
    ensures ext != "jxl" && FormatFromName(ext) != Unsupported ==> f == FormatFromName(ext)
    ensures ext == "jpg" || ext == "jxl" || FormatFromName(ext) == Unsupported ==> f == Jpeg
  {
    match ext
    case "jpg" => Jpeg
    case "jpeg" => Jpeg
    case "png" => Png
    case "gif" => Gif
    case "webp" => WebP
    case "ppm" => Pnm
    case "tiff" => Tiff
    case "tga" => Tga
    case "dds" => Dds
    case "bmp" => Bmp
    case "ico" => Ico
    case "hdr" => Hdr
    case "exr" => OpenExr
    case "ff" => Farbfeld
    case "avif" => Avif
    case "qoi" => Qoi
    case _ => Jpeg
  }

  /** `ImageReader::get_format` as written. */
  function GetFormat(path: string): (r: Outcome<ImageFormat>)
    ensures r.Value? <==> Extension(path).Some?
    ensures r.Value? ==> r.value == FormatOfExtension(Extension(path).value)
  {
    match Extension(path)
    case None => Panic("called `Option::unwrap()` on a `None` value")
    case Some(ext) => Value(FormatOfExtension(ext))
  }

  /** `get_format` with the missing "jxl" arm added. */
  function FormatOfExtensionFixed(ext: string): (f: ImageFormat)
    ensures f != Unsupported
    ensures ext == "jxl" <==> f == JpegXl
  {
    if ext == "jxl" then JpegXl else FormatOfExtension(ext)
  }

  function GetFormatFixed(path: string): (r: Outcome<ImageFormat>)
    ensures r.Value? <==> Extension(path).Some?
    ensures r.Value? ==> r.value == FormatOfExtensionFixed(Extension(path).value)
  {
    match Extension(path)
    case None => Panic("called `Option::unwrap()` on a `None` value")
    case Some(ext) => Value(FormatOfExtensionFixed(ext))
  }

  /** Every extension is a dot followed by a plain, dot-free token. */
  lemma FormatExtShape(f: ImageFormat)
    requires f != Unsupported
    ensures |FormatExt(f).value| >= 2 && FormatExt(f).value[0] == '.'
    ensures '.' !in FormatExt(f).value[1..] && '/' !in FormatExt(f).value[1..]
  {
  }

  /** The file `dir/stem.ext` has extension `ext`. */
  lemma {:induction false} ExtensionInDirectory(dir: string, stem: string, ext: string)
    requires stem != "" && '/' !in stem
    requires ext != "" && '.' !in ext && '/' !in ext
    ensures Extension(dir + "/" + stem + "." + ext) == Some(ext)
  {
    var name := stem + "." + ext;
    assert '/' !in name by {
      forall i | 0 <= i < |name| ensures name[i] != '/' {
        if i < |stem| { assert name[i] == stem[i]; }
        else if i > |stem| { assert name[i] == ext[i - |stem| - 1]; }
      }
    }
    FileNameInDirectory(dir, name);
    assert dir + "/" + stem + "." + ext == dir + "/" + name;
    ExtensionOfDottedName(stem, ext);
  }

  /** The file written as `dir/stem` + `as_ext(f)` has extension `as_ext(f)`
      without its dot. */
  lemma ExtensionOfFormattedPath(dir: string, stem: string, f: ImageFormat)
    requires f != Unsupported && stem != "" && '/' !in stem
    ensures Extension(dir + "/" + stem + FormatExt(f).value) == Some(FormatExt(f).value[1..])
  {
    var ext := FormatExt(f).value;
    FormatExtShape(f);
    assert ext == "." + ext[1..];
    assert dir + "/" + stem + ext == dir + "/" + stem + "." + ext[1..];
    ExtensionInDirectory(dir, stem, ext[1..]);
  }

  /** The corrected `get_format` recovers every supported format from a file
      named with that format's extension. */
  lemma GetFormatFixedRoundTrip(dir: string, stem: string, f: ImageFormat)
    requires f != Unsupported && stem != "" && '/' !in stem
    ensures GetFormatFixed(dir + "/" + stem + FormatExt(f).value) == Value(f)
  {
    ExtensionOfFormattedPath(dir, stem, f);
  }

  /** As written, `get_format` recovers every supported format except
      JPEG XL: a ".jxl" file is reported as `Jpeg`. */
  lemma GetFormatAsWritten(dir: string, stem: string, f: ImageFormat)
    requires f != Unsupported && stem != "" && '/' !in stem
    ensures f != JpegXl ==> GetFormat(dir + "/" + stem + FormatExt(f).value) == Value(f)
    ensures GetFormat(dir + "/" + stem + ".jxl") == Value(Jpeg)
  {
    ExtensionOfFormattedPath(dir, stem, f);
    ExtensionOfFormattedPath(dir, stem, JpegXl);
    FormatOfOwnExtension(f);
  }

  /** Every extension but ".jxl" is read back as its own format. */
  lemma FormatOfOwnExtension(f: ImageFormat)
    requires f != Unsupported
    ensures f != JpegXl ==> FormatOfExtension(FormatExt(f).value[1..]) == f
    ensures FormatOfExtension(FormatExt(JpegXl).value[1..]) == Jpeg
  {
  }

  // ---------------------------------------------------------------------
  // Colour types

  datatype ColorType = L8 | La8 | Rgb8 | Rgba8 | L16 | La16 | Rgb16 | Rgba16 | Rgb32F | Rgba32F

  /** `ColorType::to_string`. */
  function ColorTypeName(c: ColorType): string {
    match c
    case L8 => "L8"
    case La8 => "La8"
    case Rgb8 => "Rgb8"
    case Rgba8 => "Rgba8"
    case L16 => "L16"
    case La16 => "La16"
    case Rgb16 => "Rgb16"
    case Rgba16 => "Rgba16"
    case Rgb32F => "Rgb32F"
    case Rgba32F => "Rgba32F"
  }

  /** `From<String> for ColorType`; an unknown name reaches `todo!()`. */
  function ColorTypeFromName(s: string): (r: Outcome<ColorType>)
    ensures r.Value? ==> ColorTypeName(r.value) == s
  {
    match s
    case "L8" => Value(L8)
    case "La8" => Value(La8)
    case "Rgb8" => Value(Rgb8)
    case "Rgba8" => Value(Rgba8)
    case "L16" => Value(L16)
    case "La16" => Value(La16)
    case "Rgb16" => Value(Rgb16)
    case "Rgba16" => Value(Rgba16)
    case "Rgb32F" => Value(Rgb32F)
    case "Rgba32F" => Value(Rgba32F)
    case _ => Panic("not yet implemented")
  }

  /** Every colour type survives printing and reading back, and only the
      printed names are read without panicking. */
  lemma ColorTypeRoundTrip(c: ColorType, s: string)
    ensures ColorTypeFromName(ColorTypeName(c)) == Value(c)
    ensures ColorTypeFromName(s).Value? <==> exists d :: ColorTypeName(d) == s
  {
    if exists d :: ColorTypeName(d) == s {
      var d :| ColorTypeName(d) == s;
      assert ColorTypeFromName(s) == Value(d);
    }
  }

  /** Channels per pixel. */
  function Channels(c: ColorType): nat {
    match c
    case L8 | L16 => 1
    case La8 | La16 => 2
    case Rgb8 | Rgb16 | Rgb32F => 3
    case Rgba8 | Rgba16 | Rgba32F => 4
  }

  /** Bytes per channel sample. */
  function BytesPerSample(c: ColorType): nat {
    match c
    case L8 | La8 | Rgb8 | Rgba8 => 1
    case L16 | La16 | Rgb16 | Rgba16 => 2
    case Rgb32F | Rgba32F => 4
  }

  /** The bytes-per-pixel table of `get_raw_size` and `get_raw_jxl_size`. */
  function BytesPerPixel(c: ColorType): (n: nat)
    ensures n == Channels(c) * BytesPerSample(c)
  {
    match c
    case L8 => 1
    case La8 => 2
    case Rgb8 => 3
    case Rgba8 => 4
    case L16 => 2
    case La16 => 4
    case Rgb16 => 6
    case Rgba16 => 8
    case Rgb32F => 12
    case Rgba32F => 16
  }

  /** The pixel buffer kinds a JPEG XL decoder can return. */
  datatype PixelType = Uint8 | Uint16 | Float | Float16

  /** `ColorType::get_jxl_color_space`: channel count by sample type. */
  function JxlColorSpace(channels: nat, pixels: PixelType): (r: Outcome<ColorType>)
    ensures r.Value? <==> 1 <= channels <= 4 && (pixels == Uint8 || pixels == Uint16)
    ensures r.Value? ==>
      Channels(r.value) == channels && BytesPerSample(r.value) == (if pixels == Uint8 then 1 else 2)
  {
    if 1 <= channels <= 4 then
      if pixels == Uint8 then
        Value(if channels == 1 then L8 else if channels == 2 then La8
              else if channels == 3 then Rgb8 else Rgba8)
      else if pixels == Uint16 then
        Value(if channels == 1 then L16 else if channels == 2 then La16
              else if channels == 3 then Rgb16 else Rgba16)
      else Panic("Unknown jxl color space")
    else Panic("not yet implemented")
  }

  /** The colour type the raster decoder reports: one of the ten known ones,
      or another (the decoder's enumeration is open-ended). */
  datatype DecodedColor = Known(color: ColorType) | OtherColor

  /** `From<image::ColorType> for ColorType`. */
  function ColorTypeOfDecoded(d: DecodedColor): (r: Outcome<ColorType>)
    ensures r.Value? <==> d.Known?
    ensures r.Value? ==> r.value == d.color
  {
    match d
    case Known(c) => Value(c)
    case OtherColor => Panic("not yet implemented")
  }

  /** `width * height * bytes_per_pixel` in `u32` arithmetic, which panics on
      overflow (checked arithmetic, as in a debug build). */
  function RawSize(width: nat, height: nat, c: ColorType): (r: Outcome<nat>)
    ensures r.Value? <==> width * height * BytesPerPixel(c) <= U32_MAX
    ensures r.Value? ==> r.value == width * height * Channels(c) * BytesPerSample(c)
  {
    var size := width * height * BytesPerPixel(c);
    if size <= U32_MAX then Value(size) else Panic("attempt to multiply with overflow")
  }

  /** `ImageReader::get_raw_size`. */
  function GetRawSize(width: nat, height: nat, color: DecodedColor): (r: Outcome<nat>)
    ensures r.Value? <==> color.Known? && RawSize(width, height, color.color).Value?
    ensures r.Value? ==> r == RawSize(width, height, color.color)
  {
    match color
    case Known(c) => RawSize(width, height, c)
    case OtherColor => Panic("Unsupported color space")
  }

  /** `ImageReader::get_raw_jxl_size`. */
  function GetRawJxlSize(width: nat, height: nat, channels: nat, pixels: PixelType): (r: Outcome<nat>)
    ensures r.Value? <==>
      JxlColorSpace(channels, pixels).Value?
      && width * height * BytesPerPixel(JxlColorSpace(channels, pixels).value) <= U32_MAX
    ensures r.Value? ==>
      JxlColorSpace(channels, pixels).Value?
      && r.value == width * height * channels * (if pixels == Uint8 then 1 else 2)
  {
    match JxlColorSpace(channels, pixels)
    case Value(c) => RawSize(width, height, c)
    case Panic(m) => Panic(m)
  }

  // ---------------------------------------------------------------------
  // Optional fields: `JXLf32`, `JXLu32`, `JXLString`

  /** `From<String> for JXLf32`: empty means absent; otherwise the text must
      parse. */
  function OptF32FromString(s: string): (r: Outcome<Option<real>>)
    ensures s == "" ==> r == Value(None)
    ensures s != "" ==> (r.Value? <==> ParseDecimal(s).Some?)
    ensures s != "" && r.Value? ==> r.value == ParseDecimal(s)
  {
    if s == "" then Value(None)
    else match ParseDecimal(s)
      case Some(v) => Value(Some(v))
      case None => Panic("called `Result::unwrap()` on an `Err` value")
  }

  /** `From<String> for JXLu32`. */
  function OptU32FromString(s: string): (r: Outcome<Option<nat>>)
    ensures s == "" ==> r == Value(None)
    ensures s != "" ==> (r.Value? <==> ParseU32(s).Some?)
    ensures s != "" && r.Value? ==> r.value == ParseU32(s)
  {
    if s == "" then Value(None)
    else match ParseU32(s)
      case Some(v) => Value(Some(v))
      case None => Panic("called `Result::unwrap()` on an `Err` value")
  }

  /** `From<String> for JXLString`. */
  function OptStringFromString(s: string): (r: Option<string>)
    ensures r.None? <==> s == ""
  {
    if s == "" then None else Some(s)
  }

  /** `JXLu32::to_string`. */
  function OptU32ToString(o: Option<nat>): (s: string)
    ensures s == "" <==> o.None?
  {
    match o
    case None => ""
    case Some(v) => NatToString(v)
  }

  /** `JXLString::to_string`. */
  function OptStringToString(o: Option<string>): string {
    match o
    case None => ""
    case Some(v) => v
  }

  /** `From<JXLu32> for u32`. */
  function OptU32Value(o: Option<nat>): (v: nat)
    ensures o.None? ==> v == 0
    ensures o.Some? ==> v == o.value
  {
    if o.Some? then o.value else 0
  }

  /** `From<JXLf32> for f32`. */
  function OptF32Value(o: Option<real>): (v: real)
    ensures o.None? ==> v == 0.0
    ensures o.Some? ==> v == o.value
  {
    if o.Some? then o.value else 0.0
  }

  /** A `JXLu32` survives printing and reading back. */
  lemma OptU32RoundTrip(o: Option<nat>)
    requires o.Some? ==> o.value <= U32_MAX
    ensures OptU32FromString(OptU32ToString(o)) == Value(o)
  {
    if o.Some? {
      NatToStringDigits(o.value);
      ParseUnsignedNatToString(o.value, U32_MAX);
    }
  }

  /** A `JXLString` survives printing and reading back exactly when it is not
      a present empty string. */
  lemma OptStringRoundTrip(o: Option<string>)
    ensures OptStringFromString(OptStringToString(o)) == o <==> o != Some("")
  {
  }

  // ---------------------------------------------------------------------
  // Provenance of a compressed image, read from its file name

  datatype Provenance = Provenance(origImageName: Option<string>, distance: Option<real>, effort: Option<nat>)

  const NoProvenance := Provenance(None, None, None)

  /** The file-name parse in `read_jxl` for `<orig>-<distance>-<effort>.jxl`:
      the origin is every '-'-separated part but the last two, joined again;
      the distance is the second-to-last part and the effort the last part
      up to its first '.'. A name with fewer than two parts makes the index
      arithmetic underflow. */
  function ParseJxlFileName(name: string): (r: Outcome<Provenance>)
    ensures r.Value? <==> '-' in name
    ensures r.Value? ==> r.value.origImageName.Some?
  {
    SplitLength(name, '-');
    var parts := Split(name, '-');
    if |parts| < 2 then
      Panic("attempt to subtract with overflow")
    else
      var n := |parts|;
      Value(Provenance(
        Some(Join(parts[..n - 2], '-')),
        ParseDecimal(parts[n - 2]),
        ParseU32(Split(parts[n - 1], '.')[0])))
  }

  /** The provenance recorded for the file at `path` (`ImageReader::new`):
      `.jxl` files go through the name parse of `read_jxl`; every other
      image gets no provenance at all. */
  function ReadProvenance(path: string): (r: Outcome<Provenance>)
    ensures r.Value? <==>
      Extension(path).Some? && (Extension(path).value == "jxl" ==> '-' in FileName(path).value)
    ensures r.Value? && Extension(path).value != "jxl" ==> r.value == NoProvenance
    ensures r.Value? && Extension(path).value == "jxl" ==> r == ParseJxlFileName(FileName(path).value)
  {
    match Extension(path)
    case None => Panic("called `Option::unwrap()` on a `None` value")
    case Some(ext) =>
      if ext == "jxl" then ParseJxlFileName(FileName(path).value) else Value(NoProvenance)
  }

  // ---------------------------------------------------------------------
  // The metadata record of one image file

  /** What the decoders report: the raster decoder for ordinary images, the
      JPEG XL decoder for `.jxl` files, or a decoding failure. */
  datatype Decoded =
    | Raster(width: nat, height: nat, color: DecodedColor)
    | JxlFrame(width: nat, height: nat, channels: nat, pixels: PixelType)
    | Undecodable

  datatype ImageFileData = ImageFileData(
    imageName: string, testSet: string, filePath: string, width: nat, height: nat,
    fileSize: nat, rawSize: nat, colorSpace: ColorType, fileFormat: ImageFormat,
    provenance: Provenance)

  /** `ImageReader::new`, with the decoders' report and the file size as
      parameters. `.jxl` files take the `read_jxl` path. The test set is the
      name of the directory holding the file, and the format comes from
      `get_format` as written, so a `.jxl` file is recorded as `Jpeg`. */
  function ReadImage(path: string, decoded: Decoded, fileSize: nat): (r: Outcome<ImageFileData>)
    ensures r.Value? <==>
      Extension(path).Some? && ParentName(path).Some?
      && (if Extension(path).value == "jxl" then
            decoded.JxlFrame? && '-' in FileName(path).value
            && GetRawJxlSize(decoded.width, decoded.height, decoded.channels, decoded.pixels).Value?
          else
            decoded.Raster? && GetRawSize(decoded.width, decoded.height, decoded.color).Value?)
    ensures r.Value? ==>
      r.value.filePath == path && r.value.imageName == FileName(path).value
      && r.value.testSet == ParentName(path).value
      && r.value.fileSize == fileSize
      && r.value.width == decoded.width && r.value.height == decoded.height
      && r.value.rawSize == r.value.width * r.value.height * BytesPerPixel(r.value.colorSpace)
      && r.value.fileFormat == FormatOfExtension(Extension(path).value)
    ensures r.Value? && Extension(path).value == "jxl" ==>
      r.value.fileFormat == Jpeg
      && Value(r.value.colorSpace) == JxlColorSpace(decoded.channels, decoded.pixels)
      && Value(r.value.provenance) == ParseJxlFileName(FileName(path).value)
    ensures r.Value? && Extension(path).value != "jxl" ==>
      r.value.provenance == NoProvenance
      && Value(r.value.colorSpace) == ColorTypeOfDecoded(decoded.color)
  {
    match Extension(path)
    case None => Panic("called `Option::unwrap()` on a `None` value")
    case Some(ext) =>
      var name := FileName(path).value;
      if ext == "jxl" then
        if !decoded.JxlFrame? then Panic("called `Result::unwrap()` on an `Err` value")
        else match ParseJxlFileName(name)
          case Panic(m) => Panic(m)
          case Value(prov) =>
            match ParentName(path)
            case None => Panic("called `Option::unwrap()` on a `None` value")
            case Some(testSet) =>
              match GetRawJxlSize(decoded.width, decoded.height, decoded.channels, decoded.pixels)
              case Panic(m) => Panic(m)
              case Value(raw) =>
                var c := JxlColorSpace(decoded.channels, decoded.pixels).value;
                Value(ImageFileData(name, testSet, path, decoded.width, decoded.height, fileSize,
                                    raw, c, FormatOfExtension(ext), prov))
      else
        if !decoded.Raster? then Panic("called `Result::unwrap()` on an `Err` value")
        else match ParentName(path)
          case None => Panic("called `Option::unwrap()` on a `None` value")
          case Some(testSet) =>
            match GetRawSize(decoded.width, decoded.height, decoded.color)
            case Panic(m) => Panic(m)
            case Value(raw) =>
              Value(ImageFileData(name, testSet, path, decoded.width, decoded.height, fileSize,
                                  raw, decoded.color.color, FormatOfExtension(ext), NoProvenance))
  }
}
