/**
 * Reading placement records and canvas settings from the query string.
 *
 * Each query parameter arrives as the list of all its values. The list of
 * `type` values drives the walk: entry i yields item i. Position, size and
 * `movable` are read at index i of their lists; text-only attributes are read
 * at a counter that advances only on "text" entries, image-only attributes at
 * a counter that advances only on "image" entries, and the shared `value`
 * list is read at whichever counter applies.
 *
 * Base64 decoding and image-size probing are outside the model; they are
 * passed in as functions.
 */
module Settings {
  import opened Wrappers
  import opened Parsing
  import opened FileDetailsRecord
  import opened TextDetailsRecord
  import opened PageItemsRecord

  /** Optional canvas size; the builder default leaves both unset. */
  datatype CanvasSettings = CanvasSettings(width: Option<int>, height: Option<int>)

  function DefaultCanvasSettings(): CanvasSettings {
    CanvasSettings(None, None)
  }

  /** The value lists of every query parameter the reader consults. */
  datatype QueryParams = QueryParams(
    types: seq<string>,
    values: seq<string>,
    xs: seq<string>,
    ys: seq<string>,
    widths: seq<string>,
    heights: seq<string>,
    movables: seq<string>,
    editables: seq<string>,
    fontSizes: seq<string>,
    fontFamilies: seq<string>,
    fontColors: seq<string>,
    backgroundColors: seq<string>,
    names: seq<string>)

  const TextType: string := "text"
  const ImageType: string := "image"
  const DecodedImageType: string := "image/png"

  /** Number of entries of `s` equal to `t`. */
  function CountOf(s: seq<string>, t: string): (n: nat)
    ensures n <= |s|
  {
    if s == [] then 0
    else CountOf(s[..|s| - 1], t) + (if s[|s| - 1] == t then 1 else 0)
  }

  /** Entry `i` of a value list, if the list is long enough. */
  function Entry(column: seq<string>, i: nat): Option<string> {
    if |column| > i then Some(column[i]) else None
  }

  /** An `i32` entry, or `default` when missing or unparsable. */
  function I32Or(column: seq<string>, i: nat, default: int): int {
    match Entry(column, i)
    case Some(v) => ParseI32(v).GetOr(default)
    case None => default
  }

  /** An `i32` entry when present and parsable. */
  function OptionalI32(column: seq<string>, i: nat): Option<int> {
    match Entry(column, i)
    case Some(v) => ParseI32(v)
    case None => None
  }

  /** A `bool` entry, or false when missing or unparsable. */
  function FlagAt(column: seq<string>, i: nat): bool {
    match Entry(column, i)
    case Some(v) => ParseBool(v).GetOr(false)
    case None => false
  }

  /** The text record built from the text-only attributes at counter `ti`. */
  function TextAt(q: QueryParams, ti: nat): TextDetails {
    TextDetails(
      Entry(q.values, ti).GetOr(DefaultText),
      match Entry(q.fontSizes, ti)
        case Some(v) => ParseU16(v).GetOr(DefaultFontSize)
        case None => DefaultFontSize,
      Entry(q.fontFamilies, ti).GetOr(DefaultFontFamily),
      Entry(q.fontColors, ti).GetOr(DefaultFontColor),
      Entry(q.backgroundColors, ti).GetOr(DefaultBackgroundColor),
      FlagAt(q.editables, ti))
  }

  /** The image record built from the image-only attributes at counter `ii`. */
  function ImageAt(q: QueryParams, ii: nat, decode: string -> Option<seq<byte>>,
                   probe: seq<byte> -> Option<Size>): FileDetails
  {
    var bytes := decode(Entry(q.values, ii).GetOr("")).GetOr([]);
    var size := probe(bytes).GetOr(Size(FallbackImageSide, FallbackImageSide));
    FileDetails(Entry(q.names, ii).GetOr(""), DecodedImageType, bytes, size.width, size.height)
  }

  /** Item `i` of the walk, given the text and image counters at that point. */
  function QueryItemAt(q: QueryParams, i: nat, ti: nat, ii: nat, decode: string -> Option<seq<byte>>,
                       probe: seq<byte> -> Option<Size>): PageItems
    requires i < |q.types|
  {
    PageItems(
      if q.types[i] == TextType then Some(TextAt(q, ti)) else None,
      if q.types[i] != TextType && q.types[i] == ImageType then Some(ImageAt(q, ii, decode, probe)) else None,
      I32Or(q.xs, i, 0),
      I32Or(q.ys, i, 0),
      OptionalI32(q.widths, i),
      OptionalI32(q.heights, i),
      FlagAt(q.movables, i))
  }

  /** Item `k` of the walk, with the counters equal to the text and image entries before `k`. */
  function QueryItem(q: QueryParams, k: nat, decode: string -> Option<seq<byte>>,
                     probe: seq<byte> -> Option<Size>): PageItems
    requires k < |q.types|
  {
    QueryItemAt(q, k, CountOf(q.types[..k], TextType), CountOf(q.types[..k], ImageType), decode, probe)
  }

  lemma CountOfStep(s: seq<string>, i: nat, t: string)
    requires i < |s|
    ensures CountOf(s[..i + 1], t) == CountOf(s[..i], t) + (if s[i] == t then 1 else 0)
  {
    assert s[..i + 1][..i] == s[..i];
  }

  /** The text-only attributes at counter `textI`, each defaulting when its list is too short. */
  method ReadTextDetails(q: QueryParams, textI: nat) returns (text: TextDetails)
    ensures text == TextAt(q, textI)
  {
    var value := if |q.values| > textI then q.values[textI] else DefaultText;
    var fontSize :=
      if |q.fontSizes| > textI then ParseU16(q.fontSizes[textI]).GetOr(DefaultFontSize) else DefaultFontSize;
    var fontFamily := if |q.fontFamilies| > textI then q.fontFamilies[textI] else DefaultFontFamily;
    var fontColor := if |q.fontColors| > textI then q.fontColors[textI] else DefaultFontColor;
    var backgroundColor :=
      if |q.backgroundColors| > textI then q.backgroundColors[textI] else DefaultBackgroundColor;
    var editable := if |q.editables| > textI then ParseBool(q.editables[textI]).GetOr(false) else false;
    text := TextDetails(value, fontSize, fontFamily, fontColor, backgroundColor, editable);
  }

  /** The image-only attributes at counter `imageI`, with the size probed from the decoded bytes. */
  method ReadFileDetails(q: QueryParams, imageI: nat, decode: string -> Option<seq<byte>>,
                         probe: seq<byte> -> Option<Size>)
    returns (file: FileDetails)
    ensures file == ImageAt(q, imageI, decode, probe)
  {
    var value := if |q.values| > imageI then q.values[imageI] else "";
    var name := if |q.names| > imageI then q.names[imageI] else "";
    var bytes := decode(value).GetOr([]);
    var realWidth, realHeight := FallbackImageSide, FallbackImageSide;
    var resolution := probe(bytes);
    if resolution.Some? {
      realWidth, realHeight := resolution.value.width, resolution.value.height;
    }
    file := FileDetails(name, DecodedImageType, bytes, realWidth, realHeight);
  }

  /**
   * One turn of the walk: the item for entry `i`, built with the counters
   * `textI` and `imageI`, and the counters for the next entry.
   */
  method BuildQueryItem(q: QueryParams, i: nat, textI: nat, imageI: nat,
                        decode: string -> Option<seq<byte>>, probe: seq<byte> -> Option<Size>)
    returns (item: PageItems, nextTextI: nat, nextImageI: nat)
    requires i < |q.types|
    ensures item == QueryItemAt(q, i, textI, imageI, decode, probe)
    ensures nextTextI == textI + (if q.types[i] == TextType then 1 else 0)
    ensures nextImageI == imageI + (if q.types[i] == ImageType then 1 else 0)
  {
    var text: Option<TextDetails> := None;
    var file: Option<FileDetails> := None;
    nextTextI, nextImageI := textI, imageI;

    var x := if |q.xs| > i then ParseI32(q.xs[i]).GetOr(0) else 0;
    var y := if |q.ys| > i then ParseI32(q.ys[i]).GetOr(0) else 0;
    var width := if |q.widths| > i then ParseI32(q.widths[i]) else None;
    var height := if |q.heights| > i then ParseI32(q.heights[i]) else None;
    var movable := if |q.movables| > i then ParseBool(q.movables[i]).GetOr(false) else false;
    assert x == I32Or(q.xs, i, 0) && y == I32Or(q.ys, i, 0);
    assert width == OptionalI32(q.widths, i) && height == OptionalI32(q.heights, i);
    assert movable == FlagAt(q.movables, i);

    if q.types[i] == TextType {
      var details := ReadTextDetails(q, textI);
      text := Some(details);
      nextTextI := textI + 1;
    } else if q.types[i] == ImageType {
      var details := ReadFileDetails(q, imageI, decode, probe);
      file := Some(details);
      nextImageI := imageI + 1;
    }

    assert text == QueryItemAt(q, i, textI, imageI, decode, probe).text;
    assert file == QueryItemAt(q, i, textI, imageI, decode, probe).file;
    item := PageItems(text, file, x, y, width, height, movable);
  }

  /** `parse_query`: one item per `type` entry, in order. */
  method ParseQuery(q: QueryParams, decode: string -> Option<seq<byte>>, probe: seq<byte> -> Option<Size>)
    returns (items: seq<PageItems>)
    ensures |items| == |q.types|
    ensures forall k :: 0 <= k < |items| ==> items[k] == QueryItem(q, k, decode, probe)
  {
    items := [];
    var i, textI, imageI := 0, 0, 0;
    while i < |q.types|
      invariant i <= |q.types| && |items| == i
      invariant textI == CountOf(q.types[..i], TextType)
      invariant imageI == CountOf(q.types[..i], ImageType)
      invariant forall k :: 0 <= k < i ==> items[k] == QueryItem(q, k, decode, probe)
    {
      var item;
      item, textI, imageI := BuildQueryItem(q, i, textI, imageI, decode, probe);
      CountOfStep(q.types, i, TextType);
      CountOfStep(q.types, i, ImageType);
      items := items + [item];
      i := i + 1;
    }
  }

  /**
   * The per-index fields of item k: position from its own entries (0 when
   * missing or unparsable), size present only on a successful parse,
   * `movable` false when missing or unparsable, and content by type.
   */
  lemma QueryItemFields(q: QueryParams, k: nat, decode: string -> Option<seq<byte>>,
                        probe: seq<byte> -> Option<Size>)
    requires k < |q.types|
    ensures var it := QueryItem(q, k, decode, probe);
            && (k < |q.xs| && ParseI32(q.xs[k]).Some? ==> it.x == ParseI32(q.xs[k]).value)
            && (k >= |q.xs| || ParseI32(q.xs[k]).None? ==> it.x == 0)
            && (k < |q.ys| && ParseI32(q.ys[k]).Some? ==> it.y == ParseI32(q.ys[k]).value)
            && (k >= |q.ys| || ParseI32(q.ys[k]).None? ==> it.y == 0)
            && (it.width.Some? <==> k < |q.widths| && ParseI32(q.widths[k]).Some?)
            && (it.width.Some? ==> it.width == ParseI32(q.widths[k]))
            && (it.height.Some? <==> k < |q.heights| && ParseI32(q.heights[k]).Some?)
            && (it.height.Some? ==> it.height == ParseI32(q.heights[k]))
            && (it.movable <==> k < |q.movables| && q.movables[k] == "true")
            && (it.text.Some? <==> q.types[k] == "text")
            && (it.file.Some? <==> q.types[k] == "image")
            && (it.text.None? && it.file.None? <==> q.types[k] != "text" && q.types[k] != "image")
  {
  }

  /** A failed size probe gives a 100x100 image; the bytes are the decoded value, or none if decoding fails. */
  lemma ImageFallbackSize(q: QueryParams, ii: nat, decode: string -> Option<seq<byte>>,
                          probe: seq<byte> -> Option<Size>)
    ensures var f := ImageAt(q, ii, decode, probe);
            && f.fileType == "image/png"
            && (probe(f.data).None? ==> f.width == 100 && f.height == 100)
            && (probe(f.data).Some? ==> f.width == probe(f.data).value.width && f.height == probe(f.data).value.height)
            && (ii < |q.values| && decode(q.values[ii]).Some? ==> f.data == decode(q.values[ii]).value)
  {
  }

  /** A text attribute missing at the text counter takes its builder default; a font size that does not parse as u16 takes 8. */
  lemma TextDefaults(q: QueryParams, ti: nat)
    ensures var t := TextAt(q, ti);
            && (ti >= |q.values| ==> t.text == "")
            && (ti >= |q.fontSizes| || ParseU16(q.fontSizes[ti]).None? ==> t.fontSize == 8)
            && (ti >= |q.fontFamilies| ==> t.fontFamily == "Arial")
            && (ti >= |q.fontColors| ==> t.fontColor == "black")
            && (ti >= |q.backgroundColors| ==> t.backgroundColor == "white")
            && (t.editable <==> ti < |q.editables| && q.editables[ti] == "true")
  {
  }

  lemma {:induction false} CountOfMonotone(s: seq<string>, j: nat, k: nat, t: string)
    requires j <= k <= |s|
    ensures CountOf(s[..j], t) <= CountOf(s[..k], t)
    decreases k - j
  {
    if j < k {
      CountOfStep(s, k - 1, t);
      CountOfMonotone(s, j, k - 1, t);
    }
  }

  /**
   * Counter discipline: of two "text" entries j < k, entry k reads its text
   * attributes at a strictly larger index, so no two text items share a
   * value; the same holds for "image" entries.
   */
  lemma CountersAdvanceOnTheirType(s: seq<string>, j: nat, k: nat, t: string)
    requires j < k <= |s| && s[j] == t
    ensures CountOf(s[..j], t) < CountOf(s[..k], t)
  {
    CountOfStep(s, j, t);
    CountOfMonotone(s, j + 1, k, t);
  }

  /** Neither counter runs ahead of the walk, and together they never exceed it. */
  lemma {:induction false} CountersBehindIndex(s: seq<string>, k: nat)
    requires k <= |s|
    ensures CountOf(s[..k], TextType) + CountOf(s[..k], ImageType) <= k
    decreases k
  {
    if k > 0 {
      CountOfStep(s, k - 1, TextType);
      CountOfStep(s, k - 1, ImageType);
      CountersBehindIndex(s, k - 1);
    }
  }

  /** `parse_settings_query`: only the first value of each list is parsed; a missing or unparsable one gives no size. */
  function ParseSettingsQuery(canvasWidth: seq<string>, canvasHeight: seq<string>): (c: CanvasSettings)
    ensures canvasWidth == [] ==> c.width == None
    ensures canvasHeight == [] ==> c.height == None
    ensures canvasWidth != [] ==> c.width == ParseI32(canvasWidth[0])
    ensures canvasHeight != [] ==> c.height == ParseI32(canvasHeight[0])
  {
    var width := ParseI32(if |canvasWidth| > 0 then canvasWidth[0] else "");
    var height := ParseI32(if |canvasHeight| > 0 then canvasHeight[0] else "");
    CanvasSettings(width, height)
  }
}
