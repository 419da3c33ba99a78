/**
 * One placement record of the item list, and its builder. The record holds
 * an optional text and an optional image; it does not itself require that
 * exactly one of them is present.
 */
module PageItemsRecord {
  import opened Wrappers
  import opened TextDetailsRecord
  import opened FileDetailsRecord

  datatype PageItems = PageItems(
    text: Option<TextDetails>,
    file: Option<FileDetails>,
    x: int,
    y: int,
    width: Option<int>,
    height: Option<int>,
    movable: bool)

  /** A builder: each field is either set by a setter call or left unset. */
  datatype PageItemsBuilder = PageItemsBuilder(
    text: Option<Option<TextDetails>>,
    file: Option<Option<FileDetails>>,
    x: Option<int>,
    y: Option<int>,
    width: Option<Option<int>>,
    height: Option<Option<int>>,
    movable: Option<bool>)

  /** `PageItemsBuilder::default()`: nothing set. */
  function EmptyItemBuilder(): PageItemsBuilder {
    PageItemsBuilder(None, None, None, None, None, None, None)
  }

  /**
   * `build()`: every unset field takes its default: no text, no file,
   * position (0, 0), no size, movable.
   */
  function BuildPageItems(b: PageItemsBuilder): (p: PageItems)
    ensures p.text == b.text.GetOr(None) && p.file == b.file.GetOr(None)
    ensures b.x.Some? ==> p.x == b.x.value
    ensures b.y.Some? ==> p.y == b.y.value
    ensures b.x.None? ==> p.x == 0
    ensures b.y.None? ==> p.y == 0
    ensures p.width == b.width.GetOr(None) && p.height == b.height.GetOr(None)
    ensures b.movable.None? ==> p.movable
    ensures b.movable.Some? ==> p.movable == b.movable.value
  {
    PageItems(
      b.text.GetOr(None),
      b.file.GetOr(None),
      b.x.GetOr(0),
      b.y.GetOr(0),
      b.width.GetOr(None),
      b.height.GetOr(None),
      b.movable.GetOr(true))
  }

  /** The default item: nothing to show, at the origin, no size, movable. */
  lemma DefaultItem()
    ensures BuildPageItems(EmptyItemBuilder()) == PageItems(None, None, 0, 0, None, None, true)
  {
  }

  /** The record admits an item holding both a text and an image. */
  lemma BothContentsRepresentable(t: TextDetails, f: FileDetails)
    ensures var p := BuildPageItems(EmptyItemBuilder().(text := Some(Some(t)), file := Some(Some(f))));
            p.text == Some(t) && p.file == Some(f)
  {
  }
}
