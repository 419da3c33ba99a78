/**
 * The text content and styling of a text item, and its builder.
 *
 * Every field but `editable` has a builder default. `editable` is set by
 * every caller that builds a text record from user input, and the default the
 * builder would use for it is taken as a parameter.
 */
module TextDetailsRecord {
  import opened Wrappers

  const DefaultText: string := ""
  const DefaultFontSize: int := 8
  const DefaultFontFamily: string := "Arial"
  const DefaultFontColor: string := "black"
  const DefaultBackgroundColor: string := "white"

  datatype TextDetails = TextDetails(
    text: string,
    fontSize: int,
    fontFamily: string,
    fontColor: string,
    backgroundColor: string,
    editable: bool)

  /** A builder: each field is either set by a setter call or left unset. */
  datatype TextDetailsBuilder = TextDetailsBuilder(
    text: Option<string>,
    fontSize: Option<int>,
    fontFamily: Option<string>,
    fontColor: Option<string>,
    backgroundColor: Option<string>,
    editable: Option<bool>)

  /** `TextDetailsBuilder::default()`: nothing set. */
  function EmptyTextBuilder(): TextDetailsBuilder {
    TextDetailsBuilder(None, None, None, None, None, None)
  }

  /** `build()`: every unset field takes its default. */
  function BuildTextDetails(b: TextDetailsBuilder, editableDefault: bool): (t: TextDetails)
    ensures b.text.Some? ==> t.text == b.text.value
    ensures b.fontSize.Some? ==> t.fontSize == b.fontSize.value
    ensures b.fontFamily.Some? ==> t.fontFamily == b.fontFamily.value
    ensures b.fontColor.Some? ==> t.fontColor == b.fontColor.value
    ensures b.backgroundColor.Some? ==> t.backgroundColor == b.backgroundColor.value
    ensures b.editable.Some? ==> t.editable == b.editable.value
    ensures b.text.None? ==> t.text == DefaultText
    ensures b.fontSize.None? ==> t.fontSize == DefaultFontSize
    ensures b.fontFamily.None? ==> t.fontFamily == DefaultFontFamily
    ensures b.fontColor.None? ==> t.fontColor == DefaultFontColor
    ensures b.backgroundColor.None? ==> t.backgroundColor == DefaultBackgroundColor
    ensures b.editable.None? ==> t.editable == editableDefault
  {
    TextDetails(
      b.text.GetOr(DefaultText),
      b.fontSize.GetOr(DefaultFontSize),
      b.fontFamily.GetOr(DefaultFontFamily),
      b.fontColor.GetOr(DefaultFontColor),
      b.backgroundColor.GetOr(DefaultBackgroundColor),
      b.editable.GetOr(editableDefault))
  }

  /** `TextDetailsBuilder::default().build()`: the default text record. */
  function DefaultTextDetails(editableDefault: bool): (t: TextDetails)
    ensures t.text == "" && t.fontSize == 8
    ensures t.fontFamily == "Arial" && t.fontColor == "black" && t.backgroundColor == "white"
  {
    BuildTextDetails(EmptyTextBuilder(), editableDefault)
  }
}
