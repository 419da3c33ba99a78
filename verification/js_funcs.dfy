/**
 * The record builders exported to JavaScript (`build_item`, `build_text`,
 * `build_file`).
 *
 * A JavaScript argument is either `undefined`, or a value that the
 * deserializer turns into a record, or one it rejects. Serializing the
 * result back into a JavaScript value is not modelled: the functions return
 * the record itself.
 */
module JsFuncs {
  import opened Wrappers
  import opened FileDetailsRecord
  import opened TextDetailsRecord
  import opened PageItemsRecord

  /** A JavaScript argument, as seen after the undefined check and deserialization. */
  datatype JsArg<T> = Undefined | Decoded(value: T) | Undecodable

  const ParseTextError: string := "Failed to parse text"
  const ParseFileError: string := "Failed to parse file"
  const BothNoneError: string := "Both text and file are None"
  const BothDefinedError: string := "Both text and file are defined"

  /**
   * `build_item`: the arguments are decoded text first, then file; an
   * undecodable argument, no content, or both contents are errors;
   * otherwise the item carries the one content, a missing position is 0,
   * the size is passed through and `movable` defaults to true.
   */
  function BuildItem(textJs: JsArg<TextDetails>, fileJs: JsArg<FileDetails>, x: Option<int>, y: Option<int>,
                     width: Option<int>, height: Option<int>, movable: Option<bool>): (r: Result<PageItems, string>)
    ensures textJs.Undecodable? ==> r == Err(ParseTextError)
    ensures !textJs.Undecodable? && fileJs.Undecodable? ==> r == Err(ParseFileError)
    ensures textJs.Undefined? && fileJs.Undefined? ==> r == Err(BothNoneError)
    ensures textJs.Decoded? && fileJs.Decoded? ==> r == Err(BothDefinedError)
    ensures r.Ok? <==> (textJs.Decoded? && fileJs.Undefined?) || (textJs.Undefined? && fileJs.Decoded?)
    ensures r.Ok? ==> r.value.text.Some? != r.value.file.Some?
    ensures r.Ok? && textJs.Decoded? ==> r.value.text == Some(textJs.value)
    ensures r.Ok? && fileJs.Decoded? ==> r.value.file == Some(fileJs.value)
    ensures r.Ok? ==> r.value.x == x.GetOr(0) && r.value.y == y.GetOr(0)
    ensures r.Ok? ==> r.value.width == width && r.value.height == height
    ensures r.Ok? ==> (r.value.movable <==> movable != Some(false))
  {
    var text: Option<TextDetails> :=
      match textJs
      case Undefined => None
      case Decoded(t) => Some(t)
      case Undecodable => None;
    var file: Option<FileDetails> :=
      match fileJs
      case Undefined => None
      case Decoded(f) => Some(f)
      case Undecodable => None;
    if textJs.Undecodable? then Err(ParseTextError)
    else if fileJs.Undecodable? then Err(ParseFileError)
    else if text.None? && file.None? then Err(BothNoneError)
    else if text.Some? && file.Some? then Err(BothDefinedError)
    else
      Ok(BuildPageItems(EmptyItemBuilder().(
        text := Some(text),
        file := Some(file),
        x := Some(x.GetOr(0)),
        y := Some(y.GetOr(0)),
        width := Some(width),
        height := Some(height),
        movable := Some(movable.GetOr(true)))))
  }

  /** `build_text`: each missing argument takes the default text record's field. */
  function BuildText(text: Option<string>, fontSize: Option<int>, fontFamily: Option<string>,
                     fontColor: Option<string>, backgroundColor: Option<string>, editable: Option<bool>,
                     editableDefault: bool): (t: TextDetails)
    ensures t.text == text.GetOr("") && t.fontSize == fontSize.GetOr(8)
    ensures t.fontFamily == fontFamily.GetOr("Arial") && t.fontColor == fontColor.GetOr("black")
    ensures t.backgroundColor == backgroundColor.GetOr("white")
    ensures t.editable == editable.GetOr(editableDefault)
  {
    var defaultText := DefaultTextDetails(editableDefault);
    BuildTextDetails(TextDetailsBuilder(
      Some(text.GetOr(defaultText.text)),
      Some(fontSize.GetOr(defaultText.fontSize)),
      Some(fontFamily.GetOr(defaultText.fontFamily)),
      Some(fontColor.GetOr(defaultText.fontColor)),
      Some(backgroundColor.GetOr(defaultText.backgroundColor)),
      Some(editable.GetOr(defaultText.editable))), editableDefault)
  }

  /** Filling each field from the default record is the same as leaving it unset on the builder. */
  lemma BuildTextIsBuilderDefaulting(text: Option<string>, fontSize: Option<int>, fontFamily: Option<string>,
                                     fontColor: Option<string>, backgroundColor: Option<string>,
                                     editable: Option<bool>, editableDefault: bool)
    ensures BuildText(text, fontSize, fontFamily, fontColor, backgroundColor, editable, editableDefault)
         == BuildTextDetails(TextDetailsBuilder(text, fontSize, fontFamily, fontColor, backgroundColor, editable),
                             editableDefault)
  {
  }

  /** `build_file`: name, type and bytes kept; the size probed, or 100x100 when probing fails. */
  function BuildFile(name: string, fileType: string, data: seq<byte>, probe: seq<byte> -> Option<Size>): (f: FileDetails)
    ensures f.name == name && f.fileType == fileType && f.data == data
    ensures probe(data).None? ==> f.width == 100 && f.height == 100
    ensures probe(data).Some? ==> f.width == probe(data).value.width && f.height == probe(data).value.height
  {
    var size := probe(data).GetOr(Size(FallbackImageSide, FallbackImageSide));
    FileDetails(name, fileType, data, size.width, size.height)
  }
}
