/**
 * The editor's root component: its message reducer and how it renders the
 * item list.
 *
 * The component holds the names of files still being read, the list of
 * placed items, a first-load flag and the canvas size. Reading a file is
 * outside the model: a `Files` message only registers the names of the
 * pending reads, and each read later arrives as a `Loaded` message.
 */
module AppComponent {
  import opened Wrappers
  import opened FileDetailsRecord
  import opened TextDetailsRecord
  import opened PageItemsRecord
  import opened Settings

  datatype Msg =
    | Loaded(name: string, fileType: string, data: seq<byte>, width: int, height: int)
    | Files(names: seq<string>)
    | Text(text: TextDetails)
    | Item(item: PageItems)
    | FinishedLoading
    | SetupCanvas(settings: CanvasSettings)

  /** The component's state. */
  datatype AppModel = AppModel(
    readers: set<string>,
    items: seq<PageItems>,
    firstLoad: bool,
    canvas: CanvasSettings)

  /** Width given to an uploaded image when it is placed. */
  const UploadedImageWidth: int := 250

  function InitialModel(): AppModel {
    AppModel({}, [], true, DefaultCanvasSettings())
  }

  /** The names a `Files` message registers. */
  function NamesOf(names: seq<string>): set<string> {
    set k | 0 <= k < |names| :: names[k]
  }

  /** The item placed for a loaded file: that image, 250 wide, every other field at its builder default. */
  function LoadedItem(name: string, fileType: string, data: seq<byte>, width: int, height: int): (p: PageItems)
    ensures p.file == Some(FileDetails(name, fileType, data, width, height)) && p.text == None
    ensures p.width == Some(250) && p.height == None
    ensures p.x == 0 && p.y == 0 && p.movable
  {
    BuildPageItems(EmptyItemBuilder().(
      file := Some(Some(FileDetails(name, fileType, data, width, height))),
      width := Some(Some(UploadedImageWidth))))
  }

  /** The item placed for a `Text` message: that text, every other field at its builder default. */
  function TextItem(t: TextDetails): (p: PageItems)
    ensures p == PageItems(Some(t), None, 0, 0, None, None, true)
  {
    BuildPageItems(EmptyItemBuilder().(text := Some(Some(t))))
  }

  /** The reducer, as a function of the state. */
  function Step(m: AppModel, msg: Msg): AppModel {
    match msg
    case Loaded(name, fileType, data, width, height) =>
      m.(items := m.items + [LoadedItem(name, fileType, data, width, height)], readers := m.readers - {name})
    case Files(names) => m.(readers := m.readers + NamesOf(names))
    case Text(t) => m.(items := m.items + [TextItem(t)])
    case Item(item) => m.(items := m.items + [item])
    case FinishedLoading => m.(firstLoad := false)
    case SetupCanvas(settings) => m.(canvas := settings)
  }

  /** Messages handled one after another. */
  function Run(m: AppModel, msgs: seq<Msg>): AppModel
    decreases |msgs|
  {
    if msgs == [] then m else Run(Step(m, msgs[0]), msgs[1..])
  }

  /** The message sent by the "Add Text" button: "Hello, World!" in size 16, the rest default. */
  function AddTextMessage(editableDefault: bool): (msg: Msg)
    ensures msg.Text? && msg.text.text == "Hello, World!" && msg.text.fontSize == 16
    ensures msg.text.fontFamily == "Arial" && msg.text.fontColor == "black" && msg.text.backgroundColor == "white"
  {
    Text(BuildTextDetails(EmptyTextBuilder().(text := Some("Hello, World!"), fontSize := Some(16)), editableDefault))
  }

  /** The root component, with the fields its reducer updates in place. */
  class App {
    var readers: set<string>
    var items: seq<PageItems>
    var firstLoad: bool
    var canvasSettings: CanvasSettings

    function State(): AppModel
      reads this
    {
      AppModel(readers, items, firstLoad, canvasSettings)
    }

    /** No pending reads, no items, first load pending, no canvas size. */
    constructor ()
      ensures State() == InitialModel()
      ensures readers == {} && items == [] && firstLoad && canvasSettings == CanvasSettings(None, None)
    {
      readers := {};
      items := [];
      firstLoad := true;
      canvasSettings := DefaultCanvasSettings();
    }

    /** Handles one message; every message asks for a re-render. */
    method Update(msg: Msg) returns (rerender: bool)
      modifies this
      ensures State() == Step(old(State()), msg)
      ensures rerender
    {
      match msg {
        case Loaded(name, fileType, data, width, height) =>
          var file := FileDetails(name, fileType, data, width, height);
          items := items + [BuildPageItems(EmptyItemBuilder().(file := Some(Some(file)), width := Some(Some(UploadedImageWidth))))];
          readers := readers - {name};
        case Files(names) =>
          for k := 0 to |names|
            invariant readers == old(readers) + NamesOf(names[..k])
            invariant items == old(items) && firstLoad == old(firstLoad) && canvasSettings == old(canvasSettings)
          {
            assert NamesOf(names[..k + 1]) == NamesOf(names[..k]) + {names[k]} by {
              assert names[..k + 1] == names[..k] + [names[k]];
            }
            readers := readers + {names[k]};
          }
          assert names[..|names|] == names;
        case Text(t) =>
          items := items + [BuildPageItems(EmptyItemBuilder().(text := Some(Some(t))))];
        case Item(item) =>
          items := items + [item];
        case FinishedLoading =>
          firstLoad := false;
        case SetupCanvas(settings) =>
          canvasSettings := settings;
      }
      rerender := true;
    }
  }

  /** What each message changes, and that nothing else changes. */
  lemma UpdateEffects(m: AppModel, msg: Msg)
    ensures var r := Step(m, msg);
            && (msg.Loaded? ==> r.items == m.items + [LoadedItem(msg.name, msg.fileType, msg.data, msg.width, msg.height)]
                                && msg.name !in r.readers && r.readers == m.readers - {msg.name}
                                && r.firstLoad == m.firstLoad && r.canvas == m.canvas)
            && (msg.Files? ==> r.readers == m.readers + NamesOf(msg.names) && r.items == m.items
                               && r.firstLoad == m.firstLoad && r.canvas == m.canvas)
            && (msg.Text? ==> r.items == m.items + [PageItems(Some(msg.text), None, 0, 0, None, None, true)]
                              && r.readers == m.readers && r.firstLoad == m.firstLoad && r.canvas == m.canvas)
            && (msg.Item? ==> r.items == m.items + [msg.item]
                              && r.readers == m.readers && r.firstLoad == m.firstLoad && r.canvas == m.canvas)
            && (msg.FinishedLoading? ==> r == m.(firstLoad := false))
            && (msg.SetupCanvas? ==> r == m.(canvas := msg.settings))
  {
  }

  /** Messages that place one item. */
  predicate PlacesItem(msg: Msg) {
    msg.Loaded? || msg.Text? || msg.Item?
  }

  function PlacingCount(msgs: seq<Msg>): nat {
    if msgs == [] then 0 else (if PlacesItem(msgs[0]) then 1 else 0) + PlacingCount(msgs[1..])
  }

  /**
   * Items are only ever appended: the old list is a prefix of the new one,
   * which is longer by the number of item-placing messages.
   */
  lemma {:induction false} ItemsOnlyGrow(m: AppModel, msgs: seq<Msg>)
    ensures var r := Run(m, msgs);
            && |r.items| == |m.items| + PlacingCount(msgs)
            && r.items[..|m.items|] == m.items
    decreases |msgs|
  {
    if msgs != [] {
      var m' := Step(m, msgs[0]);
      ItemsOnlyGrow(m', msgs[1..]);
      var r := Run(m, msgs);
      assert r == Run(m', msgs[1..]);
      assert m'.items[..|m.items|] == m.items;
      assert r.items[..|m.items|] == r.items[..|m'.items|][..|m.items|];
    }
  }

  /** One `Item` message per item, in order. */
  function ItemMessages(items: seq<PageItems>): seq<Msg> {
    seq(|items|, k requires 0 <= k < |items| => Item(items[k]))
  }

  lemma RunAppend(m: AppModel, a: seq<Msg>, b: seq<Msg>)
    ensures Run(m, a + b) == Run(Run(m, a), b)
    decreases |a|
  {
    if a == [] {
      assert a + b == b;
    } else {
      assert (a + b)[0] == a[0];
      assert (a + b)[1..] == a[1..] + b;
      RunAppend(Step(m, a[0]), a[1..], b);
    }
  }

  /** Sending `Item` messages appends exactly those items and changes nothing else. */
  lemma {:induction false} ItemMessagesAppend(m: AppModel, items: seq<PageItems>)
    ensures Run(m, ItemMessages(items)) == m.(items := m.items + items)
    decreases |items|
  {
    if items != [] {
      var msgs := ItemMessages(items);
      var m1 := m.(items := m.items + [items[0]]);
      assert msgs[0] == Item(items[0]);
      assert msgs[1..] == ItemMessages(items[1..]);
      assert Run(m, msgs) == Run(m1, msgs[1..]);
      ItemMessagesAppend(m1, items[1..]);
      assert m.items + [items[0]] + items[1..] == m.items + items;
    }
  }

  /**
   * The first render sends one `Item` per item read from the query, then the
   * canvas settings, then `FinishedLoading`: afterwards the query's items
   * follow the existing ones in order, the canvas is set and the first load
   * is over.
   */
  lemma FirstLoadMessages(m: AppModel, parsed: seq<PageItems>, canvas: CanvasSettings)
    ensures Run(m, ItemMessages(parsed) + [SetupCanvas(canvas), FinishedLoading])
         == AppModel(m.readers, m.items + parsed, false, canvas)
  {
    var tail := [SetupCanvas(canvas), FinishedLoading];
    RunAppend(m, ItemMessages(parsed), tail);
    ItemMessagesAppend(m, parsed);
    var loaded := m.(items := m.items + parsed);
    assert Run(loaded, tail) == Run(Step(loaded, tail[0]), tail[1..]);
    assert Run(loaded, tail) == Run(loaded.(canvas := canvas), [FinishedLoading]);
  }

  /** One `Loaded` message per name, in order. */
  predicate LoadsOf(loads: seq<Msg>, names: seq<string>) {
    |loads| == |names| && forall k :: 0 <= k < |loads| ==> loads[k].Loaded? && loads[k].name == names[k]
  }

  /** Loading files removes each of their names from the pending reads, and nothing else. */
  lemma {:induction false} LoadsClearReaders(m: AppModel, loads: seq<Msg>, names: seq<string>)
    requires LoadsOf(loads, names)
    ensures Run(m, loads).readers == m.readers - NamesOf(names)
    decreases |loads|
  {
    if loads != [] {
      assert LoadsOf(loads[1..], names[1..]);
      LoadsClearReaders(Step(m, loads[0]), loads[1..], names[1..]);
      assert NamesOf(names) == {names[0]} + NamesOf(names[1..]) by {
        forall n | n in NamesOf(names)
          ensures n in {names[0]} + NamesOf(names[1..])
        {
          var k :| 0 <= k < |names| && names[k] == n;
          if k > 0 {
            assert names[1..][k - 1] == n;
          }
        }
        forall n | n in NamesOf(names[1..])
          ensures n in NamesOf(names)
        {
          var k :| 0 <= k < |names[1..]| && names[1..][k] == n;
          assert names[k + 1] == n;
        }
      }
    }
  }

  /**
   * Selecting files and then receiving every one of them leaves no read of
   * theirs pending; the reads pending before are kept unless their name was
   * loaded again.
   */
  lemma SelectThenLoad(m: AppModel, names: seq<string>, loads: seq<Msg>)
    requires LoadsOf(loads, names)
    ensures Run(m, [Files(names)] + loads).readers == m.readers - NamesOf(names)
    ensures |Run(m, [Files(names)] + loads).items| == |m.items| + |names|
  {
    RunAppend(m, [Files(names)], loads);
    assert Run(m, [Files(names)]) == Step(m, Files(names));
    LoadsClearReaders(Step(m, Files(names)), loads, names);
    ItemsOnlyGrow(Step(m, Files(names)), loads);
    LoadsArePlacing(loads, names);
  }

  lemma {:induction false} LoadsArePlacing(loads: seq<Msg>, names: seq<string>)
    requires LoadsOf(loads, names)
    ensures PlacingCount(loads) == |loads|
    decreases |loads|
  {
    if loads != [] {
      assert LoadsOf(loads[1..], names[1..]);
      LoadsArePlacing(loads[1..], names[1..]);
    }
  }

  /** What one item renders as: an image, else a text, else nothing, with its placement. */
  datatype View =
    | FileView(file: FileDetails, width: Option<int>, height: Option<int>, x: int, y: int, movable: bool)
    | TextView(text: TextDetails, width: Option<int>, height: Option<int>, x: int, y: int, movable: bool)
    | Nothing

  /** `view_item`: the image wins over the text; an item with neither renders nothing. */
  function ViewItem(item: PageItems): (v: View)
    ensures v.FileView? <==> item.file.Some?
    ensures v.TextView? <==> item.file.None? && item.text.Some?
    ensures v.Nothing? <==> item.file.None? && item.text.None?
    ensures v.FileView? ==> v.file == item.file.value
    ensures v.TextView? ==> v.text == item.text.value
    ensures !v.Nothing? ==> v.width == item.width && v.height == item.height && v.x == item.x
                            && v.y == item.y && v.movable == item.movable
  {
    match item.file
    case Some(file) => FileView(file, item.width, item.height, item.x, item.y, item.movable)
    case None =>
      match item.text
      case Some(text) => TextView(text, item.width, item.height, item.x, item.y, item.movable)
      case None => Nothing
  }

  /** The canvas children: the items rendered newest first. */
  function ViewItems(items: seq<PageItems>): (vs: seq<View>)
    ensures |vs| == |items|
    ensures forall k :: 0 <= k < |items| ==> vs[k] == ViewItem(items[|items| - 1 - k])
  {
    if items == [] then [] else ViewItems(items[1..]) + [ViewItem(items[0])]
  }

  /** The item placed last is drawn first, above the older ones' order. */
  lemma NewestDrawnFirst(items: seq<PageItems>, p: PageItems)
    ensures ViewItems(items + [p]) == [ViewItem(p)] + ViewItems(items)
  {
  }
}
