# web-image-editor, modelled in Dafny

The editor runs in the browser. A page (the canvas) holds items, and each item shows either an
uploaded image or a text box. An item can be placed at a fixed position or left movable. A movable
item can be dragged with the mouse and resized with eight handles: four corners and four edges.
Items can come from several places:

- the query string of the page URL;
- file uploads;
- the "Add Text" button;
- a page script, which queues serialized items in a hidden attribute.

This project models the logic behind all of that.

| file | module | models |
|---|---|---|
| `wrappers.dfy` | `Wrappers` | `Option` and `Result` |
| `parsing.dfy` | `Parsing` | Rust's `str::parse` for `i32`, `u16` and `bool`, with a decimal rendering as its round-trip partner |
| `file_details.dfy`, `text_details.dfy`, `page_items.dfy` | `FileDetailsRecord`, `TextDetailsRecord`, `PageItemsRecord` | the image, text and placement records, and their builders with builder defaults |
| `movable_div.dfy` | `MovableDiv` | the drag/resize controller `MouseMoveComponent` |
| `image_movable_div.dfy` | `ImageMovableDiv` | the first-render sizing of a movable image |
| `settings.dfy` | `Settings` | reading items and the canvas size from the query string |
| `js_funcs.dfy` | `JsFuncs` | the record builders exported to JavaScript |
| `app.dfy` | `AppComponent` | the root component's message reducer and how it renders the item list |
| `add_items.dfy` | `AddItems` | the comma-joining rule of the page script that queues items |

Where the code updates state in place, the model is a class with mutable fields. This covers the
controller's eleven state cells plus its first-render flag, the image component's first-render flag,
and the root component's four fields. Each method is proved equal to a pure function of the old state
and the input, and the properties are proved about those functions. The query-string walk and the
file-name registration are loops with invariants, and the page script's update is a method with
local reassignment. Everything else is functions.

Some behaviour follows the code rather than what one might expect of an image editor.

The controller:

- A drag puts the item at "pointer minus press point". The item's offset before the press is never
  used, so a press and a move back to the press point put the item at (0, 0).
- A resize handle never moves its press point. Each move event therefore applies the whole delta
  since the press once more, and the result depends on how many move events arrive.
- The bottom, left and right edge handles are wired to the left, right and bottom handlers.
- The body's mouse-down guard reads `resizing` twice. Hovering a handle therefore does not stop a
  drag from starting, though it does stop the drag from moving.
- Sizes may become zero or negative. Nothing mirrors the item, locks its aspect ratio or deletes it.

The image component:

- With only a width given, the height is computed as the width times the image's width/height ratio,
  not divided by it. A 400x300 image given width 200 gets height 266, not 150.

Everything else:

- Items read from the query string are not movable unless `movable=true` is given.
- Items built from JavaScript are movable by default.

## Model

| member | source | states |
|---|---|---|
| Parsing.ParseI32 | src/settings.rs:77-105 | `parse::<i32>` succeeds exactly on an optional sign followed by a non-empty run of digits whose value is an `i32`, and then gives that value |
| Parsing.ParseU16 | src/settings.rs:129-133 | `parse::<u16>` succeeds exactly on an optional `+` followed by a non-empty run of digits whose value is at most 65535, and then gives that value |
| Parsing.ParseBool | src/settings.rs:107-111 | `parse::<bool>` gives true exactly on "true" and false exactly on "false" |
| Parsing.FormatNatDigits | src/settings.rs:77-105 | the decimal rendering of n is all digits and has value n |
| Parsing.ParseI32FormatInt | src/settings.rs:77-105 | every `i32` survives rendering then parsing |
| Parsing.ParseU16FormatNat | src/settings.rs:129-133 | every `u16` survives rendering then parsing |
| Parsing.ParseAcceptsPlus | src/settings.rs:77-105 | a leading `+` is accepted by both integer parses |
| Parsing.ParseU16RejectsMinus | src/settings.rs:129-133 | `u16` refuses any `-`, even "-0" |
| Parsing.ParseI32RejectsOverflow | src/settings.rs:77-105 | the rendering of a value beyond the `i32` range, signed or not, is refused instead of wrapped |
| Parsing.ParseU16RejectsOverflow | src/settings.rs:129-133 | the rendering of a value above 65535 is refused instead of wrapped |
| Parsing.ParseI32RejectsStrayChar | src/settings.rs:77-105 | any character other than one leading sign and digits makes the `i32` parse fail |
| Parsing.ParseU16RejectsStrayChar | src/settings.rs:129-133 | any character other than one leading `+` and digits makes the `u16` parse fail |
| TextDetailsRecord.BuildTextDetails | src/text_details.rs:3-15 | a set field is kept; an unset field takes "", 8, "Arial", "black", "white" |
| TextDetailsRecord.DefaultTextDetails | src/text_details.rs:5-14 | the default text record is "" in Arial size 8, black on white |
| PageItemsRecord.BuildPageItems | src/page_items.rs:6-22 | a set field is kept; an unset field takes no text, no file, (0, 0), no size, movable |
| PageItemsRecord.DefaultItem | src/page_items.rs:6-22 | the default item is empty, at the origin, unsized and movable |
| PageItemsRecord.BothContentsRepresentable | src/page_items.rs:8-11 | the record does not itself forbid holding both a text and an image |
| MovableDiv.MouseMoveComponent.constructor | src/generic_movable_div.rs:35-71 | every cell starts at its initial value (z-indices 1, no gesture), so the class invariant `Valid` holds |
| MovableDiv.MouseMoveComponent.Render | src/generic_movable_div.rs:40-56 | first render takes the passed size or 250, and only once |
| MovableDiv.MouseMoveComponent.OnMouseMove | src/generic_movable_div.rs:84-100 | the body move equals `BodyMouseMove`; consistency kept |
| MovableDiv.MouseMoveComponent.OnMouseDown | src/generic_movable_div.rs:103-131 | the body press equals `BodyMouseDown`, reading `resizing` for `on_edge`; consistency kept |
| MovableDiv.MouseMoveComponent.OnMouseUp | src/generic_movable_div.rs:134-145 | ends any gesture and restores the z-index |
| MovableDiv.MouseMoveComponent.OnMouseLeave | src/generic_movable_div.rs:147-158 | ends any gesture and restores the z-index |
| MovableDiv.MouseMoveComponent.OnMouseEnter | src/generic_movable_div.rs:160-171 | ends any gesture and restores the z-index |
| MovableDiv.MouseMoveComponent.OnTopLeftResizerMove | src/generic_movable_div.rs:174-204 | equals the side-by-side resize with left and top sides moving |
| MovableDiv.MouseMoveComponent.OnTopRightResizerMove | src/generic_movable_div.rs:206-236 | equals the side-by-side resize with right and top sides moving |
| MovableDiv.MouseMoveComponent.OnBottomLeftResizerMove | src/generic_movable_div.rs:238-268 | equals the side-by-side resize with left and bottom sides moving |
| MovableDiv.MouseMoveComponent.OnBottomRightResizerMove | src/generic_movable_div.rs:270-300 | equals the side-by-side resize with right and bottom sides moving |
| MovableDiv.MouseMoveComponent.OnTopResizerMove | src/generic_movable_div.rs:302-323 | equals the side-by-side resize with the top side moving |
| MovableDiv.MouseMoveComponent.OnBottomResizerMove | src/generic_movable_div.rs:325-346 | equals the side-by-side resize with the bottom side moving |
| MovableDiv.MouseMoveComponent.OnLeftResizerMove | src/generic_movable_div.rs:348-369 | equals the side-by-side resize with the left side moving |
| MovableDiv.MouseMoveComponent.OnRightResizerMove | src/generic_movable_div.rs:371-392 | equals the side-by-side resize with the right side moving |
| MovableDiv.MouseMoveComponent.OnResizerDivMove | src/generic_movable_div.rs:460-467 | a move over a handle element runs the handler the markup wires to it |
| MovableDiv.MouseMoveComponent.OnResizerClick | src/generic_movable_div.rs:394-406 | a press on any handle stops dragging, starts resizing and records the press point |
| MovableDiv.MouseMoveComponent.OnResizerUnclick | src/generic_movable_div.rs:408-413 | stops resizing |
| MovableDiv.MouseMoveComponent.OnResizerLeave | src/generic_movable_div.rs:415-422 | stops resizing and clears `on_edge` |
| MovableDiv.MouseMoveComponent.OnResizerEnter | src/generic_movable_div.rs:424-431 | stops resizing and sets `on_edge` |
| MovableDiv.FirstLoadSizingOnce | src/generic_movable_div.rs:40-56 | first render gives the passed size or 250x250 and later renders never re-size |
| MovableDiv.BodyMouseDownGuards | src/generic_movable_div.rs:103-120 | a non-primary press or a press while resizing changes nothing; `on_edge` plays no part |
| MovableDiv.BodyMouseDownStartsDrag | src/generic_movable_div.rs:122-130 | an accepted press records the press point, starts dragging, raises z to 1000 with resting 1, and changes nothing else |
| MovableDiv.BodyMouseMoveEffect | src/generic_movable_div.rs:84-100 | a body move changes only the offset, to pointer minus press point, and only while dragging off the handles |
| MovableDiv.EndGestureEffect | src/generic_movable_div.rs:134-171 | up, leave and enter clear both gesture flags and restore the z-index, and nothing else |
| MovableDiv.ResizeMoveSides | src/generic_movable_div.rs:174-392 | a moving left or top side keeps the opposite side fixed; unmoved sides keep their offset; sizes change by the delta since the press; nothing happens unless resizing |
| MovableDiv.ResizeExamples | src/generic_movable_div.rs:174-300 | bottom-right by (+50,+20) gives 150x120 in place; top-left by (+30,+10) gives 70x90 at (40,20) |
| MovableDiv.ResizerFlags | src/generic_movable_div.rs:394-431 | the effects of handle press, release, enter and leave on the gesture flags |
| MovableDiv.MisWiredEdgeHandles | src/generic_movable_div.rs:465-467 | the bottom handle never changes the height, the left handle never moves the offset, and the right handle never changes the width |
| MovableDiv.StepConsistent | src/generic_movable_div.rs:103-431 | no handler makes dragging and resizing both true, or moves the z-index off {1, 1000} |
| MovableDiv.RunConsistent | src/generic_movable_div.rs:103-431 | consistency holds after any event sequence |
| MovableDiv.ReachableConsistent | src/generic_movable_div.rs:59-71 | every state reachable from the initial one is consistent |
| MovableDiv.DragFollowsLastPointer | src/generic_movable_div.rs:84-100 | during a drag, a run of moves leaves the item at the last pointer minus press point, all else unchanged |
| MovableDiv.OnEdgeFreezesDrag | src/generic_movable_div.rs:85-87 | while a handle is hovered, body moves change nothing |
| MovableDiv.PressThenMoves | src/generic_movable_div.rs:84-131 | a primary press then moves leave the item dragging at last pointer minus press point, at the same size |
| MovableDiv.DragGesture | src/generic_movable_div.rs:84-145 | press, moves and release end at last pointer minus press point, at the same size, idle and at rest |
| MovableDiv.ZeroDeltaDragMovesToOrigin | src/generic_movable_div.rs:95-99 | a drag that returns to its press point puts the item at (0, 0) |
| MovableDiv.ResizeMovesAccumulate | src/generic_movable_div.rs:182-203 | moves on one handle change the size by the sum of the deltas since the press, each move counting again |
| MovableDiv.RepeatedMoveDoublesDelta | src/generic_movable_div.rs:278-299 | two moves to the same point on the bottom-right handle apply the delta twice |
| ImageMovableDiv.TruncDivIsTruncation | src/image_movable_div.rs:64-70 | the quotient used for `as i32` rounds toward zero |
| ImageMovableDiv.SaturateI32 | src/image_movable_div.rs:65-70 | `as i32` gives an `i32`: the value itself when it is in range, `i32::MIN` below the range and `i32::MAX` above it |
| ImageMovableDiv.ScaleByImageRatio | src/image_movable_div.rs:64-70 | n times the width/height ratio, truncated toward zero and saturated; with a zero image height, the infinity saturates with the sign of n·width and NaN gives 0 |
| ImageMovableDiv.ZeroIsAbsent | src/image_movable_div.rs:45-61 | a passed size of 0 acts as a missing one |
| ImageMovableDiv.InitialSize | src/image_movable_div.rs:42-75 | neither size gives the image's size; both pass through; one derives the other from the width/height ratio |
| ImageMovableDiv.HeightOnlyKeepsShape | src/image_movable_div.rs:59-64 | with only a height, the width is height·width/height of the image truncated toward zero: its magnitude is the floor of the exact ratio and its sign that of the exact ratio |
| ImageMovableDiv.WidthOnlyUsesSameRatio | src/image_movable_div.rs:65-70 | with only a width, the height is width times the same width/height ratio (not its inverse), truncated toward zero, with magnitude and sign as for the height-only case |
| ImageMovableDiv.LandscapeImageExamples | src/image_movable_div.rs:57-72 | on 400x300: no size gives 400x300, height 150 gives 200x150, width 200 gives 200x266 |
| ImageMovableDiv.MovableImageComponent.constructor | src/image_movable_div.rs:36 | the first-render flag starts set |
| ImageMovableDiv.MovableImageComponent.Render | src/image_movable_div.rs:36-78 | the first render forwards the derived size and clears the flag; later renders forward no size |
| ImageMovableDiv.ContainerTakesDerivedSize | src/image_movable_div.rs:74-91 | the container's first render takes exactly the derived size, and later renders keep its size |
| Settings.ReadTextDetails | src/settings.rs:113-167 | text attributes are read at the text counter, each missing one defaulted and `editable` false unless "true" |
| Settings.ReadFileDetails | src/settings.rs:170-204 | image attributes are read at the image counter, the value decoded to bytes, typed "image/png", and sized by probe or 100x100 |
| Settings.BuildQueryItem | src/settings.rs:67-217 | one turn of the walk builds the item for entry i and advances only the counter of its type |
| Settings.ParseQuery | src/settings.rs:24-222 | one item per `type` entry, in order; item k uses the counts of text and image entries before k |
| Settings.QueryItemFields | src/settings.rs:77-216 | position 0 when missing or unparsable; size present iff it parses; movable iff "true"; text iff "text"; image iff "image"; neither for other types |
| Settings.ImageFallbackSize | src/settings.rs:186-204 | a failed probe gives 100x100; the bytes are the decoded value |
| Settings.TextDefaults | src/settings.rs:121-157 | each missing text attribute takes its builder default; a bad font size gives 8; editable iff "true" |
| Settings.CountOfMonotone | src/settings.rs:63-65 | the counters never decrease along the walk |
| Settings.CountersAdvanceOnTheirType | src/settings.rs:169-205 | two entries of the same type read their attributes at different indices |
| Settings.CountersBehindIndex | src/settings.rs:63-67 | the two counters together never pass the walk index |
| Settings.ParseSettingsQuery | src/settings.rs:224-241 | only the first canvas width and height are parsed; a missing one gives no size |
| JsFuncs.BuildItem | src/js_funcs.rs:10-47 | errors in order: undecodable text, undecodable file, no content, both contents; success iff exactly one decodes; position 0 and movable true by default |
| JsFuncs.BuildText | src/js_funcs.rs:49-63 | each missing argument takes the default text record's field |
| JsFuncs.BuildTextIsBuilderDefaulting | src/js_funcs.rs:51-61 | filling fields from the default record equals leaving them unset on the builder |
| JsFuncs.BuildFile | src/js_funcs.rs:65-86 | name, type and bytes are kept; the size is probed, or 100x100 when the probe fails |
| AppComponent.LoadedItem | src/app.rs:68-77 | a loaded file becomes an image item 250 wide, otherwise at builder defaults |
| AppComponent.TextItem | src/app.rs:118-121 | a text becomes a text-only item at builder defaults |
| AppComponent.AddTextMessage | src/app.rs:183-185 | the "Add Text" button sends "Hello, World!" at size 16, otherwise default |
| AppComponent.App.constructor | src/app.rs:57-64 | starts with no readers, no items, first load pending and no canvas size |
| AppComponent.App.Update | src/app.rs:66-135 | each message updates the fields as the reducer says and asks for a re-render |
| AppComponent.UpdateEffects | src/app.rs:66-135 | per message: what is appended, removed or set, and that nothing else changes |
| AppComponent.ItemsOnlyGrow | src/app.rs:77-124 | items are only appended, one per `Loaded`, `Text` or `Item` message |
| AppComponent.ItemMessagesAppend | src/app.rs:122-125 | `Item` messages append exactly their items in order |
| AppComponent.FirstLoadMessages | src/app.rs:138-147 | the first render's messages append the query's items, set the canvas and end the first load |
| AppComponent.LoadsClearReaders | src/app.rs:78 | each `Loaded` removes its name from the pending reads |
| AppComponent.SelectThenLoad | src/app.rs:68-117 | after selecting files and receiving each of them, none of their reads is pending and one item per file was added |
| AppComponent.ViewItem | src/app.rs:216-224 | the image wins over the text; an item with neither renders nothing; the placement is carried over |
| AppComponent.ViewItems | src/app.rs:187-189 | items are rendered newest first |
| AppComponent.NewestDrawnFirst | src/app.rs:188 | appending an item puts its view before all others |
| AddItems.AppendedData | js/add_items.js:9-20 | the item alone if nothing is stored; otherwise the stored text, a comma if it lacks one, then the item; the old text stays a prefix |
| AddItems.AddItem | js/add_items.js:9-20 | the script's step-by-step update equals `AppendedData` |
| AddItems.AddAllJoins | js/add_items.js:9-20 | adding serialized items one by one yields their comma-separated list |

## Left out

- Integer width: handler arithmetic, offsets and sizes are unbounded integers. The `i32` wrap-around
  that extreme pointer coordinates would cause is not modelled. Parsing still enforces the `i32` and
  `u16` ranges.
- ImageMovableDiv.ScaleByImageRatio: the `f32` ratio and product are exact rationals here. The model
  truncates toward zero and saturates as `as i32` does, and a zero image height gives the saturated
  infinite or NaN result. `f32` rounding is not modelled, and it matters even at ordinary sizes: when
  h·w/h' is a whole number, the program's result can be one less than the model's. For example, a
  1292x1213 image given height 1213 gets width 1291 under `f32` arithmetic and 1292 here.
- The usize-to-`i32` casts of probed image sizes are not modelled. The probe is a parameter that
  already returns the size.
- Event bubbling from a handle to the item body, and the framework's deferred state updates. Each
  handler is one atomic update of the current state. `Consistent`, the class invariant
  `MovableDiv.MouseMoveComponent.Valid`, and `StepConsistent`, `RunConsistent` and
  `ReachableConsistent` hold for this atomic model only. In the program the handlers read the values
  captured at render time (src/generic_movable_div.rs:106,118). A press on a handle sets `resizing`
  and then bubbles to the body, whose handler still reads the old `resizing` and sets `dragging`,
  so both flags can end up set.
- Rendering, markup and CSS: the style strings are not modelled. In those strings the width is
  written into `height:` and the height into `max-width:`.
- The `Files` message's file reads: the model only registers the selected names. `upload_files` and
  the reader callbacks that send `Loaded` are left out, so `Loaded` messages are inputs.
- The values stored under each pending-read name. Only the set of names is modelled.
- Selecting a name that is already pending replaces its earlier reader in the map (`HashMap::insert`,
  src/app.rs:114), and the dropped reader's `Loaded` never arrives. A set of names does not show this.
  AppComponent.SelectThenLoad assumes one `Loaded` per listed name, which the program cannot deliver
  when a selection repeats a name that is still pending.
- DOM access: the app's read and clearing of the extra-data attribute, the JSON decoding of it, the
  script's attribute read and write, and the button press. The stored attribute is a parameter and
  the new value is a result.
- Base64 decoding, image-size probing and JSON/`serde` (de)serialization are function parameters or
  decoded inputs (`JsArg`). Serializing results back into JavaScript values is not modelled.
- JsFuncs.BuildText: `build()` errors cannot occur once every field is set, so that error path is
  not modelled.
- TextDetailsRecord.BuildTextDetails: the builder default for `editable` is a parameter. The field is
  read by the query and JavaScript builders, but no default for it is declared in
  src/text_details.rs.
- Screenshot capture, the query-string and wasm-export forwarders, and the renderer bootstrap are not
  part of this model.
- The static image and text components, the text box components and the canvas component are
  presentational and not part of this model.
