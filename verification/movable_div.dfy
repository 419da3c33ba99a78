/**
 * The drag/resize controller behind every movable item (`MouseMoveComponent`).
 *
 * Eleven state cells, plus the first-render flag, are rewritten by event
 * handlers on the item's body and on its eight resize handles. Each handler
 * is modelled as one atomic update of the current state; the pure functions
 * on `DivState` below say what each handler does, and the class
 * `MouseMoveComponent` holds the cells and updates them in place.
 *
 * Quirks kept as the code has them:
 *  - the body's mouse-down guard reads `resizing` twice (its `on_edge` is a
 *    second handle on `resizing`), so hovering a handle does not stop a drag
 *    from starting;
 *  - a drag sets the offset to "pointer minus press point", not "old offset
 *    plus delta";
 *  - resize handlers never move the press point, so every resize move applies
 *    the whole delta since the press to the current size once more;
 *  - three edge handles run another edge's handler (see `MoveHandlerOf`);
 *  - nothing keeps width or height from going negative.
 */
module MovableDiv {
  import opened Wrappers

  const DefaultWidth: int := 250
  const DefaultHeight: int := 250
  const RestingZIndex: int := 1
  const ForegroundZIndex: int := 1000
  const PrimaryButton: int := 0

  /** The parts of a DOM mouse event the handlers read. */
  datatype MouseEvent = MouseEvent(clientX: int, clientY: int, button: int)

  /** The controller's state cells. `mousex`/`mousey` are the item's left/top offset. */
  datatype DivState = DivState(
    firstLoad: bool,
    width: int,
    height: int,
    mousex: int,
    mousey: int,
    clickx: int,
    clicky: int,
    dragging: bool,
    resizing: bool,
    onEdge: bool,
    zIndex: int,
    oldZIndex: int)

  /** The value every cell starts with, before the first render sizes the item. */
  function InitialState(): DivState {
    DivState(true, 0, 0, 0, 0, 0, 0, false, false, false, RestingZIndex, RestingZIndex)
  }

  /** First render: take the passed size, or 250 for a missing one; only once. */
  function FirstLoadSizing(s: DivState, passedWidth: Option<int>, passedHeight: Option<int>): DivState {
    if !s.firstLoad then s
    else s.(width := passedWidth.GetOr(DefaultWidth),
            height := passedHeight.GetOr(DefaultHeight),
            firstLoad := false)
  }

  /** Body `onmousemove`: while dragging (and not on a handle, not resizing) place the item at pointer minus press point. */
  function BodyMouseMove(s: DivState, ev: MouseEvent): DivState {
    if !s.dragging || s.onEdge || s.resizing then s
    else s.(mousex := ev.clientX - s.clickx, mousey := ev.clientY - s.clicky)
  }

  /** Body `onmousedown`: a primary press while not resizing starts a drag and raises the item. */
  function BodyMouseDown(s: DivState, ev: MouseEvent): DivState {
    var onEdge := s.resizing;
    if ev.button != PrimaryButton then s
    else if s.resizing || onEdge then s
    else s.(clickx := ev.clientX, clicky := ev.clientY, dragging := true,
            oldZIndex := RestingZIndex, zIndex := ForegroundZIndex)
  }

  /** Body `onmouseup`, `onmouseleave` and `onmouseenter` (one shared body): end any gesture. */
  function EndGesture(s: DivState): DivState {
    s.(dragging := false, resizing := false, zIndex := s.oldZIndex)
  }

  /** The eight resize move handlers, by the side(s) they move. */
  datatype Direction = TopLeft | TopRight | BottomLeft | BottomRight | Top | Bottom | Left | Right {
    predicate MovesLeftSide() { TopLeft? || BottomLeft? || Left? }
    predicate MovesRightSide() { TopRight? || BottomRight? || Right? }
    predicate MovesTopSide() { TopLeft? || TopRight? || Top? }
    predicate MovesBottomSide() { BottomLeft? || BottomRight? || Bottom? }
  }

  /**
   * A resize move in direction `d`, stated side by side: the delta since the
   * press is added to the offset and taken from the size on a moving
   * left/top side, and added to the size on a moving right/bottom side.
   */
  function ResizeMove(s: DivState, d: Direction, ev: MouseEvent): DivState {
    if !s.resizing then s
    else
      var dx := ev.clientX - s.clickx;
      var dy := ev.clientY - s.clicky;
      s.(mousex := if d.MovesLeftSide() then s.mousex + dx else s.mousex,
         width := if d.MovesLeftSide() then s.width - dx
                  else if d.MovesRightSide() then s.width + dx
                  else s.width,
         mousey := if d.MovesTopSide() then s.mousey + dy else s.mousey,
         height := if d.MovesTopSide() then s.height - dy
                   else if d.MovesBottomSide() then s.height + dy
                   else s.height)
  }

  /** `on_resizer_click` (any button): start resizing from this press point. */
  function ResizerDown(s: DivState, ev: MouseEvent): DivState {
    s.(dragging := false, resizing := true, clickx := ev.clientX, clicky := ev.clientY)
  }

  /** `on_resizer_unclick`. */
  function ResizerUp(s: DivState): DivState {
    s.(resizing := false)
  }

  /** `on_resizer_enter`. */
  function ResizerEnter(s: DivState): DivState {
    s.(resizing := false, onEdge := true)
  }

  /** `on_resizer_leave`. */
  function ResizerLeave(s: DivState): DivState {
    s.(resizing := false, onEdge := false)
  }

  /** The eight handle elements, named by where they sit. */
  datatype ResizerDiv = TopLeftDiv | TopRightDiv | BottomLeftDiv | BottomRightDiv
                      | TopDiv | BottomDiv | LeftDiv | RightDiv

  /** Which move handler each handle element is wired to. */
  function MoveHandlerOf(div: ResizerDiv): Direction {
    match div
    case TopLeftDiv => TopLeft
    case TopRightDiv => TopRight
    case BottomLeftDiv => BottomLeft
    case BottomRightDiv => BottomRight
    case TopDiv => Top
    case BottomDiv => Left
    case LeftDiv => Right
    case RightDiv => Bottom
  }

  /** Every input the controller reacts to. */
  datatype Event =
    | Render(passedWidth: Option<int>, passedHeight: Option<int>)
    | BodyMove(ev: MouseEvent)
    | BodyDown(ev: MouseEvent)
    | BodyUp
    | BodyLeave
    | BodyEnter
    | ResizerMove(div: ResizerDiv, ev: MouseEvent)
    | ResizerPress(ev: MouseEvent)
    | ResizerRelease
    | ResizerHoverIn
    | ResizerHoverOut

  function Step(s: DivState, e: Event): DivState {
    match e
    case Render(w, h) => FirstLoadSizing(s, w, h)
    case BodyMove(ev) => BodyMouseMove(s, ev)
    case BodyDown(ev) => BodyMouseDown(s, ev)
    case BodyUp => EndGesture(s)
    case BodyLeave => EndGesture(s)
    case BodyEnter => EndGesture(s)
    case ResizerMove(div, ev) => ResizeMove(s, MoveHandlerOf(div), ev)
    case ResizerPress(ev) => ResizerDown(s, ev)
    case ResizerRelease => ResizerUp(s)
    case ResizerHoverIn => ResizerEnter(s)
    case ResizerHoverOut => ResizerLeave(s)
  }

  /** The state after a sequence of events, in order. */
  function Run(s: DivState, es: seq<Event>): DivState
    decreases |es|
  {
    if es == [] then s else Run(Step(s, es[0]), es[1..])
  }

  /**
   * What every reachable state satisfies: never dragging and resizing at
   * once, the resting z-index is 1, and the z-index is resting or raised.
   */
  predicate Consistent(s: DivState) {
    && !(s.dragging && s.resizing)
    && s.oldZIndex == RestingZIndex
    && (s.zIndex == RestingZIndex || s.zIndex == ForegroundZIndex)
  }

  // ---------------------------------------------------------------------
  // Properties of single handlers

  /** First render takes the passed size, else 250 each, and never re-sizes afterwards. */
  lemma FirstLoadSizingOnce(s: DivState, w: Option<int>, h: Option<int>, w': Option<int>, h': Option<int>)
    requires s.firstLoad
    ensures var t := FirstLoadSizing(s, w, h);
            && t.width == (if w.Some? then w.value else 250)
            && t.height == (if h.Some? then h.value else 250)
            && !t.firstLoad
            && FirstLoadSizing(t, w', h') == t
  {
  }

  /** A non-primary press, or a press while resizing, changes nothing; `onEdge` plays no part. */
  lemma BodyMouseDownGuards(s: DivState, ev: MouseEvent, b: bool)
    ensures ev.button != PrimaryButton ==> BodyMouseDown(s, ev) == s
    ensures s.resizing ==> BodyMouseDown(s, ev) == s
    ensures BodyMouseDown(s.(onEdge := b), ev) == BodyMouseDown(s, ev).(onEdge := b)
  {
  }

  /** A primary press while not resizing records the press point, starts a drag and raises the item; nothing else changes. */
  lemma BodyMouseDownStartsDrag(s: DivState, ev: MouseEvent)
    requires ev.button == PrimaryButton && !s.resizing
    ensures var t := BodyMouseDown(s, ev);
            && t.clickx == ev.clientX && t.clicky == ev.clientY
            && t.dragging
            && t.oldZIndex == 1 && t.zIndex == 1000
            && t.(clickx := s.clickx, clicky := s.clicky, dragging := s.dragging,
                  oldZIndex := s.oldZIndex, zIndex := s.zIndex) == s
  {
  }

  /** A body move changes only the offset, and only while dragging off the handles and not resizing. */
  lemma BodyMouseMoveEffect(s: DivState, ev: MouseEvent)
    ensures var t := BodyMouseMove(s, ev);
            && (!s.dragging || s.onEdge || s.resizing ==> t == s)
            && (s.dragging && !s.onEdge && !s.resizing ==>
                  t.mousex == ev.clientX - s.clickx && t.mousey == ev.clientY - s.clicky)
            && t.(mousex := s.mousex, mousey := s.mousey) == s
  {
  }

  /** Body up, leave and enter clear both gesture flags and restore the resting z-index; nothing else changes. */
  lemma EndGestureEffect(s: DivState)
    ensures var t := EndGesture(s);
            && !t.dragging && !t.resizing && t.zIndex == s.oldZIndex
            && t.(dragging := s.dragging, resizing := s.resizing, zIndex := s.zIndex) == s
  {
  }

  /**
   * A resize move is a no-op unless resizing. Otherwise a moving left side
   * keeps the right side `mousex + width` fixed, a moving top side keeps the
   * bottom side `mousey + height` fixed, the offset on an axis whose
   * left/top side does not move is unchanged, and the change is the pointer
   * delta since the press point.
   */
  lemma ResizeMoveSides(s: DivState, d: Direction, ev: MouseEvent)
    ensures !s.resizing ==> ResizeMove(s, d, ev) == s
    ensures var t := ResizeMove(s, d, ev);
            var dx, dy := ev.clientX - s.clickx, ev.clientY - s.clicky;
            && (d.MovesLeftSide() ==> t.mousex + t.width == s.mousex + s.width)
            && (d.MovesTopSide() ==> t.mousey + t.height == s.mousey + s.height)
            && (!d.MovesLeftSide() ==> t.mousex == s.mousex)
            && (!d.MovesTopSide() ==> t.mousey == s.mousey)
            && (s.resizing && d.MovesRightSide() ==> t.width == s.width + dx)
            && (s.resizing && d.MovesBottomSide() ==> t.height == s.height + dy)
            && (s.resizing && d.MovesLeftSide() ==> t.mousex == s.mousex + dx)
            && (s.resizing && d.MovesTopSide() ==> t.mousey == s.mousey + dy)
            && (!d.MovesLeftSide() && !d.MovesRightSide() ==> t.width == s.width)
            && (!d.MovesTopSide() && !d.MovesBottomSide() ==> t.height == s.height)
            && t.(mousex := s.mousex, mousey := s.mousey, width := s.width, height := s.height) == s
  {
  }

  /** The two worked examples: bottom-right by (+50, +20) and top-left by (+30, +10). */
  lemma ResizeExamples(s: DivState)
    requires s.resizing && s.clickx == 500 && s.clicky == 500
    ensures var t := ResizeMove(s.(width := 100, height := 100), BottomRight, MouseEvent(550, 520, 0));
            t.width == 150 && t.height == 120 && t.mousex == s.mousex && t.mousey == s.mousey
    ensures var t := ResizeMove(s.(mousex := 10, mousey := 10, width := 100, height := 100),
                                TopLeft, MouseEvent(530, 510, 0));
            t.mousex == 40 && t.mousey == 20 && t.width == 70 && t.height == 90
  {
  }

  /** Handle press, enter and leave. */
  lemma ResizerFlags(s: DivState, ev: MouseEvent)
    ensures var t := ResizerDown(s, ev);
            t.resizing && !t.dragging && t.clickx == ev.clientX && t.clicky == ev.clientY
    ensures ResizerEnter(s).onEdge && !ResizerEnter(s).resizing
    ensures !ResizerLeave(s).onEdge && !ResizerLeave(s).resizing
    ensures !ResizerUp(s).resizing && ResizerUp(s).onEdge == s.onEdge
  {
  }

  /**
   * The bottom handle runs the left handler (it never changes the height),
   * the left handle runs the right handler (it never moves the offset), and
   * the right handle runs the bottom handler (it never changes the width).
   */
  lemma MisWiredEdgeHandles(s: DivState, ev: MouseEvent)
    ensures MoveHandlerOf(BottomDiv) == Left && MoveHandlerOf(LeftDiv) == Right
    ensures MoveHandlerOf(RightDiv) == Bottom
    ensures ResizeMove(s, MoveHandlerOf(BottomDiv), ev).height == s.height
    ensures ResizeMove(s, MoveHandlerOf(LeftDiv), ev).mousex == s.mousex
    ensures ResizeMove(s, MoveHandlerOf(RightDiv), ev).width == s.width
  {
  }

  /** Every handler keeps `Consistent`. */
  lemma StepConsistent(s: DivState, e: Event)
    requires Consistent(s)
    ensures Consistent(Step(s, e))
  {
  }

  // ---------------------------------------------------------------------
  // Properties of event sequences

  lemma {:induction false} RunAppend(s: DivState, a: seq<Event>, b: seq<Event>)
    ensures Run(s, a + b) == Run(Run(s, a), b)
    decreases |a|
  {
    if a == [] {
      assert a + b == b;
    } else {
      assert (a + b)[0] == a[0];
      assert (a + b)[1..] == a[1..] + b;
      RunAppend(Step(s, a[0]), a[1..], b);
    }
  }

  lemma RunSingle(s: DivState, e: Event)
    ensures Run(s, [e]) == Step(s, e)
  {
  }

  lemma RunThenEvent(s: DivState, a: seq<Event>, e: Event)
    ensures Run(s, a + [e]) == Step(Run(s, a), e)
  {
    RunAppend(s, a, [e]);
    RunSingle(Run(s, a), e);
  }

  /** Every state reachable from the initial one is consistent. */
  lemma {:induction false} RunConsistent(s: DivState, es: seq<Event>)
    requires Consistent(s)
    ensures Consistent(Run(s, es))
    decreases |es|
  {
    if es != [] {
      StepConsistent(s, es[0]);
      RunConsistent(Step(s, es[0]), es[1..]);
    }
  }

  lemma ReachableConsistent(es: seq<Event>)
    ensures Consistent(Run(InitialState(), es))
  {
    RunConsistent(InitialState(), es);
  }

  /** One body move event per pointer position. */
  function BodyMoves(evs: seq<MouseEvent>): seq<Event> {
    seq(|evs|, k requires 0 <= k < |evs| => BodyMove(evs[k]))
  }

  /** One move event on handle `div` per pointer position. */
  function ResizerMoves(div: ResizerDiv, evs: seq<MouseEvent>): seq<Event> {
    seq(|evs|, k requires 0 <= k < |evs| => ResizerMove(div, evs[k]))
  }

  /**
   * While dragging, a run of body moves leaves the item at the last pointer
   * position minus the press point, whatever the moves in between; the size
   * and every other cell are unchanged.
   */
  lemma {:induction false} DragFollowsLastPointer(s: DivState, evs: seq<MouseEvent>)
    requires s.dragging && !s.onEdge && !s.resizing
    requires evs != []
    ensures var t := Run(s, BodyMoves(evs));
            && t.mousex == evs[|evs| - 1].clientX - s.clickx
            && t.mousey == evs[|evs| - 1].clientY - s.clicky
            && t.(mousex := s.mousex, mousey := s.mousey) == s
    decreases |evs|
  {
    var s' := BodyMouseMove(s, evs[0]);
    assert BodyMoves(evs)[1..] == BodyMoves(evs[1..]);
    if |evs| > 1 {
      DragFollowsLastPointer(s', evs[1..]);
    }
  }

  /** While a handle is hovered, body moves do nothing, although a press still starts a drag. */
  lemma {:induction false} OnEdgeFreezesDrag(s: DivState, evs: seq<MouseEvent>)
    requires s.onEdge
    ensures Run(s, BodyMoves(evs)) == s
    decreases |evs|
  {
    if evs != [] {
      assert BodyMoves(evs)[1..] == BodyMoves(evs[1..]);
      OnEdgeFreezesDrag(s, evs[1..]);
    }
  }

  /** A primary press at `p` on an idle item, then body moves: the item follows the last pointer. */
  lemma PressThenMoves(s: DivState, p: MouseEvent, evs: seq<MouseEvent>)
    requires !s.resizing && !s.onEdge
    requires p.button == PrimaryButton && evs != []
    ensures var t := Run(s, [BodyDown(p)] + BodyMoves(evs));
            && t.mousex == evs[|evs| - 1].clientX - p.clientX
            && t.mousey == evs[|evs| - 1].clientY - p.clientY
            && t.width == s.width && t.height == s.height
            && t.dragging && !t.resizing && t.oldZIndex == RestingZIndex
  {
    var s1 := BodyMouseDown(s, p);
    assert s1.dragging && !s1.onEdge && !s1.resizing;
    RunSingle(s, BodyDown(p));
    RunAppend(s, [BodyDown(p)], BodyMoves(evs));
    DragFollowsLastPointer(s1, evs);
  }

  /**
   * A complete drag from an idle item: primary press at `p`, body moves,
   * release. The item ends at (last pointer - p), the size is unchanged, no
   * gesture is active and the z-index is back at rest. The offset the item
   * had before the press is never consulted.
   */
  lemma DragGesture(s: DivState, p: MouseEvent, evs: seq<MouseEvent>)
    requires !s.resizing && !s.onEdge
    requires p.button == PrimaryButton && evs != []
    ensures var t := Run(s, [BodyDown(p)] + BodyMoves(evs) + [BodyUp]);
            && t.mousex == evs[|evs| - 1].clientX - p.clientX
            && t.mousey == evs[|evs| - 1].clientY - p.clientY
            && t.width == s.width && t.height == s.height
            && !t.dragging && !t.resizing && t.zIndex == RestingZIndex
  {
    PressThenMoves(s, p, evs);
    RunThenEvent(s, [BodyDown(p)] + BodyMoves(evs), BodyUp);
  }

  /** Pressing and releasing after a move back to the press point puts the item at the origin. */
  lemma ZeroDeltaDragMovesToOrigin(s: DivState, p: MouseEvent)
    requires !s.resizing && !s.onEdge && p.button == PrimaryButton
    ensures var t := Run(s, [BodyDown(p), BodyMove(p), BodyUp]);
            t.mousex == 0 && t.mousey == 0 && t.width == s.width && t.height == s.height
  {
    DragGesture(s, p, [p]);
    assert [BodyDown(p)] + BodyMoves([p]) + [BodyUp] == [BodyDown(p), BodyMove(p), BodyUp];
  }

  /** Horizontal sign of a direction's width change per unit of pointer delta. */
  function WidthSign(d: Direction): int {
    if d.MovesLeftSide() then -1 else if d.MovesRightSide() then 1 else 0
  }

  function HeightSign(d: Direction): int {
    if d.MovesTopSide() then -1 else if d.MovesBottomSide() then 1 else 0
  }

  /** Sum over the moves of each pointer's horizontal distance from `cx`. */
  function SumDx(evs: seq<MouseEvent>, cx: int): int {
    if evs == [] then 0 else (evs[0].clientX - cx) + SumDx(evs[1..], cx)
  }

  function SumDy(evs: seq<MouseEvent>, cy: int): int {
    if evs == [] then 0 else (evs[0].clientY - cy) + SumDy(evs[1..], cy)
  }

  /**
   * While resizing, a run of moves on one handle applies the full delta
   * since the press point once per move: the size changes by the SUM of
   * those deltas, and a moving left/top side still keeps the opposite side
   * fixed. The result therefore depends on how many move events arrive.
   */
  lemma {:induction false} ResizeMovesAccumulate(s: DivState, div: ResizerDiv, evs: seq<MouseEvent>)
    requires s.resizing
    ensures var d := MoveHandlerOf(div);
            var t := Run(s, ResizerMoves(div, evs));
            && t.width == s.width + WidthSign(d) * SumDx(evs, s.clickx)
            && t.height == s.height + HeightSign(d) * SumDy(evs, s.clicky)
            && t.mousex + t.width == s.mousex + s.width + (if d.MovesRightSide() then SumDx(evs, s.clickx) else 0)
            && t.mousey + t.height == s.mousey + s.height + (if d.MovesBottomSide() then SumDy(evs, s.clicky) else 0)
            && t.(mousex := s.mousex, mousey := s.mousey, width := s.width, height := s.height) == s
    decreases |evs|
  {
    if evs != [] {
      var s' := ResizeMove(s, MoveHandlerOf(div), evs[0]);
      assert ResizerMoves(div, evs)[1..] == ResizerMoves(div, evs[1..]);
      ResizeMovesAccumulate(s', div, evs[1..]);
    }
  }

  /** Two moves to the same point on the bottom-right handle apply the delta twice. */
  lemma RepeatedMoveDoublesDelta(s: DivState, ev: MouseEvent)
    requires s.resizing
    ensures var t := Run(s, ResizerMoves(BottomRightDiv, [ev, ev]));
            && t.width == s.width + 2 * (ev.clientX - s.clickx)
            && t.height == s.height + 2 * (ev.clientY - s.clicky)
  {
    ResizeMovesAccumulate(s, BottomRightDiv, [ev, ev]);
    assert [ev, ev][1..] == [ev];
    assert [ev][1..] == [];
    assert SumDx([ev], s.clickx) == ev.clientX - s.clickx;
    assert SumDy([ev], s.clicky) == ev.clientY - s.clicky;
    assert SumDx([ev, ev], s.clickx) == 2 * (ev.clientX - s.clickx);
    assert SumDy([ev, ev], s.clicky) == 2 * (ev.clientY - s.clicky);
  }

  // ---------------------------------------------------------------------
  // The component, with its cells updated in place

  class MouseMoveComponent {
    var firstLoad: bool
    var width: int
    var height: int
    var mousex: int
    var mousey: int
    var clickx: int
    var clicky: int
    var dragging: bool
    var resizing: bool
    var onEdge: bool
    var zIndex: int
    var oldZIndex: int

    function State(): DivState
      reads this
    {
      DivState(firstLoad, width, height, mousex, mousey, clickx, clicky,
               dragging, resizing, onEdge, zIndex, oldZIndex)
    }

    /** The class invariant: the flags never claim a drag and a resize at once. */
    ghost predicate Valid()
      reads this
    {
      Consistent(State())
    }

    constructor ()
      ensures State() == InitialState() && Valid()
    {
      firstLoad := true;
      width, height := 0, 0;
      mousex, mousey := 0, 0;
      clickx, clicky := 0, 0;
      dragging, resizing, onEdge := false, false, false;
      zIndex, oldZIndex := RestingZIndex, RestingZIndex;
    }

    /** The sizing done while rendering, on first render only. */
    method Render(passedWidth: Option<int>, passedHeight: Option<int>)
      requires Valid()
      modifies this
      ensures State() == FirstLoadSizing(old(State()), passedWidth, passedHeight)
      ensures Valid()
    {
      if firstLoad {
        var tmpWidth := DefaultWidth;
        var tmpHeight := DefaultHeight;
        if passedWidth.Some? {
          tmpWidth := passedWidth.value;
        }
        if passedHeight.Some? {
          tmpHeight := passedHeight.value;
        }
        width := tmpWidth;
        height := tmpHeight;
        firstLoad := false;
      }
    }

    method OnMouseMove(event: MouseEvent)
      requires Valid()
      modifies this
      ensures State() == BodyMouseMove(old(State()), event)
      ensures Valid()
    {
      if !dragging || onEdge || resizing {
        return;
      }
      var x := event.clientX;
      var y := event.clientY;
      mousex := x - clickx;
      mousey := y - clicky;
    }

    method OnMouseDown(event: MouseEvent)
      requires Valid()
      modifies this
      ensures State() == BodyMouseDown(old(State()), event)
      ensures Valid()
    {
      var onEdgeCell := resizing;
      if event.button != PrimaryButton {
        return;
      }
      if resizing || onEdgeCell {
        return;
      }
      clickx := event.clientX;
      clicky := event.clientY;
      dragging := true;
      oldZIndex := RestingZIndex;
      zIndex := ForegroundZIndex;
    }

    method OnMouseUp()
      requires Valid()
      modifies this
      ensures State() == EndGesture(old(State()))
      ensures Valid()
    {
      dragging := false;
      resizing := false;
      zIndex := oldZIndex;
    }

    method OnMouseLeave()
      requires Valid()
      modifies this
      ensures State() == EndGesture(old(State()))
      ensures Valid()
    {
      dragging := false;
      resizing := false;
      zIndex := oldZIndex;
    }

    method OnMouseEnter()
      requires Valid()
      modifies this
      ensures State() == EndGesture(old(State()))
      ensures Valid()
    {
      dragging := false;
      resizing := false;
      zIndex := oldZIndex;
    }

    method OnTopLeftResizerMove(event: MouseEvent)
      requires Valid()
      modifies this
      ensures State() == ResizeMove(old(State()), TopLeft, event)
      ensures Valid()
    {
      if !resizing {
        return;
      }
      var x1 := event.clientX - clickx;
      var y1 := event.clientY - clicky;
      var newWidth := width - x1;
      var newHeight := height - y1;
      var x2 := mousex + x1;
      var y2 := mousey + y1;
      mousex, mousey := x2, y2;
      width, height := newWidth, newHeight;
    }

    method OnTopRightResizerMove(event: MouseEvent)
      requires Valid()
      modifies this
      ensures State() == ResizeMove(old(State()), TopRight, event)
      ensures Valid()
    {
      if !resizing {
        return;
      }
      var x1 := event.clientX - clickx;
      var y1 := event.clientY - clicky;
      var newWidth := width + x1;
      var newHeight := height - y1;
      var x2 := mousex;
      var y2 := mousey + y1;
      mousex, mousey := x2, y2;
      width, height := newWidth, newHeight;
    }

    method OnBottomLeftResizerMove(event: MouseEvent)
      requires Valid()
      modifies this
      ensures State() == ResizeMove(old(State()), BottomLeft, event)
      ensures Valid()
    {
      if !resizing {
        return;
      }
      var x1 := event.clientX - clickx;
      var y1 := event.clientY - clicky;
      var newWidth := width - x1;
      var newHeight := height + y1;
      var x2 := mousex + x1;
      var y2 := mousey;
      mousex, mousey := x2, y2;
      width, height := newWidth, newHeight;
    }

    method OnBottomRightResizerMove(event: MouseEvent)
      requires Valid()
      modifies this
      ensures State() == ResizeMove(old(State()), BottomRight, event)
      ensures Valid()
    {
      if !resizing {
        return;
      }
      var x1 := event.clientX - clickx;
      var y1 := event.clientY - clicky;
      var newWidth := width + x1;
      var newHeight := height + y1;
      var x2 := mousex;
      var y2 := mousey;
      mousex, mousey := x2, y2;
      width, height := newWidth, newHeight;
    }

    method OnTopResizerMove(event: MouseEvent)
      requires Valid()
      modifies this
      ensures State() == ResizeMove(old(State()), Top, event)
      ensures Valid()
    {
      if !resizing {
        return;
      }
      var y1 := event.clientY - clicky;
      var newHeight := height - y1;
      var y2 := mousey + y1;
      mousey := y2;
      height := newHeight;
    }

    method OnBottomResizerMove(event: MouseEvent)
      requires Valid()
      modifies this
      ensures State() == ResizeMove(old(State()), Bottom, event)
      ensures Valid()
    {
      if !resizing {
        return;
      }
      var y1 := event.clientY - clicky;
      var newHeight := height + y1;
      var y2 := mousey;
      mousey := y2;
      height := newHeight;
    }

    method OnLeftResizerMove(event: MouseEvent)
      requires Valid()
      modifies this
      ensures State() == ResizeMove(old(State()), Left, event)
      ensures Valid()
    {
      if !resizing {
        return;
      }
      var x1 := event.clientX - clickx;
      var newWidth := width - x1;
      var x2 := mousex + x1;
      mousex := x2;
      width := newWidth;
    }

    method OnRightResizerMove(event: MouseEvent)
      requires Valid()
      modifies this
      ensures State() == ResizeMove(old(State()), Right, event)
      ensures Valid()
    {
      if !resizing {
        return;
      }
      var x1 := event.clientX - clickx;
      var newWidth := width + x1;
      var x2 := mousex;
      mousex := x2;
      width := newWidth;
    }

    /** A move over one of the eight handle elements, routed as the markup wires it. */
    method OnResizerDivMove(div: ResizerDiv, event: MouseEvent)
      requires Valid()
      modifies this
      ensures State() == ResizeMove(old(State()), MoveHandlerOf(div), event)
      ensures Valid()
    {
      match div
      case TopLeftDiv => OnTopLeftResizerMove(event);
      case TopRightDiv => OnTopRightResizerMove(event);
      case BottomLeftDiv => OnBottomLeftResizerMove(event);
      case BottomRightDiv => OnBottomRightResizerMove(event);
      case TopDiv => OnTopResizerMove(event);
      case BottomDiv => OnLeftResizerMove(event);
      case LeftDiv => OnRightResizerMove(event);
      case RightDiv => OnBottomResizerMove(event);
    }

    method OnResizerClick(event: MouseEvent)
      requires Valid()
      modifies this
      ensures State() == ResizerDown(old(State()), event)
      ensures Valid()
    {
      dragging := false;
      resizing := true;
      clickx := event.clientX;
      clicky := event.clientY;
    }

    method OnResizerUnclick()
      requires Valid()
      modifies this
      ensures State() == ResizerUp(old(State()))
      ensures Valid()
    {
      resizing := false;
    }

    method OnResizerLeave()
      requires Valid()
      modifies this
      ensures State() == ResizerLeave(old(State()))
      ensures Valid()
    {
      resizing := false;
      onEdge := false;
    }

    method OnResizerEnter()
      requires Valid()
      modifies this
      ensures State() == ResizerEnter(old(State()))
      ensures Valid()
    {
      resizing := false;
      onEdge := true;
    }
  }
}
