/**
 * The first-render size of a movable image item (`MovableImageComponent`).
 *
 * A passed width or height of 0 counts as absent. With neither, the image's
 * own size is used; with only one, the other is derived by multiplying the
 * given one by the image's width-to-height ratio (in both branches); with
 * both, they pass through. The derivation runs on the first render only;
 * later renders forward no size at all.
 *
 * The code computes the ratio in 32-bit floating point and casts back with
 * `as i32`. Here the product is exact and rational, truncated toward zero and
 * saturated to the `i32` range as `as i32` does; a zero image height gives the
 * cast of an infinite (saturated) or NaN (zero) product.
 */
module ImageMovableDiv {
  import opened Wrappers
  import opened FileDetailsRecord
  import Parsing
  import MovableDiv

  function Abs(n: int): nat {
    if n < 0 then -n else n
  }

  /** Integer division rounding toward zero, as a float-to-int cast truncates. */
  function TruncDiv(a: int, d: int): int
    requires d != 0
  {
    if (a >= 0) == (d > 0) then Abs(a) / Abs(d) else -(Abs(a) / Abs(d))
  }

  lemma DivBounds(n: nat, d: nat)
    requires d > 0
    ensures (n / d) * d <= n < (n / d + 1) * d
  {
  }

  lemma TruncDivMagnitude(a: int, d: int)
    requires d != 0
    ensures Abs(TruncDiv(a, d)) == Abs(a) / Abs(d)
  {
  }

  lemma TruncDivSign(a: int, d: int)
    requires d != 0
    ensures TruncDiv(a, d) > 0 ==> (a > 0) == (d > 0)
    ensures TruncDiv(a, d) < 0 ==> (a > 0) != (d > 0)
  {
    var m := Abs(a) / Abs(d);
    if a == 0 {
      assert m == 0;
      assert TruncDiv(a, d) == 0;
    } else if (a > 0) == (d > 0) {
      assert TruncDiv(a, d) == m;
    } else {
      assert TruncDiv(a, d) == -m;
    }
  }

  /** `TruncDiv` is the quotient truncated toward zero: its magnitude is the floor of |a|/|d| and its sign that of a/d. */
  lemma TruncDivIsTruncation(a: int, d: int)
    requires d != 0
    ensures var q := TruncDiv(a, d);
            && Abs(q) * Abs(d) <= Abs(a) < (Abs(q) + 1) * Abs(d)
            && (q > 0 ==> (a > 0) == (d > 0))
            && (q < 0 ==> (a > 0) != (d > 0))
  {
    TruncDivMagnitude(a, d);
    TruncDivSign(a, d);
    var q, n, e := TruncDiv(a, d), Abs(a), Abs(d);
    DivBounds(n, e);
    assert Abs(q) == n / e;
  }

  /** `as i32` on a finite value: out-of-range values saturate. */
  function SaturateI32(n: int): (r: int)
    ensures Parsing.InI32(r)
    ensures Parsing.InI32(n) ==> r == n
    ensures n < Parsing.I32Min ==> r == Parsing.I32Min
    ensures n > Parsing.I32Max ==> r == Parsing.I32Max
  {
    if n < Parsing.I32Min then Parsing.I32Min
    else if n > Parsing.I32Max then Parsing.I32Max
    else n
  }

  /**
   * `(n as f32 * (fileWidth as f32 / fileHeight as f32)) as i32`, over exact
   * rationals: a non-zero height gives n·fileWidth/fileHeight truncated toward
   * zero and saturated; a zero height makes the ratio an infinity, which
   * saturates with the sign of n·fileWidth, or NaN (0/0, or 0·infinity),
   * which becomes 0.
   */
  function ScaleByImageRatio(n: int, fileWidth: int, fileHeight: int): (r: int)
    ensures Parsing.InI32(r)
    ensures fileHeight != 0 ==> r == SaturateI32(TruncDiv(n * fileWidth, fileHeight))
    ensures fileHeight == 0 && n * fileWidth == 0 ==> r == 0
    ensures fileHeight == 0 && n * fileWidth > 0 ==> r == Parsing.I32Max
    ensures fileHeight == 0 && n * fileWidth < 0 ==> r == Parsing.I32Min
  {
    if fileHeight == 0 then
      if fileWidth == 0 || n == 0 then 0
      else if (n > 0) == (fileWidth > 0) then Parsing.I32Max
      else Parsing.I32Min
    else SaturateI32(TruncDiv(n * fileWidth, fileHeight))
  }

  /**
   * The size derived on first render: a 0 counts as missing; with neither side
   * the image's own size is used, with both they are used as given, and with
   * one the other is scaled by the image's width/height ratio.
   */
  function InitialSize(passedWidth: Option<int>, passedHeight: Option<int>, file: FileDetails): (r: Size)
    ensures var pw, ph := passedWidth.GetOr(0), passedHeight.GetOr(0);
            && (pw == 0 && ph == 0 ==> r == Size(file.width, file.height))
            && (pw != 0 && ph != 0 ==> r == Size(pw, ph))
            && (pw == 0 && ph != 0 ==> r.height == ph && r.width == ScaleByImageRatio(ph, file.width, file.height))
            && (pw != 0 && ph == 0 ==> r.width == pw && r.height == ScaleByImageRatio(pw, file.width, file.height))
  {
    var w := passedWidth.GetOr(0);
    var h := passedHeight.GetOr(0);
    if w == 0 && h == 0 then Size(file.width, file.height)
    else if w == 0 then Size(ScaleByImageRatio(h, file.width, file.height), h)
    else if h == 0 then Size(w, ScaleByImageRatio(w, file.width, file.height))
    else Size(w, h)
  }

  /** A passed 0 is the same as a missing size. */
  lemma ZeroIsAbsent(w: Option<int>, h: Option<int>, file: FileDetails)
    ensures InitialSize(Some(0), h, file) == InitialSize(None, h, file)
    ensures InitialSize(w, Some(0), file) == InitialSize(w, None, file)
  {
  }

  /**
   * With only a height given, the width keeps the image's shape: width/height
   * is the image's width/height ratio, up to truncation toward zero.
   */
  lemma HeightOnlyKeepsShape(ph: int, file: FileDetails)
    requires ph != 0 && file.height != 0
    requires Parsing.InI32(TruncDiv(ph * file.width, file.height))
    ensures var r := InitialSize(None, Some(ph), file);
            && r.height == ph
            && r.width == TruncDiv(ph * file.width, file.height)
            && Abs(r.width) * Abs(file.height) <= Abs(ph * file.width) < (Abs(r.width) + 1) * Abs(file.height)
            && (r.width > 0 ==> (ph * file.width > 0) == (file.height > 0))
            && (r.width < 0 ==> (ph * file.width > 0) != (file.height > 0))
  {
    TruncDivIsTruncation(ph * file.width, file.height);
  }

  /**
   * With only a width given, the height is the width times the SAME
   * width/height ratio, not its inverse, so the shape is kept only for
   * square images.
   */
  lemma WidthOnlyUsesSameRatio(pw: int, file: FileDetails)
    requires pw != 0 && file.height != 0
    requires Parsing.InI32(TruncDiv(pw * file.width, file.height))
    ensures var r := InitialSize(Some(pw), None, file);
            && r.width == pw
            && r.height == TruncDiv(pw * file.width, file.height)
            && Abs(r.height) * Abs(file.height) <= Abs(pw * file.width) < (Abs(r.height) + 1) * Abs(file.height)
            && (r.height > 0 ==> (pw * file.width > 0) == (file.height > 0))
            && (r.height < 0 ==> (pw * file.width > 0) != (file.height > 0))
  {
    TruncDivIsTruncation(pw * file.width, file.height);
  }

  /** On a 400x300 image: no size gives 400x300, height 150 gives 200x150, and width 200 gives height 266 (not 150). */
  lemma LandscapeImageExamples(file: FileDetails)
    requires file.width == 400 && file.height == 300
    ensures InitialSize(None, None, file) == Size(400, 300)
    ensures InitialSize(Some(0), Some(0), file) == Size(400, 300)
    ensures InitialSize(None, Some(150), file) == Size(200, 150)
    ensures InitialSize(Some(200), None, file) == Size(200, 266)
  {
  }

  /**
   * The movable image's first-render flag. Each render returns the size it
   * forwards to the movable container.
   */
  class MovableImageComponent {
    var firstLoad: bool

    constructor ()
      ensures firstLoad
    {
      firstLoad := true;
    }

    method Render(passedWidth: Option<int>, passedHeight: Option<int>, file: FileDetails)
      returns (width: Option<int>, height: Option<int>)
      modifies this
      ensures !firstLoad
      ensures old(firstLoad) ==>
                width == Some(InitialSize(passedWidth, passedHeight, file).width) &&
                height == Some(InitialSize(passedWidth, passedHeight, file).height)
      ensures !old(firstLoad) ==> width == None && height == None
    {
      width, height := None, None;
      if firstLoad {
        var tmpWidth := 0;
        var tmpHeight := 0;
        if passedWidth.Some? {
          tmpWidth := passedWidth.value;
        }
        if passedHeight.Some? {
          tmpHeight := passedHeight.value;
        }
        if tmpWidth == 0 && tmpHeight == 0 {
          tmpWidth := file.width;
          tmpHeight := file.height;
        } else if tmpWidth == 0 {
          tmpWidth := ScaleByImageRatio(tmpHeight, file.width, file.height);
        } else if tmpHeight == 0 {
          tmpHeight := ScaleByImageRatio(tmpWidth, file.width, file.height);
        }
        width := Some(tmpWidth);
        height := Some(tmpHeight);
        firstLoad := false;
      }
    }
  }

  /**
   * The container's first render takes the derived size; on any later render
   * of both components nothing is forwarded and the container keeps its size.
   */
  lemma ContainerTakesDerivedSize(s: MovableDiv.DivState, w: Option<int>, h: Option<int>, file: FileDetails)
    ensures s.firstLoad ==>
              var sz := InitialSize(w, h, file);
              var t := MovableDiv.FirstLoadSizing(s, Some(sz.width), Some(sz.height));
              t.width == sz.width && t.height == sz.height
    ensures !s.firstLoad ==> MovableDiv.FirstLoadSizing(s, None, None) == s
  {
  }
}
