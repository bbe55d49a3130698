/**
 * Frame-to-screen cursor mapping: `int(x * screen_w / img_w)`.  Python's
 * `int` of a float truncates toward zero; it does not round.
 */
module CursorMapping {
  import opened Geometry

  /** Integer division truncating toward zero (Dafny's `/` is Euclidean). */
  function TruncDiv(n: int, d: int): (q: int)
    requires d > 0
    ensures n >= 0 ==> q >= 0 && q * d <= n < (q + 1) * d
    ensures n < 0 ==> q <= 0 && (-q) * d <= -n < (-q + 1) * d
  {
    if n >= 0 then n / d else -((-n) / d)
  }

  /**
   * One screen coordinate from one frame coordinate: the largest magnitude
   * `s` with `|s| * imageSize <= |coord * screenSize|`, of the same sign.
   * A coordinate inside the frame lands inside [0, screenSize].
   */
  function ToScreen(coord: int, screenSize: nat, imageSize: int): (s: int)
    requires imageSize > 0
    ensures coord >= 0 ==> s * imageSize <= coord * screenSize < (s + 1) * imageSize
    ensures coord < 0 ==> s <= 0
    ensures 0 <= coord <= imageSize ==> 0 <= s <= screenSize
  {
    var s := TruncDiv(coord * screenSize, imageSize);
    ToScreenBounds(coord, screenSize, imageSize, s);
    s
  }

  lemma ToScreenBounds(coord: int, screenSize: nat, imageSize: int, s: int)
    requires imageSize > 0 && s == TruncDiv(coord * screenSize, imageSize)
    ensures coord < 0 ==> s <= 0
    ensures 0 <= coord <= imageSize ==> 0 <= s <= screenSize
  {
    if 0 <= coord <= imageSize {
      MulBounds(coord, screenSize, imageSize);
      assert s * imageSize <= imageSize * screenSize;
      DivideOut(s, screenSize, imageSize);
    }
    if coord < 0 {
      NegMul(coord, screenSize);
    }
  }

  lemma MulBounds(c: int, n: nat, m: int)
    requires 0 <= c <= m
    ensures 0 <= c * n <= m * n
  {
    assert (m - c) * n >= 0;
  }

  lemma NegMul(c: int, n: nat)
    requires c < 0
    ensures c * n <= 0
  {
    assert (-c) * n >= 0;
  }

  lemma DivideOut(s: int, n: nat, m: int)
    requires m > 0 && s * m <= m * n
    ensures s <= n
  {
    assert (n - s) * m >= 0;
  }

  /** The cursor position for a landmark: both axes mapped independently. */
  function MapToScreen(p: Point, screenWidth: nat, screenHeight: nat, imgWidth: int, imgHeight: int): (q: Point)
    requires imgWidth > 0 && imgHeight > 0
    ensures 0 <= p.x <= imgWidth && 0 <= p.y <= imgHeight ==>
      0 <= q.x <= screenWidth && 0 <= q.y <= screenHeight
  {
    Point(ToScreen(p.x, screenWidth, imgWidth), ToScreen(p.y, screenHeight, imgHeight))
  }

  /** Truncation, not rounding: a coordinate just short of the next pixel stays on this one. */
  lemma TruncatesNotRounds()
    ensures ToScreen(1, 3, 2) == 1
    ensures ToScreen(-1, 3, 2) == -1
  {
  }
}
