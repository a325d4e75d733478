/**
 * Pip layout of a die face (src/TextureGenerator.ts, `createDiceTexture`):
 * which pip centres are drawn for a face number on a square canvas. The
 * canvas, colours and the highlight drawn inside each pip are not modelled;
 * the sequence lists the `drawPip` centres in drawing order.
 */
module Texture {

  datatype Point = Point(x: real, y: real)

  /** Pip radius as a fraction of the canvas size. */
  const PIP_RADIUS: real := 0.1
  /** Offset of the outer pips from the centre, as a fraction of the canvas size. */
  const PIP_OFFSET: real := 0.25

  /**
   * The pip centres for face `n` (a JavaScript number, compared with `===`)
   * on a canvas `size` pixels wide.
   */
  function PipCentres(n: real, size: real): (pips: seq<Point>)
    ensures |pips| <= 6
    ensures pips != [] ==> 1.0 <= n < 7.0
    ensures |pips| % 2 == 1 <==> n == 1.0 || n == 3.0 || n == 5.0
  {
    var c := size / 2.0;
    var o := size * PIP_OFFSET;
    (if n == 1.0 || n == 3.0 || n == 5.0 then [Point(c, c)] else [])
    + (if n > 1.0 && n < 7.0 then [Point(c - o, c - o), Point(c + o, c + o)] else [])
    + (if n == 4.0 || n == 5.0 || n == 6.0 then [Point(c + o, c - o), Point(c - o, c + o)] else [])
    + (if n == 6.0 then [Point(c - o, c), Point(c + o, c)] else [])
  }

  /** The reflection of a point through the canvas centre. */
  function Mirror(p: Point, size: real): Point
  {
    Point(size - p.x, size - p.y)
  }

  /** A face numbered 1 to 6 shows exactly that many pips. */
  lemma PipCount(k: int, size: real)
    requires 1 <= k <= 6
    ensures |PipCentres(k as real, size)| == k
  {
  }

  /** Numbers below 1 or from 7 up draw nothing. */
  lemma NoPipsOutOfRange(n: real, size: real)
    requires n < 1.0 || n >= 7.0
    ensures PipCentres(n, size) == []
  {
  }

  /** The centre pip is drawn iff the number is 1, 3 or 5. */
  lemma CentrePip(n: real, size: real)
    requires size > 0.0
    ensures Point(size / 2.0, size / 2.0) in PipCentres(n, size) <==> n == 1.0 || n == 3.0 || n == 5.0
  {
    var c, o := size / 2.0, size * PIP_OFFSET;
    assert c - o != c && c + o != c;
  }

  /** Every centre lies on the 3×3 grid {c − o, c, c + o}². */
  lemma PipsOnGrid(n: real, size: real)
    ensures var c, o := size / 2.0, size * PIP_OFFSET;
      forall p :: p in PipCentres(n, size) ==>
        (p.x == c - o || p.x == c || p.x == c + o) && (p.y == c - o || p.y == c || p.y == c + o)
  {
  }

  /** The pattern is point-symmetric about the canvas centre: pips come in mirrored pairs. */
  lemma PipsPointSymmetric(n: real, size: real)
    ensures forall p :: p in PipCentres(n, size) ==> Mirror(p, size) in PipCentres(n, size)
  {
    var c, o := size / 2.0, size * PIP_OFFSET;
    assert size - (c - o) == c + o && size - (c + o) == c - o && size - c == c;
  }

  /** Every pip disc of radius 0.1·size lies inside the canvas square [0, size]². */
  lemma PipsInsideCanvas(n: real, size: real)
    requires size >= 0.0
    ensures var r := size * PIP_RADIUS;
      forall p :: p in PipCentres(n, size) ==>
        0.0 <= p.x - r && p.x + r <= size && 0.0 <= p.y - r && p.y + r <= size
  {
  }
}
