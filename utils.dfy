/**
 * The pixel arithmetic of `get_ip` and the result policy of `detect_objects`
 * (src/utils.py). The camera, the depth map, the YOLO detector and
 * `camera.pixel_to_world` are not modelled: the detector's boxes are an input and the
 * conversion to world coordinates is a function parameter.
 */
module Utils {
  /** A bounding box as `xyxy`: two corners in image pixels, as the detector's floats. */
  datatype Box = Box(x1: real, y1: real, x2: real, y2: real)

  /** Python's `int()` on a float: the integer part, rounded toward zero. */
  function Trunc(r: real): int
  {
    if r >= 0.0 then r.Floor else -((-r).Floor)
  }

  /** `int(n / 2)` for an integer `n`: true division, then `int()`. */
  function HalfTrunc(n: int): int
  {
    Trunc(n as real / 2.0)
  }

  /** The vertical flip between the image's and the detector's row order. */
  function Flip(y: int, resY: int): int
  {
    resY - y - 1
  }

  /** Rows `y1`, `y2` flipped, then ordered with `min`/`max`. */
  function FlippedRows(y1: int, y2: int, resY: int): (r: (int, int))
    ensures r.0 <= r.1
    ensures {r.0, r.1} == {Flip(y1, resY), Flip(y2, resY)}
  {
    var f1, f2 := Flip(y1, resY), Flip(y2, resY);
    (if f1 < f2 then f1 else f2, if f1 < f2 then f2 else f1)
  }

  /**
   * `get_ip`'s interest point in pixels: the centre of the box five rows further on,
   * or, for a tall item, three rows before the flipped top edge.
   */
  function InterestPixel(box: Box, resY: int, isTall: bool): (int, int)
  {
    var x1, y1, x2, y2 := Trunc(box.x1), Trunc(box.y1), Trunc(box.x2), Trunc(box.y2);
    var (lo, hi) := FlippedRows(y1, y2, resY);
    var cx := HalfTrunc(x1 + x2);
    if !isTall then (cx, HalfTrunc(lo + hi) + 5) else (cx, hi - 3)
  }

  /** `pixel_to_world` answers the first three values of a homogeneous world vector. */
  type Point = p: seq<real> | |p| == 3 witness [0.0, 0.0, 0.0]

  /** What `detect_objects` returns: `False`, `None`, or the world coordinates. */
  datatype Detection = NotDetected | Ambiguous | Located(coords: Point)

  /**
   * `detect_objects`: `boxes` are the first result's boxes (an empty result is falsy),
   * `toWorld` is `camera.pixel_to_world` with the depth map taken.
   */
  function DetectObjects(boxes: seq<Box>, resY: int, isTall: bool, toWorld: ((int, int)) -> Point): Detection
  {
    if boxes == [] then NotDetected
    else if |boxes| == 1 then Located(toWorld(InterestPixel(boxes[0], resY, isTall)))
    else Ambiguous
  }
}

/** What `get_ip` and `detect_objects` promise, proved about the functions of `Utils`. */
module UtilsProperties {
  import opened Utils

  /** `int()` keeps the sign and drops less than one unit of magnitude. */
  lemma TruncTowardZero(r: real)
    ensures r >= 0.0 ==> 0 <= Trunc(r) && Trunc(r) as real <= r < Trunc(r) as real + 1.0
    ensures r < 0.0 ==> Trunc(r) <= 0 && Trunc(r) as real - 1.0 < r <= Trunc(r) as real
  {
  }

  /** `int()` leaves a whole number unchanged. */
  lemma TruncOfInt(n: int)
    ensures Trunc(n as real) == n
  {
  }

  /**
   * Halving with true division and `int()` is integer division rounded toward zero,
   * which differs from Dafny's (and Python's `//`) floor for negative odd numbers.
   */
  lemma HalfTruncDivision(n: int)
    ensures n >= 0 ==> HalfTrunc(n) == n / 2
    ensures n < 0 ==> HalfTrunc(n) == -((-n) / 2)
  {
    var q := n / 2;
    if n >= 0 {
      assert q as real <= n as real / 2.0 < q as real + 1.0;
    } else {
      var m := (-n) / 2;
      assert m as real <= (-n) as real / 2.0 < m as real + 1.0;
      assert (-(n as real / 2.0)) == (-n) as real / 2.0;
    }
  }

  /** Flipping twice gives back the row. */
  lemma FlipInvolution(y: int, resY: int)
    ensures Flip(Flip(y, resY), resY) == y
  {
  }

  /** The flip maps the rows `0 .. resY-1` onto themselves. */
  lemma FlipInRange(y: int, resY: int)
    ensures 0 <= y < resY <==> 0 <= Flip(y, resY) < resY
  {
  }

  /** The rows after flipping and ordering: `lo` is the flipped bottom, `hi` the flipped top. */
  lemma FlippedRowsByOrder(y1: int, y2: int, resY: int)
    ensures FlippedRows(y1, y2, resY)
         == (Flip(if y1 > y2 then y1 else y2, resY), Flip(if y1 < y2 then y1 else y2, resY))
  {
  }

  /** The column of the interest point lies between the box's left and right edges. */
  lemma ColumnInsideBox(box: Box, resY: int, isTall: bool)
    requires 0.0 <= box.x1 <= box.x2
    ensures Trunc(box.x1) <= InterestPixel(box, resY, isTall).0 <= Trunc(box.x2)
  {
    var x1, x2 := Trunc(box.x1), Trunc(box.x2);
    HalfTruncDivision(x1 + x2);
  }

  /**
   * A tall item's row is three rows before the flipped top edge of the box, that is
   * `resY - 1 - min(y1, y2) - 3` in the detector's rows.
   */
  lemma TallRowFromTopEdge(box: Box, resY: int)
    ensures InterestPixel(box, resY, true).1
         == resY - 1 - (if Trunc(box.y1) < Trunc(box.y2) then Trunc(box.y1) else Trunc(box.y2)) - 3
  {
    FlippedRowsByOrder(Trunc(box.y1), Trunc(box.y2), resY);
  }

  /**
   * Any other item's row is five rows past the midpoint of the flipped edges; inside an
   * image whose rows are all non-negative it lies five rows past a row of the box.
   */
  lemma CentreRowInsideBox(box: Box, resY: int)
    requires 0.0 <= box.y1 && 0.0 <= box.y2
    requires box.y1 < resY as real && box.y2 < resY as real
    ensures var (lo, hi) := FlippedRows(Trunc(box.y1), Trunc(box.y2), resY);
            lo + 5 <= InterestPixel(box, resY, false).1 <= hi + 5
  {
    var y1, y2 := Trunc(box.y1), Trunc(box.y2);
    TruncTowardZero(box.y1);
    TruncTowardZero(box.y2);
    var (lo, hi) := FlippedRows(y1, y2, resY);
    assert 0 <= lo;
    HalfTruncDivision(lo + hi);
  }

  /**
   * The result follows the number of boxes: `False` for none, `None` for more than one
   * (no interest point is computed), and the converted interest point for exactly one.
   */
  lemma DetectionByCount(boxes: seq<Box>, resY: int, isTall: bool, toWorld: ((int, int)) -> Point)
    ensures DetectObjects(boxes, resY, isTall, toWorld).NotDetected? <==> |boxes| == 0
    ensures DetectObjects(boxes, resY, isTall, toWorld).Ambiguous? <==> |boxes| > 1
    ensures DetectObjects(boxes, resY, isTall, toWorld).Located? <==> |boxes| == 1
    ensures |boxes| == 1 ==>
              DetectObjects(boxes, resY, isTall, toWorld).coords == toWorld(InterestPixel(boxes[0], resY, isTall))
  {
  }
}
