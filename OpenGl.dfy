/**
  Conversion of cat positions from the OpenGL coordinate system to plain,
  flattened coordinates (backend/utils-opengl.c).

  Position i, `{x, y}`, becomes slots 2i and 2i+1 of a new array:
  `x * 0.5 * window_width * scale` and `y * 0.5 * window_height * scale`.
  Window sizes are unsigned integers; the single-precision `scale` is a real.
 */
module OpenGl {

  /** One cat position as the frontend passes it: OpenGL coordinates. */
  datatype OpenGlPosition = OpenGlPosition(x: real, y: real)

  /** Slot 2i: `cat_pos.x * 0.5 * window_width * scale`. */
  function PlainX(p: OpenGlPosition, windowWidth: nat, scale: real): real
  {
    p.x * 0.5 * (windowWidth as real) * scale
  }

  /** Slot 2i + 1: `cat_pos.y * 0.5 * window_height * scale`. */
  function PlainY(p: OpenGlPosition, windowHeight: nat, scale: real): real
  {
    p.y * 0.5 * (windowHeight as real) * scale
  }

  /**
    The flattened coordinates `[x_1', y_1', ..., x_n', y_n']`: position i
    fills slots 2i and 2i+1, scaled as the C expressions do.
   */
  function PlainCoordinates(ps: seq<OpenGlPosition>, windowWidth: nat, windowHeight: nat, scale: real): (flat: seq<real>)
    ensures |flat| == 2 * |ps|
    ensures forall i :: 0 <= i < |ps| ==>
      flat[2 * i] == PlainX(ps[i], windowWidth, scale) && flat[2 * i + 1] == PlainY(ps[i], windowHeight, scale)
  {
    if ps == [] then []
    else
      var rest := PlainCoordinates(ps[1..], windowWidth, windowHeight, scale);
      var r := [PlainX(ps[0], windowWidth, scale), PlainY(ps[0], windowHeight, scale)] + rest;
      assert forall i :: 1 <= i < |ps| ==> r[2 * i] == rest[2 * (i - 1)] && r[2 * i + 1] == rest[2 * (i - 1) + 1];
      r
  }

  /**
    `convert_opengl_to_plain_coordinates`: allocate 2 * cat_count doubles and
    fill them from the first `catCount` positions, which are only read.
   */
  method ConvertOpenGlToPlainCoordinates(catCount: nat, catPositions: array<OpenGlPosition>,
                                         windowWidth: nat, windowHeight: nat, scale: real)
    returns (flat: array<real>)
    requires catCount <= catPositions.Length
    ensures fresh(flat)
    ensures flat[..] == PlainCoordinates(catPositions[..catCount], windowWidth, windowHeight, scale)
  {
    flat := new real[catCount * 2];
    for i := 0 to catCount
      invariant forall k :: 0 <= k < i ==>
        flat[2 * k] == PlainX(catPositions[k], windowWidth, scale)
        && flat[2 * k + 1] == PlainY(catPositions[k], windowHeight, scale)
    {
      var catPos := catPositions[i];
      flat[2 * i] := catPos.x * 0.5 * (windowWidth as real) * scale;
      flat[2 * i + 1] := catPos.y * 0.5 * (windowHeight as real) * scale;
    }
    ghost var want := PlainCoordinates(catPositions[..catCount], windowWidth, windowHeight, scale);
    forall m | 0 <= m < flat.Length
      ensures flat[m] == want[m]
    {
      var k := m / 2;
      assert catPositions[..catCount][k] == catPositions[k];
      if m % 2 == 0 {
        assert m == 2 * k;
      } else {
        assert m == 2 * k + 1;
      }
    }
  }

  /** Undo the scaling of one coordinate: divide by `0.5 * size * scale`. */
  function Unscaled(v: real, size: nat, scale: real): real
    requires size > 0 && scale > 0.0
  {
    v / (0.5 * (size as real) * scale)
  }

  /** The flattened array read back into positions: slots 2i and 2i+1 form cat i. */
  function OpenGlFromPlain(flat: seq<real>, windowWidth: nat, windowHeight: nat, scale: real): (ps: seq<OpenGlPosition>)
    requires |flat| % 2 == 0
    requires windowWidth > 0 && windowHeight > 0 && scale > 0.0
    ensures |ps| == |flat| / 2
  {
    seq(|flat| / 2, i requires 0 <= i < |flat| / 2 =>
      OpenGlPosition(Unscaled(flat[2 * i], windowWidth, scale), Unscaled(flat[2 * i + 1], windowHeight, scale)))
  }

  /**
    For positive window sizes and scale the flattening loses nothing: reading
    the slots back recovers every position, in the same order.
   */
  lemma {:induction false} PlainCoordinatesRoundTrip(ps: seq<OpenGlPosition>, windowWidth: nat, windowHeight: nat, scale: real)
    requires windowWidth > 0 && windowHeight > 0 && scale > 0.0
    ensures OpenGlFromPlain(PlainCoordinates(ps, windowWidth, windowHeight, scale), windowWidth, windowHeight, scale) == ps
  {
    var flat := PlainCoordinates(ps, windowWidth, windowHeight, scale);
    forall i | 0 <= i < |ps|
      ensures OpenGlFromPlain(flat, windowWidth, windowHeight, scale)[i] == ps[i]
    {
      assert flat[2 * i] == PlainX(ps[i], windowWidth, scale);
      assert flat[2 * i + 1] == PlainY(ps[i], windowHeight, scale);
      ScaleUndone(ps[i], windowWidth, windowHeight, scale);
    }
  }

  lemma ScaleUndone(p: OpenGlPosition, windowWidth: nat, windowHeight: nat, scale: real)
    requires windowWidth > 0 && windowHeight > 0 && scale > 0.0
    ensures Unscaled(PlainX(p, windowWidth, scale), windowWidth, scale) == p.x
    ensures Unscaled(PlainY(p, windowHeight, scale), windowHeight, scale) == p.y
  {
    var fx := 0.5 * (windowWidth as real) * scale;
    var fy := 0.5 * (windowHeight as real) * scale;
    assert fx > 0.0 && fy > 0.0;
    assert PlainX(p, windowWidth, scale) == p.x * fx;
    assert PlainY(p, windowHeight, scale) == p.y * fy;
  }

  /**
    The scaling the classifier fixtures rely on: window 20 x 20 and scale 1.0
    turn y = 0.2, 0.4, 0.6, 0.61, 0.8 into 2, 4, 6, 6.1, 8.
   */
  lemma FixtureScaling()
    ensures PlainCoordinates([OpenGlPosition(0.0, 0.2), OpenGlPosition(0.0, 0.4), OpenGlPosition(0.0, 0.6),
                              OpenGlPosition(0.0, 0.61), OpenGlPosition(0.0, 0.8)], 20, 20, 1.0)
            == [0.0, 2.0, 0.0, 4.0, 0.0, 6.0, 0.0, 6.1, 0.0, 8.0]
  {
  }
}
