/**
  The view state of the cat canvas (frontend/ui/canvas_state.py): zoom,
  pan offset, the followed cat, the simulation speed and the follow radius.
  `Reset` restores the view (zoom, pan, followed cat) and keeps the
  simulation settings (speed, follow radius).
 */
module Canvas {

  datatype Option<T> = None | Some(value: T)

  /** The value of a canvas state, with the pan offset read out of its array. */
  datatype CanvasView = CanvasView(
    zoomFactor: real,
    panOffset: seq<real>,
    followedCatId: Option<int>,
    speedFactor: real,
    followRadius: real)

  /** The default values of a new canvas state. */
  const DefaultView := CanvasView(1.0, [0.0, 0.0], None, 1.0, 0.5)

  /** The view after `reset`: zoom 1, pan (0, 0), nothing followed, settings kept. */
  function ResetView(v: CanvasView): (r: CanvasView)
    ensures r.zoomFactor == DefaultView.zoomFactor
    ensures r.panOffset == DefaultView.panOffset
    ensures r.followedCatId == DefaultView.followedCatId
    ensures r.speedFactor == v.speedFactor && r.followRadius == v.followRadius
  {
    v.(zoomFactor := 1.0, panOffset := [0.0, 0.0], followedCatId := None)
  }

  /** Resetting twice is resetting once. */
  lemma ResetIdempotent(v: CanvasView)
    ensures ResetView(ResetView(v)) == ResetView(v)
  {
  }

  /** A default state is already reset: `reset` changes nothing about it. */
  lemma DefaultIsReset()
    ensures ResetView(DefaultView) == DefaultView
  {
  }

  /** A reset state differs from the default only in the kept speed and follow radius. */
  lemma ResetIsDefaultButSettings(v: CanvasView)
    ensures ResetView(v) == DefaultView.(speedFactor := v.speedFactor, followRadius := v.followRadius)
  {
  }

  class CanvasState {
    var zoomFactor: real
    var panOffset: array<real>
    var followedCatId: Option<int>
    var speedFactor: real
    var followRadius: real

    /** The current value of the state. */
    function View(): CanvasView
      reads this, panOffset
    {
      CanvasView(zoomFactor, panOffset[..], followedCatId, speedFactor, followRadius)
    }

    /** The dataclass constructor with every default: a fresh (0, 0) pan array. */
    constructor Default()
      ensures View() == DefaultView
      ensures fresh(panOffset)
    {
      var pan := new real[2](_ => 0.0);
      assert pan[..] == [0.0, 0.0];
      zoomFactor := 1.0;
      panOffset := pan;
      followedCatId := None;
      speedFactor := 1.0;
      followRadius := 0.5;
    }

    /** The dataclass constructor with every field given; the pan array is shared, not copied. */
    constructor (zoomFactor: real, panOffset: array<real>, followedCatId: Option<int>,
                 speedFactor: real, followRadius: real)
      ensures this.zoomFactor == zoomFactor && this.panOffset == panOffset
      ensures this.followedCatId == followedCatId
      ensures this.speedFactor == speedFactor && this.followRadius == followRadius
    {
      this.zoomFactor := zoomFactor;
      this.panOffset := panOffset;
      this.followedCatId := followedCatId;
      this.speedFactor := speedFactor;
      this.followRadius := followRadius;
    }

    /**
      `reset`: zoom back to 1.0, a new (0, 0) pan array (the previous array,
      which others may still hold, is left as it was), no followed cat.
     */
    method Reset()
      modifies this
      ensures View() == ResetView(old(View()))
      ensures fresh(panOffset)
      ensures old(panOffset[..]) == old(panOffset)[..]
    {
      zoomFactor := 1.0;
      panOffset := new real[2](_ => 0.0);
      followedCatId := None;
      assert panOffset[..] == [0.0, 0.0];
    }
  }
}
