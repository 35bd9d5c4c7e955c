/** The draggable card: it tracks the finger while dragged and, at release,
    commits right, commits left or springs back, by comparing the horizontal
    displacement with a fixed threshold. The fields hold the targets the
    spring animations are sent to; the animation itself is not modelled. */
module SwipeableCard {

  const SwipeThreshold: real := 100.0
  const CardWidth: real := 300.0

  /** The three outcomes of a release. */
  datatype Release = CommitRight | CommitLeft | Return

  /** The two callbacks the card can invoke. */
  datatype Side = Right | Left

  /** The decision at release: strictly beyond the threshold on either side
      commits; anything from -100 to 100 inclusive springs back. */
  function Decide(translationX: real): (r: Release)
    ensures r == CommitRight <==> translationX > SwipeThreshold
    ensures r == CommitLeft <==> translationX < -SwipeThreshold
    ensures r == Return <==> -SwipeThreshold <= translationX <= SwipeThreshold
  {
    if translationX > SwipeThreshold then CommitRight
    else if translationX < -SwipeThreshold then CommitLeft
    else Return
  }

  /** The callbacks a release invokes, in order. */
  function Callbacks(r: Release): (cs: seq<Side>)
    ensures |cs| <= 1
    ensures Right in cs <==> r == CommitRight
    ensures Left in cs <==> r == CommitLeft
  {
    match r
    case CommitRight => [Right]
    case CommitLeft => [Left]
    case Return => []
  }

  function Mirror(r: Release): Release {
    match r
    case CommitRight => CommitLeft
    case CommitLeft => CommitRight
    case Return => Return
  }

  /** The decision is symmetric: a drag to the left by the same distance
      gives the mirrored outcome. */
  lemma DecideMirror(translationX: real)
    ensures Decide(-translationX) == Mirror(Decide(translationX))
  {
  }

  /** Dragging further in the same direction never undoes a commit. */
  lemma DecideMonotone(x: real, y: real)
    requires x <= y
    ensures Decide(x) == CommitRight ==> Decide(y) == CommitRight
    ensures Decide(y) == CommitLeft ==> Decide(x) == CommitLeft
  {
  }

  /** Exactly one callback fires on a commit, none on a return, and the
      right and the left callback never fire together. */
  lemma ReleaseFiresAtMostOnce(translationX: real)
    ensures |Callbacks(Decide(translationX))| == (if Decide(translationX) == Return then 0 else 1)
    ensures !(Right in Callbacks(Decide(translationX)) && Left in Callbacks(Decide(translationX)))
  {
  }

  /** The rotation while dragging: the displacement mapped linearly from
      [-300, 0, 300] onto [-15, 0, 15] degrees and extended beyond it. */
  function Rotation(translationX: real): (deg: real)
    ensures translationX == CardWidth ==> deg == 15.0
    ensures translationX == -CardWidth ==> deg == -15.0
    ensures (translationX < 0.0 ==> deg < 0.0) && (translationX > 0.0 ==> deg > 0.0)
  {
    translationX * 15.0 / CardWidth
  }

  /** One card. Gestures reach it only when it is the top card. */
  class SwipeableCard {
    const isTop: bool
    var translateX: real
    var translateY: real
    var rotation: real
    var scale: real

    constructor (isTop: bool)
      ensures this.isTop == isTop
      ensures translateX == 0.0 && translateY == 0.0 && rotation == 0.0 && scale == 1.0
    {
      this.isTop := isTop;
      translateX, translateY, rotation, scale := 0.0, 0.0, 0.0, 1.0;
    }

    /** Touch down: the card shrinks slightly. */
    method OnStart()
      modifies this
      ensures isTop ==> scale == 0.95
      ensures translateX == old(translateX) && translateY == old(translateY) && rotation == old(rotation)
      ensures !isTop ==> scale == old(scale)
    {
      if isTop {
        scale := 0.95;
      }
    }

    /** Drag: the card follows the finger and tilts with the horizontal
        displacement. */
    method OnActive(translationX: real, translationY: real)
      modifies this
      ensures isTop ==> translateX == translationX && translateY == translationY
      ensures isTop ==> rotation == Rotation(translationX)
      ensures scale == old(scale)
      ensures !isTop ==> translateX == old(translateX) && translateY == old(translateY) && rotation == old(rotation)
    {
      if isTop {
        translateX := translationX;
        translateY := translationY;
        rotation := Rotation(translationX);
      }
    }

    /** Release: a commit sends the card off screen to twice the card width
        on its side, keeps the vertical displacement and invokes that side's
        callback once; otherwise the card returns to the identity transform
        and no callback runs. The scale returns to 1 either way. */
    method OnEnd(translationX: real, translationY: real) returns (invoked: seq<Side>)
      modifies this
      ensures !isTop ==> invoked == [] && unchanged(this)
      ensures isTop ==> invoked == Callbacks(Decide(translationX)) && scale == 1.0
      ensures isTop && Decide(translationX) == CommitRight ==>
        translateX == 2.0 * CardWidth && translateY == translationY && rotation == old(rotation)
      ensures isTop && Decide(translationX) == CommitLeft ==>
        translateX == -2.0 * CardWidth && translateY == translationY && rotation == old(rotation)
      ensures isTop && Decide(translationX) == Return ==>
        translateX == 0.0 && translateY == 0.0 && rotation == 0.0
    {
      invoked := [];
      if !isTop {
        return;
      }
      var shouldSwipeRight := translationX > SwipeThreshold;
      var shouldSwipeLeft := translationX < -SwipeThreshold;
      if shouldSwipeRight {
        translateX := CardWidth * 2.0;
        translateY := translationY;
        invoked := invoked + [Right];
      } else if shouldSwipeLeft {
        translateX := -CardWidth * 2.0;
        translateY := translationY;
        invoked := invoked + [Left];
      } else {
        translateX := 0.0;
        translateY := 0.0;
        rotation := 0.0;
      }
      scale := 1.0;
    }
  }
}
