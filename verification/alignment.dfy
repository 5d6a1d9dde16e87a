/**
 * The face-alignment test of the measurement screen: the detector's box, mirrored to match the
 * selfie view, must sit inside the on-screen oval (widened by a margin), be roughly centred in
 * it, and be neither too small nor too large for it. All quantities are exact reals.
 */
module Alignment {
  import opened Wrappers

  datatype FaceStatus = Loading | NoFace | Outside | Inside

  /** The detector's bounding box in unmirrored video coordinates. */
  datatype Box = Box(x: real, y: real, width: real, height: real)

  /**
   * What one detection attempt sees: whether the video element and the detector module exist,
   * the video's ready state and intrinsic size, and the detector's answer (`None` when it finds
   * no face).
   */
  datatype Probe = Probe(hasVideo: bool, hasDetector: bool, readyState: int,
                         videoWidth: nat, videoHeight: nat, detection: Option<Box>)

  /** The detector may be asked at all: video and detector present, weights loaded, frame data available. */
  predicate Ready(p: Probe, modelLoaded: bool) {
    p.hasVideo && p.hasDetector && modelLoaded && p.readyState >= 2
  }

  /**
   * `a / d < c` as a JavaScript comparison, for a non-negative divisor: dividing by zero gives
   * an infinity of the numerator's sign, or NaN when the numerator is zero too.
   */
  predicate QuotientBelow(a: real, d: real, c: real)
    requires d >= 0.0
  {
    if d > 0.0 then a / d < c else a < 0.0
  }

  /** `a / d > c` as a JavaScript comparison, for a non-negative divisor. */
  predicate QuotientAbove(a: real, d: real, c: real)
    requires d >= 0.0
  {
    if d > 0.0 then a / d > c else a > 0.0
  }

  function Abs(a: real): real {
    if a < 0.0 then -a else a
  }

  /** The three tests of `detectFace`, computed the way the screen computes them. */
  predicate Aligned(vw: nat, vh: nat, b: Box) {
    var faceLeft := vw as real - b.x - b.width;
    var faceRight := faceLeft + b.width;
    var faceTop := b.y;
    var faceBottom := b.y + b.height;
    var faceCx := faceLeft + b.width / 2.0;
    var faceCy := faceTop + b.height / 2.0;
    var ovalW := vw as real * 0.75;
    var ovalH := vh as real * 0.72;
    var ovalLeft := (vw as real - ovalW) / 2.0;
    var ovalRight := ovalLeft + ovalW;
    var ovalTop := (vh as real - ovalH) / 2.0;
    var ovalBottom := ovalTop + ovalH;
    var ovalCx := vw as real / 2.0;
    var ovalCy := vh as real / 2.0;
    var marginX := ovalW * 0.05;
    var marginY := ovalH * 0.05;
    var isInside := faceLeft >= ovalLeft - marginX && faceRight <= ovalRight + marginX
      && faceTop >= ovalTop - marginY && faceBottom <= ovalBottom + marginY;
    var isCentered := QuotientBelow(Abs(faceCx - ovalCx), ovalW / 2.0, 0.5)
      && QuotientBelow(Abs(faceCy - ovalCy), ovalH / 2.0, 0.5);
    var isGoodSize := QuotientAbove(b.width, ovalW, 0.3) && QuotientAbove(b.height, ovalH, 0.3)
      && QuotientBelow(b.width, ovalW, 1.2) && QuotientBelow(b.height, ovalH, 1.2);
    isInside && isCentered && isGoodSize
  }

  /** `detectFace`: the status one detection attempt reports. */
  function Classify(p: Probe, modelLoaded: bool): (f: FaceStatus)
    ensures f != Loading
    ensures f == NoFace <==> !Ready(p, modelLoaded) || p.detection.None?
    ensures f == Inside <==>
      (Ready(p, modelLoaded) && p.detection.Some? && Aligned(p.videoWidth, p.videoHeight, p.detection.value))
  {
    if !Ready(p, modelLoaded) then NoFace
    else match p.detection
      case None => NoFace
      case Some(b) => if Aligned(p.videoWidth, p.videoHeight, b) then Inside else Outside
  }

  /**
   * The alignment test in closed form, in unmirrored coordinates: the box lies within 8.75% of
   * the frame's side edges and 10.4% of its top and bottom, its centre is within 18.75% of the
   * width and 18% of the height from the frame's centre, and it spans strictly between 22.5% and
   * 90% of the width and between 21.6% and 86.4% of the height. A frame without width or
   * height never passes.
   */
  predicate ClosedForm(vw: nat, vh: nat, b: Box) {
    var W := vw as real;
    var H := vh as real;
    W > 0.0 && H > 0.0
    && 0.0875 * W <= b.x && b.x + b.width <= 0.9125 * W
    && 0.104 * H <= b.y && b.y + b.height <= 0.896 * H
    && Abs(b.x + b.width / 2.0 - W / 2.0) < 0.1875 * W
    && Abs(b.y + b.height / 2.0 - H / 2.0) < 0.18 * H
    && 0.225 * W < b.width < 0.9 * W
    && 0.216 * H < b.height < 0.864 * H
  }

  lemma BelowByProduct(a: real, d: real, c: real)
    requires d > 0.0
    ensures QuotientBelow(a, d, c) <==> a < c * d
  {
    assert a / d * d == a;
    if a / d < c {
      assert a / d * d < c * d;
    } else {
      assert a / d * d >= c * d;
    }
  }

  lemma AboveByProduct(a: real, d: real, c: real)
    requires d > 0.0
    ensures QuotientAbove(a, d, c) <==> a > c * d
  {
    assert a / d * d == a;
    if a / d > c {
      assert a / d * d > c * d;
    } else {
      assert a / d * d <= c * d;
    }
  }

  /** The screen's step-by-step test and the closed form agree on every box and frame. */
  lemma AlignedIffClosedForm(vw: nat, vh: nat, b: Box)
    ensures Aligned(vw, vh, b) <==> ClosedForm(vw, vh, b)
  {
    var W := vw as real;
    var H := vh as real;
    if W > 0.0 && H > 0.0 {
      BelowByProduct(Abs(W - b.x - b.width + b.width / 2.0 - W / 2.0), W * 0.75 / 2.0, 0.5);
      BelowByProduct(Abs(b.y + b.height / 2.0 - H / 2.0), H * 0.72 / 2.0, 0.5);
      AboveByProduct(b.width, W * 0.75, 0.3);
      AboveByProduct(b.height, H * 0.72, 0.3);
      BelowByProduct(b.width, W * 0.75, 1.2);
      BelowByProduct(b.height, H * 0.72, 1.2);
      assert Abs(W - b.x - b.width + b.width / 2.0 - W / 2.0) == Abs(b.x + b.width / 2.0 - W / 2.0);
    } else {
      NoFrameNotAligned(vw, vh, b);
    }
  }

  /** With a zero-sized frame the size test fails: a ratio over zero is infinite or NaN. */
  lemma NoFrameNotAligned(vw: nat, vh: nat, b: Box)
    requires vw == 0 || vh == 0
    ensures !Aligned(vw, vh, b)
  {
  }

  /**
   * Mirroring does not change the verdict: the box and its mirror image in the frame's
   * vertical centre line are accepted together.
   */
  lemma {:induction false} MirrorInvariant(vw: nat, vh: nat, b: Box)
    ensures Aligned(vw, vh, b) <==> Aligned(vw, vh, b.(x := vw as real - b.x - b.width))
  {
    var m := b.(x := vw as real - b.x - b.width);
    AlignedIffClosedForm(vw, vh, b);
    AlignedIffClosedForm(vw, vh, m);
    var W := vw as real;
    assert Abs(m.x + m.width / 2.0 - W / 2.0) == Abs(b.x + b.width / 2.0 - W / 2.0);
  }

  /** A status never reads "inside" unless a face was found in a ready video. */
  lemma InsideNeedsDetection(p: Probe, modelLoaded: bool)
    requires Classify(p, modelLoaded) == Inside
    ensures modelLoaded && p.readyState >= 2 && p.detection.Some?
  {
  }

  /** A centred box of half the frame's width and height is accepted. */
  lemma CentredBoxAccepted(vw: nat, vh: nat)
    requires vw > 0 && vh > 0
    ensures Aligned(vw, vh, Box(vw as real / 4.0, vh as real / 4.0, vw as real / 2.0, vh as real / 2.0))
  {
    AlignedIffClosedForm(vw, vh, Box(vw as real / 4.0, vh as real / 4.0, vw as real / 2.0, vh as real / 2.0));
  }
}
