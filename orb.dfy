/**
 * The orb sub-animator: pure maps from progress to the orb's transform, for the forward
 * drop-in and for the backward fade-out. Applying them to scene objects is not modelled.
 */
module Orb {
  import opened Types
  import opened MathUtils

  datatype ForwardPose = ForwardPose(
    visible: bool, state: OrbState, z: real, opacity: real, scale: real, rotZ: real)

  datatype BackwardPose = BackwardPose(
    state: OrbState, visible: bool, opacity: real, scale: real, rotZ: real)

  /** The floor on the forward span that keeps the normalising division defined. */
  const MinSpan: real := 0.000001

  function Span(forwardStartT: real): (d: real)
    ensures d >= MinSpan && d > 0.0
  {
    Max(MinSpan, 1.0 - forwardStartT)
  }

  /** Forward progress since the run began, normalised so that it reaches 1 at `tEnd = 1`. */
  function ForwardProgress(tEnd: real, forwardStartT: real): (p: real)
    ensures 0.0 <= p <= 1.0
    ensures p >= 1.0 <==> tEnd - forwardStartT >= Span(forwardStartT)
  {
    var d := Span(forwardStartT);
    var q := (tEnd - forwardStartT) / d;
    assert q >= 1.0 <==> tEnd - forwardStartT >= d by {
      assert q * d == tEnd - forwardStartT;
    }
    Clamp(q, 0.0, 1.0)
  }

  function ComputeOrbForward(tEnd: real, forwardStartT: real, cameraZ: real): (o: ForwardPose)
    ensures o.visible
    ensures o.state == Visible || o.state == Entering
    ensures o.state == Visible <==> tEnd - forwardStartT >= Span(forwardStartT)
    ensures 0.0 <= o.opacity <= 1.0 && 0.92 <= o.scale <= 1.0 && 0.0 <= o.rotZ <= 0.08
  {
    var p := ForwardProgress(tEnd, forwardStartT);
    var e := EaseOutCubic(p);
    EaseOutCubicRange(p);
    LerpBetween(0.92, 1.0, e);
    LerpBetween(0.08, 0.0, e);
    ForwardPose(
      visible := true,
      state := if p >= 1.0 then Visible else Entering,
      z := Lerp(cameraZ + 2.0, 0.0, e),
      opacity := e,
      scale := Lerp(0.92, 1.0, e),
      rotZ := Lerp(0.08, 0.0, e))
  }

  /** At the moment a forward run begins the orb is fully transparent, behind the camera and entering. */
  lemma OrbForwardAtStart(forwardStartT: real, cameraZ: real)
    ensures ComputeOrbForward(forwardStartT, forwardStartT, cameraZ)
         == ForwardPose(true, Entering, cameraZ + 2.0, 0.0, 0.92, 0.08)
  {
    EaseOutCubicEnds();
  }

  /** At the end of a forward run the orb has fully arrived, wherever the run started. */
  lemma OrbForwardAtEnd(forwardStartT: real, cameraZ: real)
    requires 1.0 - forwardStartT >= MinSpan
    ensures ComputeOrbForward(1.0, forwardStartT, cameraZ)
         == ForwardPose(true, Visible, 0.0, 1.0, 1.0, 0.0)
  {
    var x := 1.0 - forwardStartT;
    assert Span(forwardStartT) == x;
    QuotientOfSelf(x);
    assert ForwardProgress(1.0, forwardStartT) == 1.0;
    EaseOutCubicEnds();
  }

  lemma QuotientOfSelf(x: real)
    requires x > 0.0
    ensures x / x == 1.0
  {
  }

  /** The orb never fades while `tEnd` grows during a forward run. */
  lemma OrbForwardOpacityMonotone(t1: real, t2: real, forwardStartT: real, cameraZ: real)
    requires t1 <= t2
    ensures ComputeOrbForward(t1, forwardStartT, cameraZ).opacity
         <= ComputeOrbForward(t2, forwardStartT, cameraZ).opacity
  {
    var d := Span(forwardStartT);
    var q1, q2 := (t1 - forwardStartT) / d, (t2 - forwardStartT) / d;
    assert q2 - q1 == (t2 - t1) / d;
    ClampMonotone(q1, q2, 0.0, 1.0);
    EaseOutCubicMonotone(ForwardProgress(t1, forwardStartT), ForwardProgress(t2, forwardStartT));
  }

  /** Backward fade progress: reaches 1 after the leading `backwardFraction` of the backward run. */
  function BackwardProgress(tEnd: real, backwardFraction: real): (p: real)
    requires backwardFraction != 0.0
    ensures 0.0 <= p <= 1.0
    ensures backwardFraction > 0.0 ==> (p >= 1.0 <==> 1.0 - tEnd >= backwardFraction)
  {
    var q := (1.0 - tEnd) / backwardFraction;
    assert backwardFraction > 0.0 ==> (q >= 1.0 <==> 1.0 - tEnd >= backwardFraction) by {
      assert q * backwardFraction == 1.0 - tEnd;
    }
    Clamp(q, 0.0, 1.0)
  }

  function ComputeOrbBackward(tEnd: real, backwardFraction: real): (o: BackwardPose)
    requires backwardFraction != 0.0
    ensures o.state == Exiting || o.state == Gone
    ensures o.visible <==> o.state == Exiting
    ensures backwardFraction > 0.0 ==> (o.state == Gone <==> tEnd <= 1.0 - backwardFraction)
    ensures 0.0 <= o.opacity <= 1.0 && 0.92 <= o.scale <= 1.0 && -0.12 <= o.rotZ <= 0.0
  {
    var p := BackwardProgress(tEnd, backwardFraction);
    var e := EaseInCubic(p);
    EaseInCubicRange(p);
    LerpBetween(1.0, 0.92, e);
    LerpBetween(0.0, -0.12, e);
    BackwardPose(
      state := if p >= 1.0 then Gone else Exiting,
      visible := p < 1.0,
      opacity := 1.0 - e,
      scale := Lerp(1.0, 0.92, e),
      rotZ := Lerp(0.0, -0.12, e))
  }

  /** At the start of the backward run the orb is still fully shown. */
  lemma OrbBackwardAtStart(backwardFraction: real)
    requires backwardFraction != 0.0
    ensures ComputeOrbBackward(1.0, backwardFraction) == BackwardPose(Exiting, true, 1.0, 1.0, 0.0)
  {
    assert (1.0 - 1.0) / backwardFraction == 0.0;
    assert BackwardProgress(1.0, backwardFraction) == 0.0;
    EaseInCubicEnds();
  }

  /** Once the fade fraction of the backward run is used up the orb is gone. */
  lemma OrbBackwardGoneAfterFade(tEnd: real, backwardFraction: real)
    requires backwardFraction > 0.0 && tEnd <= 1.0 - backwardFraction
    ensures ComputeOrbBackward(tEnd, backwardFraction) == BackwardPose(Gone, false, 0.0, 0.92, -0.12)
  {
    var q := (1.0 - tEnd) / backwardFraction;
    assert q * backwardFraction == 1.0 - tEnd;
    assert q >= 1.0;
    EaseInCubicEnds();
  }

  /** As `tEnd` falls during the backward run the orb only ever fades further. */
  lemma OrbBackwardOpacityMonotone(t1: real, t2: real, backwardFraction: real)
    requires backwardFraction > 0.0 && t1 <= t2
    ensures ComputeOrbBackward(t1, backwardFraction).opacity <= ComputeOrbBackward(t2, backwardFraction).opacity
  {
    var q1, q2 := (1.0 - t1) / backwardFraction, (1.0 - t2) / backwardFraction;
    assert q1 - q2 == (t2 - t1) / backwardFraction;
    ClampMonotone(q2, q1, 0.0, 1.0);
    EaseInCubicMonotone(BackwardProgress(t2, backwardFraction), BackwardProgress(t1, backwardFraction));
  }
}
