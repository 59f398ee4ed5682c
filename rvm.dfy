/** The rotating vector model (RVM) of the polarisation position angle (PPA):
    for each longitude of the profile, the angle psi0 + arctan(numer / denom)
    is brought back into [-pi/2, pi/2] by at most one half-turn and returned
    in degrees. numpy's sin, cos and arctan are not modelled; they are the
    fields of a `Trig` value, and the only facts used about them are the
    predicates below. */
module Rvm {

  /** numpy.pi: the exact value of the double nearest to pi, so that Pi / 2
      is the source's threshold `np.pi/2.` exactly. */
  const Pi: real := 3.141592653589793115997963468544185161590576171875

  /** numpy.deg2rad. */
  function DegToRad(d: real): real
  {
    d * (Pi / 180.0)
  }

  /** numpy.rad2deg. */
  function RadToDeg(r: real): real
  {
    r * (180.0 / Pi)
  }

  /** An angle in radians lies in [-pi/2, pi/2] exactly when it lies in
      [-90, 90] degrees. */
  lemma RadToDegHalfTurn(r: real)
    ensures -Pi / 2.0 <= r <= Pi / 2.0 <==> -90.0 <= RadToDeg(r) <= 90.0
    ensures r > Pi / 2.0 <==> RadToDeg(r) > 90.0
  {
  }

  /** A degree angle in [-180, 180] is a radian angle in [-pi, pi]. */
  lemma DegToRadHalfCircle(d: real)
    requires -180.0 <= d <= 180.0
    ensures -Pi <= DegToRad(d) <= Pi
  {
  }

  /** numpy's sin, cos and arctan. */
  datatype Trig = Trig(sin: real -> real, cos: real -> real, arctan: real -> real)

  /** numpy.arctan maps every real into the closed interval [-pi/2, pi/2]:
      near its asymptotes the correctly rounded result is the double
      `np.pi/2` itself. */
  ghost predicate ArctanBounded(tr: Trig)
  {
    forall v :: -Pi / 2.0 <= tr.arctan(v) <= Pi / 2.0
  }

  /** sin(0) == 0 and arctan(0) == 0. */
  ghost predicate VanishAtZero(tr: Trig)
  {
    tr.sin(0.0) == 0.0 && tr.arctan(0.0) == 0.0
  }

  /** `numer = sin(alpha) * sin(phi - phi0)`. */
  function Numerator(tr: Trig, alpha: real, phi: real, phi0: real): (numer: real)
    ensures VanishAtZero(tr) && phi == phi0 ==> numer == 0.0
  {
    tr.sin(alpha) * tr.sin(phi - phi0)
  }

  /** `denom = sin(zeta) cos(alpha) - cos(zeta) sin(alpha) cos(phi - phi0)`. */
  function Denominator(tr: Trig, alpha: real, zeta: real, phi: real, phi0: real): real
  {
    tr.sin(zeta) * tr.cos(alpha) - tr.cos(zeta) * tr.sin(alpha) * tr.cos(phi - phi0)
  }

  /** `psi = psi0 + arctan(numer / denom)`, before the wrap: within a
      quarter-turn of psi0 on either side, ends included. */
  function PreWrapAngle(tr: Trig, alpha: real, zeta: real, phi0: real, psi0: real, phi: real): (psi: real)
    requires Denominator(tr, alpha, zeta, phi, phi0) != 0.0
    ensures ArctanBounded(tr) ==> psi0 - Pi / 2.0 <= psi <= psi0 + Pi / 2.0
  {
    psi0 + tr.arctan(Numerator(tr, alpha, phi, phi0) / Denominator(tr, alpha, zeta, phi, phi0))
  }

  /** At the fiducial longitude (phi == phi0) the numerator vanishes, so the
      angle before the wrap is psi0 itself. */
  lemma FiducialPointGivesPsi0(tr: Trig, alpha: real, zeta: real, phi0: real, psi0: real)
    requires VanishAtZero(tr)
    requires Denominator(tr, alpha, zeta, phi0, phi0) != 0.0
    ensures PreWrapAngle(tr, alpha, zeta, phi0, psi0, phi0) == psi0
  {
    assert phi0 - phi0 == 0.0;
    assert Numerator(tr, alpha, phi0, phi0) == 0.0;
  }

  /** The restriction to [-pi/2, pi/2]: a half-turn is added below -pi/2 or
      subtracted above pi/2, once. Angles already inside are untouched; angles
      within three quarter-turns of 0 end inside. */
  function WrapHalfTurn(psi: real): (r: real)
    ensures -Pi / 2.0 <= psi <= Pi / 2.0 ==> r == psi
    ensures psi < -Pi / 2.0 ==> r == psi + Pi
    ensures psi > Pi / 2.0 ==> r == psi - Pi
    ensures -3.0 * Pi / 2.0 <= psi <= 3.0 * Pi / 2.0 ==> -Pi / 2.0 <= r <= Pi / 2.0
  {
    if psi < -Pi / 2.0 then psi + Pi
    else if psi > Pi / 2.0 then psi - Pi
    else psi
  }

  /** A wrapped angle is the same line orientation: it differs from the
      original by a whole number (-1, 0 or 1) of half-turns. */
  lemma WrapKeepsOrientation(psi: real)
    ensures WrapHalfTurn(psi) - psi in {-Pi, 0.0, Pi}
  {
  }

  /** Wrapping again changes nothing, for angles the wrap brings inside. */
  lemma WrapIdempotent(psi: real)
    requires -3.0 * Pi / 2.0 <= psi <= 3.0 * Pi / 2.0
    ensures WrapHalfTurn(WrapHalfTurn(psi)) == WrapHalfTurn(psi)
  {
  }

  /** The rvm function's swing, the specification of the loop: per input
      longitude x (degrees), rad2deg of the wrapped angle. Only x is
      converted to radians; alpha, phi0, psi0 and zeta = alpha + beta enter
      the trigonometry as given. */
  function PositionAngles(tr: Trig, alpha: real, beta: real, phi0: real, psi0: real, xprof: seq<real>): (allpsi: seq<real>)
    requires forall k :: 0 <= k < |xprof| ==> Denominator(tr, alpha, alpha + beta, DegToRad(xprof[k]), phi0) != 0.0
    ensures |allpsi| == |xprof|
  {
    seq(|xprof|, k requires 0 <= k < |xprof| =>
      RadToDeg(WrapHalfTurn(PreWrapAngle(tr, alpha, alpha + beta, phi0, psi0, DegToRad(xprof[k])))))
  }

  /** rvm(alpha, beta, phi0, psi0, psi, xprof). The four-angle conversion is
      computed and never read; the `psi` argument is overwritten before it is
      read, so the result does not depend on it. */
  method Rvm(tr: Trig, alpha: real, beta: real, phi0: real, psi0: real, psi: real, xprof: seq<real>)
    returns (allpsi: seq<real>)
    requires forall k :: 0 <= k < |xprof| ==> Denominator(tr, alpha, alpha + beta, DegToRad(xprof[k]), phi0) != 0.0
    ensures |allpsi| == |xprof|
    ensures allpsi == PositionAngles(tr, alpha, beta, phi0, psi0, xprof)
  {
    var angles := [alpha, beta, phi0, psi0];
    var angRad := seq(|angles|, i requires 0 <= i < |angles| => DegToRad(angles[i]));
    var zeta := alpha + beta;
    var numpts := |xprof|;
    allpsi := [];
    var p := psi;
    for point := 1 to numpts + 1
      invariant |allpsi| == point - 1
      invariant allpsi == PositionAngles(tr, alpha, beta, phi0, psi0, xprof)[..point - 1]
    {
      var phi := DegToRad(xprof[point - 1]);
      var numer := tr.sin(alpha) * tr.sin(phi - phi0);
      var denom := tr.sin(zeta) * tr.cos(alpha) - tr.cos(zeta) * tr.sin(alpha) * tr.cos(phi - phi0);
      assert numer == Numerator(tr, alpha, phi, phi0) && denom == Denominator(tr, alpha, zeta, phi, phi0);
      p := psi0 + tr.arctan(numer / denom);
      ghost var pre := p;
      if p < -Pi / 2.0 {
        p := p + Pi;
      }
      if p > Pi / 2.0 {
        p := p - Pi;
      }
      assert p == WrapHalfTurn(pre);
      allpsi := allpsi + [RadToDeg(p)];
    }
  }

  /** Every sample depends on its own longitude only: dropping longitudes
      from the end drops the same samples, in input order. */
  lemma PositionAnglesPrefix(tr: Trig, alpha: real, beta: real, phi0: real, psi0: real, xprof: seq<real>, n: nat)
    requires n <= |xprof|
    requires forall k :: 0 <= k < |xprof| ==> Denominator(tr, alpha, alpha + beta, DegToRad(xprof[k]), phi0) != 0.0
    ensures PositionAngles(tr, alpha, beta, phi0, psi0, xprof[..n]) == PositionAngles(tr, alpha, beta, phi0, psi0, xprof)[..n]
  {
  }

  /** The swing as written: psi0 is added, in degrees, to an arctan in
      radians. With the demo's psi0 = 15 the angle before the wrap lies in
      (15 - pi/2, 15 + pi/2), one half-turn does not bring it under pi/2, and
      every output exceeds 90 degrees. */
  lemma DegreeOffsetLeavesHalfTurn(tr: Trig, alpha: real, beta: real, phi0: real, xprof: seq<real>)
    requires ArctanBounded(tr)
    requires forall k :: 0 <= k < |xprof| ==> Denominator(tr, alpha, alpha + beta, DegToRad(xprof[k]), phi0) != 0.0
    ensures forall k :: 0 <= k < |xprof| ==> PositionAngles(tr, alpha, beta, phi0, 15.0, xprof)[k] > 90.0
  {
    forall k | 0 <= k < |xprof|
      ensures PositionAngles(tr, alpha, beta, phi0, 15.0, xprof)[k] > 90.0
    {
      var pre := PreWrapAngle(tr, alpha, alpha + beta, phi0, 15.0, DegToRad(xprof[k]));
      assert pre > Pi / 2.0;
      RadToDegHalfTurn(WrapHalfTurn(pre));
    }
  }

  /** The swing as evidently intended: alpha, beta, phi0 and psi0 in
      radians too, zeta the sum of the converted alpha and beta. */
  function CorrectedPositionAngles(tr: Trig, alpha: real, beta: real, phi0: real, psi0: real, xprof: seq<real>)
    : (allpsi: seq<real>)
    requires forall k :: 0 <= k < |xprof| ==>
      Denominator(tr, DegToRad(alpha), DegToRad(alpha) + DegToRad(beta), DegToRad(xprof[k]), DegToRad(phi0)) != 0.0
    ensures |allpsi| == |xprof|
  {
    seq(|xprof|, k requires 0 <= k < |xprof| =>
      RadToDeg(WrapHalfTurn(PreWrapAngle(tr, DegToRad(alpha), DegToRad(alpha) + DegToRad(beta), DegToRad(phi0),
                                         DegToRad(psi0), DegToRad(xprof[k])))))
  }

  /** rvm with the conversion used: the same loop over the converted angles. */
  method RvmCorrected(tr: Trig, alpha: real, beta: real, phi0: real, psi0: real, psi: real, xprof: seq<real>)
    returns (allpsi: seq<real>)
    requires forall k :: 0 <= k < |xprof| ==>
      Denominator(tr, DegToRad(alpha), DegToRad(alpha) + DegToRad(beta), DegToRad(xprof[k]), DegToRad(phi0)) != 0.0
    ensures |allpsi| == |xprof|
    ensures allpsi == CorrectedPositionAngles(tr, alpha, beta, phi0, psi0, xprof)
  {
    var alphaRad, betaRad, phi0Rad, psi0Rad := DegToRad(alpha), DegToRad(beta), DegToRad(phi0), DegToRad(psi0);
    var zeta := alphaRad + betaRad;
    allpsi := [];
    var p := psi;
    for point := 1 to |xprof| + 1
      invariant allpsi == CorrectedPositionAngles(tr, alpha, beta, phi0, psi0, xprof)[..point - 1]
    {
      var phi := DegToRad(xprof[point - 1]);
      var numer := tr.sin(alphaRad) * tr.sin(phi - phi0Rad);
      var denom := tr.sin(zeta) * tr.cos(alphaRad) - tr.cos(zeta) * tr.sin(alphaRad) * tr.cos(phi - phi0Rad);
      assert numer == Numerator(tr, alphaRad, phi, phi0Rad) && denom == Denominator(tr, alphaRad, zeta, phi, phi0Rad);
      p := psi0Rad + tr.arctan(numer / denom);
      ghost var pre := p;
      if p < -Pi / 2.0 {
        p := p + Pi;
      }
      if p > Pi / 2.0 {
        p := p - Pi;
      }
      assert p == WrapHalfTurn(pre);
      allpsi := allpsi + [RadToDeg(p)];
    }
  }

  /** With the conversion used, every position angle of a psi0 within
      [-180, 180] degrees lands in [-90, 90] degrees. */
  lemma CorrectedAnglesWithinHalfTurn(tr: Trig, alpha: real, beta: real, phi0: real, psi0: real, xprof: seq<real>)
    requires ArctanBounded(tr)
    requires -180.0 <= psi0 <= 180.0
    requires forall k :: 0 <= k < |xprof| ==>
      Denominator(tr, DegToRad(alpha), DegToRad(alpha) + DegToRad(beta), DegToRad(xprof[k]), DegToRad(phi0)) != 0.0
    ensures forall k :: 0 <= k < |xprof| ==> -90.0 <= CorrectedPositionAngles(tr, alpha, beta, phi0, psi0, xprof)[k] <= 90.0
  {
    DegToRadHalfCircle(psi0);
    forall k | 0 <= k < |xprof|
      ensures -90.0 <= CorrectedPositionAngles(tr, alpha, beta, phi0, psi0, xprof)[k] <= 90.0
    {
      var pre := PreWrapAngle(tr, DegToRad(alpha), DegToRad(alpha) + DegToRad(beta), DegToRad(phi0), DegToRad(psi0),
                              DegToRad(xprof[k]));
      assert -3.0 * Pi / 2.0 <= pre <= 3.0 * Pi / 2.0;
      RadToDegHalfTurn(WrapHalfTurn(pre));
    }
  }

  /** The closed bound is reached: an arctan that returns the double
      `np.pi/2` is admitted, and at psi0 = 180 the corrected swing then sits
      on the 90 degree edge, inside [-90, 90]. */
  lemma SaturatedArctanMeetsEdge(tr: Trig, alpha: real, beta: real, phi0: real, xprof: seq<real>)
    requires forall v :: tr.arctan(v) == Pi / 2.0
    requires forall k :: 0 <= k < |xprof| ==>
      Denominator(tr, DegToRad(alpha), DegToRad(alpha) + DegToRad(beta), DegToRad(xprof[k]), DegToRad(phi0)) != 0.0
    ensures ArctanBounded(tr)
    ensures forall k :: 0 <= k < |xprof| ==> CorrectedPositionAngles(tr, alpha, beta, phi0, 180.0, xprof)[k] == 90.0
  {
    assert DegToRad(180.0) == Pi;
    assert RadToDeg(Pi / 2.0) == 90.0;
  }
}
