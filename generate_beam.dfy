/** The `generateBeam` function: for one frequency, every patch of every
    emission component adds a Gaussian kernel, cut off by a hard mask, into
    a dense 2D grid Z; the 1D profile is then read off Z at the truncated
    grid indices of the line-of-sight samples. */
module GenerateBeam {
  import opened Numeric
  import opened BeamModel

  const XMin: real := -180.0
  const XMax: real := 180.0
  const YMin: real := -180.0
  const YMax: real := 180.0
  /** `res = 1e3`: cells per grid axis, and line-of-sight samples. */
  const Res: nat := 1000
  /** The index step the profile gather divides by: (xmax - xmin) / res. */
  const Dx: real := (XMax - XMin) / Res as real
  const Dy: real := (YMax - YMin) / Res as real
  /** `peakAmp`: the value every surviving mask cell is set to. */
  const PeakAmp: real := 1.0
  /** The cut-off radius, in patch widths. */
  const Cutoff: real := 3.0

  /** `x = np.linspace(xmin, xmax, num=res)`: coordinate of grid column j
      (meshgrid puts x along the second axis of Z). */
  const GridX: seq<real> := Linspace(XMin, XMax, Res)
  /** Coordinate of grid row i. */
  const GridY: seq<real> := Linspace(YMin, YMax, Res)

  /** What the bm helpers hand generateBeam: per component (one per
      emission height) its patch width, the x and y of its patch centres and
      its aberration offset; and whether do_ab is set. */
  datatype Patches = Patches(
    widths: seq<real>,
    centerX: seq<seq<real>>,
    centerY: seq<seq<real>>,
    abX: seq<real>,
    abY: seq<real>,
    components: nat,
    aberrate: bool)
  {
    /** Every index the loops use exists (the offsets are only read when
        do_ab is set), and every patch width is positive. Positivity is an
        assumption about bm.patch_width: a zero width divides by zero, and a
        negative one masks every off-centre cell (NegativeWidthMasksOffCentre). */
    predicate Valid()
    {
      && |widths| >= components
      && |centerX| >= components
      && |centerY| >= components
      && (aberrate ==> |abX| >= components && |abY| >= components)
      && forall c :: 0 <= c < components ==> widths[c] > 0.0
    }

    /** `zip(patchCenterX, patchCenterY)` stops at the shorter list. */
    function PatchCount(c: nat): (n: nat)
      requires Valid() && c < components
      ensures n <= |centerX[c]| && n <= |centerY[c]|
      ensures n == |centerX[c]| || n == |centerY[c]|
    {
      if |centerX[c]| <= |centerY[c]| then |centerX[c]| else |centerY[c]|
    }
  }

  /** The source's two np.where steps applied to one scaled distance
      d = dist / sigma: values above 3 are set to 0, then every non-zero value
      becomes PeakAmp. */
  function ScaledDistanceMask(d: real): (m: real)
    ensures m == 0.0 || m == PeakAmp
    ensures m == PeakAmp <==> d != 0.0 && d <= Cutoff
  {
    var clipped := if d > Cutoff then 0.0 else d;
    if clipped != 0.0 then PeakAmp else 0.0
  }

  /** With a negative width the scaled distance is never above 3, so every
      cell off the centre gets PeakAmp: the mask covers the whole grid. */
  lemma NegativeWidthMasksOffCentre(dist: real, sigma: real)
    requires sigma < 0.0 < dist
    ensures ScaledDistanceMask(dist / sigma) == PeakAmp
  {
    ProductPositive(dist, -1.0 / sigma);
    assert dist / sigma == -(dist * (-1.0 / sigma));
  }

  /** The squared distance from a patch centre at offset (ox, oy). */
  function SquaredDistance(ox: real, oy: real): (d2: real)
    ensures d2 >= 0.0
  {
    SquareNonNegative(ox);
    SquareNonNegative(oy);
    ox * ox + oy * oy
  }

  /** The same mask on the squared distance d2, with the square root
      replaced by the squared test: PeakAmp exactly when 0 < dist <= 3 sigma,
      so the cell AT the patch centre (d2 == 0) gets 0. */
  function Mask(d2: real, sigma: real): (m: real)
    requires sigma > 0.0
    ensures m == 0.0 || m == PeakAmp
    ensures m == PeakAmp <==> d2 != 0.0 && d2 <= Cutoff * Cutoff * sigma * sigma
    ensures d2 == 0.0 ==> m == 0.0
  {
    var clipped := if d2 > Cutoff * Cutoff * sigma * sigma then 0.0 else d2;
    if clipped != 0.0 then PeakAmp else 0.0
  }

  /** The squared test agrees with the source's test on dist / sigma, for
      dist the non-negative square root of d2. */
  lemma MaskMatchesScaledDistance(d2: real, sigma: real, dist: real)
    requires sigma > 0.0 && dist >= 0.0 && dist * dist == d2
    ensures Mask(d2, sigma) == ScaledDistanceMask(dist / sigma)
  {
    var d := dist / sigma;
    var r := Cutoff * sigma;
    assert dist == d * sigma;
    assert Cutoff * Cutoff * sigma * sigma == r * r;
    if d > Cutoff {
      assert dist > r by {
        assert dist - r == (d - Cutoff) * sigma;
        ProductPositive(d - Cutoff, sigma);
      }
      SquareStrictlyMonotone(r, dist);
    } else {
      assert dist <= r by {
        assert r - dist == (Cutoff - d) * sigma;
        ProductNonNegative(Cutoff - d, sigma);
      }
      SquareMonotone(dist, r);
      if dist > 0.0 {
        ProductPositive(dist, dist);
        ProductPositive(d * sigma, 1.0 / sigma);
        assert d > 0.0;
      } else {
        assert d == 0.0;
      }
    }
  }

  lemma ProductPositive(a: real, b: real)
    requires a > 0.0 && b > 0.0
    ensures a * b > 0.0
  {
  }

  lemma ProductNonNegative(a: real, b: real)
    requires a >= 0.0 && b >= 0.0
    ensures a * b >= 0.0
  {
  }

  lemma SquareNonNegative(a: real)
    ensures a * a >= 0.0
  {
    if a > 0.0 {
      ProductPositive(a, a);
    } else if a < 0.0 {
      ProductPositive(-a, -a);
    }
  }

  lemma SquareStrictlyMonotone(a: real, b: real)
    requires 0.0 <= a < b
    ensures a * a < b * b
  {
    ProductPositive(b - a, b + a);
    assert b * b - a * a == (b - a) * (b + a);
  }

  lemma SquareMonotone(a: real, b: real)
    requires 0.0 <= a <= b
    ensures a * a <= b * b
  {
    ProductNonNegative(b - a, b + a);
    assert b * b - a * a == (b - a) * (b + a);
  }

  /** `np.exp(-((X - cx)**2 / (2 sigmax**2) + (Y - cy)**2 / (2 sigmay**2)))`
      at the kernel offset (u, v), with sigmax == sigmay == sigma. */
  function Kernel(exp: real -> real, u: real, v: real, sigma: real): (g: real)
    requires sigma > 0.0
    ensures PositiveKernel(exp) ==> g > 0.0
  {
    exp(-(u * u / (2.0 * sigma * sigma) + v * v / (2.0 * sigma * sigma)))
  }

  /** The kernel centre's shift along x: ab_xofset[cid] when do_ab is set. */
  function KernelShiftX(s: Patches, c: nat): real
    requires s.Valid() && c < s.components
  {
    if s.aberrate then s.abX[c] else 0.0
  }

  function KernelShiftY(s: Patches, c: nat): real
    requires s.Valid() && c < s.components
  {
    if s.aberrate then s.abY[c] else 0.0
  }

  /** The mask of patch p of component c at point (x, y): always around the
      unshifted centre. */
  function PatchMask(s: Patches, c: nat, p: nat, x: real, y: real): (m: real)
    requires s.Valid() && c < s.components && p < s.PatchCount(c)
    ensures m == 0.0 || m == PeakAmp
    ensures x == s.centerX[c][p] && y == s.centerY[c][p] ==> m == 0.0
  {
    Mask(SquaredDistance(x - s.centerX[c][p], y - s.centerY[c][p]), s.widths[c])
  }

  /** What patch p of component c adds at (x, y): mask times kernel, the
      kernel centred on the (possibly aberration-shifted) patch centre. */
  function Contribution(s: Patches, exp: real -> real, c: nat, p: nat, x: real, y: real): (r: real)
    requires s.Valid() && c < s.components && p < s.PatchCount(c)
    ensures PatchMask(s, c, p, x, y) == 0.0 ==> r == 0.0
    ensures PositiveKernel(exp) ==> r >= 0.0 && (r > 0.0 <==> PatchMask(s, c, p, x, y) == PeakAmp)
  {
    PatchMask(s, c, p, x, y)
      * Kernel(exp, x - s.centerX[c][p] - KernelShiftX(s, c), y - s.centerY[c][p] - KernelShiftY(s, c), s.widths[c])
  }

  /** Sum of the first k patches of component c at (x, y), in loop order. */
  function PatchesSum(s: Patches, exp: real -> real, c: nat, k: nat, x: real, y: real): real
    requires s.Valid() && c < s.components && k <= s.PatchCount(c)
    decreases k
  {
    if k == 0 then 0.0
    else PatchesSum(s, exp, c, k - 1, x, y) + Contribution(s, exp, c, k - 1, x, y)
  }

  /** Sum of all patches of the first m components at (x, y). */
  function ComponentsSum(s: Patches, exp: real -> real, m: nat, x: real, y: real): real
    requires s.Valid() && m <= s.components
    decreases m
  {
    if m == 0 then 0.0
    else ComponentsSum(s, exp, m - 1, x, y) + PatchesSum(s, exp, m - 1, s.PatchCount(m - 1), x, y)
  }

  /** The beam at (x, y): every masked contribution of every patch. */
  function BeamValue(s: Patches, exp: real -> real, x: real, y: real): real
    requires s.Valid()
  {
    ComponentsSum(s, exp, s.components, x, y)
  }

  /** Some patch's mask is non-zero at (x, y). */
  ghost predicate Covered(s: Patches, x: real, y: real)
    requires s.Valid()
  {
    exists c, p :: 0 <= c < s.components && 0 <= p < s.PatchCount(c) && PatchMask(s, c, p, x, y) == PeakAmp
  }

  lemma {:induction false} PatchesSumUncovered(s: Patches, exp: real -> real, c: nat, k: nat, x: real, y: real)
    requires s.Valid() && c < s.components && k <= s.PatchCount(c)
    requires forall p :: 0 <= p < k ==> PatchMask(s, c, p, x, y) == 0.0
    ensures PatchesSum(s, exp, c, k, x, y) == 0.0
  {
    if k > 0 {
      PatchesSumUncovered(s, exp, c, k - 1, x, y);
    }
  }

  lemma {:induction false} ComponentsSumUncovered(s: Patches, exp: real -> real, m: nat, x: real, y: real)
    requires s.Valid() && m <= s.components
    requires forall c, p :: 0 <= c < m && 0 <= p < s.PatchCount(c) ==> PatchMask(s, c, p, x, y) == 0.0
    ensures ComponentsSum(s, exp, m, x, y) == 0.0
  {
    if m > 0 {
      ComponentsSumUncovered(s, exp, m - 1, x, y);
      PatchesSumUncovered(s, exp, m - 1, s.PatchCount(m - 1), x, y);
    }
  }

  /** The beam is exactly zero wherever no patch's mask is set: beyond 3
      widths of every centre (or exactly on one), whatever the kernel. */
  lemma BeamZeroWhereUncovered(s: Patches, exp: real -> real, x: real, y: real)
    requires s.Valid() && !Covered(s, x, y)
    ensures BeamValue(s, exp, x, y) == 0.0
  {
    forall c, p | 0 <= c < s.components && 0 <= p < s.PatchCount(c)
      ensures PatchMask(s, c, p, x, y) == 0.0
    {
      assert PatchMask(s, c, p, x, y) != PeakAmp;
    }
    ComponentsSumUncovered(s, exp, s.components, x, y);
  }

  lemma {:induction false} PatchesSumSign(s: Patches, exp: real -> real, c: nat, k: nat, x: real, y: real)
    requires s.Valid() && c < s.components && k <= s.PatchCount(c) && PositiveKernel(exp)
    ensures PatchesSum(s, exp, c, k, x, y) >= 0.0
    ensures PatchesSum(s, exp, c, k, x, y) > 0.0 <==> exists p :: 0 <= p < k && PatchMask(s, c, p, x, y) == PeakAmp
  {
    if k > 0 {
      PatchesSumSign(s, exp, c, k - 1, x, y);
      var g := Kernel(exp, x - s.centerX[c][k - 1] - KernelShiftX(s, c), y - s.centerY[c][k - 1] - KernelShiftY(s, c), s.widths[c]);
      assert g > 0.0;
      assert Contribution(s, exp, c, k - 1, x, y) == PatchMask(s, c, k - 1, x, y) * g;
    }
  }

  lemma {:induction false} ComponentsSumSign(s: Patches, exp: real -> real, m: nat, x: real, y: real)
    requires s.Valid() && m <= s.components && PositiveKernel(exp)
    ensures ComponentsSum(s, exp, m, x, y) >= 0.0
    ensures ComponentsSum(s, exp, m, x, y) > 0.0 <==>
      exists c, p :: 0 <= c < m && 0 <= p < s.PatchCount(c) && PatchMask(s, c, p, x, y) == PeakAmp
  {
    if m > 0 {
      ComponentsSumSign(s, exp, m - 1, x, y);
      PatchesSumSign(s, exp, m - 1, s.PatchCount(m - 1), x, y);
    }
  }

  /** With a positive kernel the beam is non-negative everywhere and
      positive exactly on the union of the patches' mask supports. */
  lemma BeamPositiveIffCovered(s: Patches, exp: real -> real, x: real, y: real)
    requires s.Valid() && PositiveKernel(exp)
    ensures BeamValue(s, exp, x, y) >= 0.0
    ensures BeamValue(s, exp, x, y) > 0.0 <==> Covered(s, x, y)
  {
    ComponentsSumSign(s, exp, s.components, x, y);
  }

  lemma {:induction false} PatchesSumAgree(s: Patches, t: Patches, exp: real -> real, c: nat, k: nat, x: real, y: real)
    requires s.Valid() && t.Valid() && s.components == t.components && c < s.components
    requires s.widths == t.widths && s.centerX == t.centerX && s.centerY == t.centerY
    requires KernelShiftX(s, c) == KernelShiftX(t, c) && KernelShiftY(s, c) == KernelShiftY(t, c)
    requires k <= s.PatchCount(c)
    ensures PatchesSum(s, exp, c, k, x, y) == PatchesSum(t, exp, c, k, x, y)
  {
    if k > 0 {
      PatchesSumAgree(s, t, exp, c, k - 1, x, y);
    }
  }

  lemma {:induction false} ComponentsSumAgree(s: Patches, t: Patches, exp: real -> real, m: nat, x: real, y: real)
    requires s.Valid() && t.Valid() && s.components == t.components && m <= s.components
    requires s.widths == t.widths && s.centerX == t.centerX && s.centerY == t.centerY
    requires forall c :: 0 <= c < m ==> KernelShiftX(s, c) == KernelShiftX(t, c) && KernelShiftY(s, c) == KernelShiftY(t, c)
    ensures ComponentsSum(s, exp, m, x, y) == ComponentsSum(t, exp, m, x, y)
  {
    if m > 0 {
      ComponentsSumAgree(s, t, exp, m - 1, x, y);
      PatchesSumAgree(s, t, exp, m - 1, s.PatchCount(m - 1), x, y);
    }
  }

  /** With do_ab unset the aberration offsets play no part in the beam. */
  lemma NoAberrationIgnoresOffsets(s: Patches, exp: real -> real, abX: seq<real>, abY: seq<real>, x: real, y: real)
    requires s.Valid() && !s.aberrate
    ensures s.(abX := abX, abY := abY).Valid()
    ensures BeamValue(s, exp, x, y) == BeamValue(s.(abX := abX, abY := abY), exp, x, y)
  {
    ComponentsSumAgree(s, s.(abX := abX, abY := abY), exp, s.components, x, y);
  }

  /** Aberration shifts only the kernel, never the mask: with a positive
      kernel, turning do_ab on or off changes no cell from zero to non-zero
      or back. */
  lemma AberrationKeepsSupport(s: Patches, exp: real -> real, x: real, y: real)
    requires s.Valid() && s.aberrate && PositiveKernel(exp)
    ensures s.(aberrate := false).Valid()
    ensures BeamValue(s, exp, x, y) > 0.0 <==> BeamValue(s.(aberrate := false), exp, x, y) > 0.0
  {
    var t := s.(aberrate := false);
    BeamPositiveIffCovered(s, exp, x, y);
    BeamPositiveIffCovered(t, exp, x, y);
    forall c, p | 0 <= c < s.components && 0 <= p < s.PatchCount(c)
      ensures PatchMask(s, c, p, x, y) == PatchMask(t, c, p, x, y)
    {
    }
    assert Covered(s, x, y) <==> Covered(t, x, y);
  }

  /** `Z += distance * np.exp(...)` for one patch, cell by cell: each cell
      gains that patch's masked contribution; cells with mask 0 keep their
      value. */
  method AddPatch(Z: array2<real>, s: Patches, exp: real -> real, c: nat, p: nat)
    requires s.Valid() && c < s.components && p < s.PatchCount(c)
    requires Z.Length0 == Res && Z.Length1 == Res
    modifies Z
    ensures forall i, j :: 0 <= i < Res && 0 <= j < Res ==>
      Z[i, j] == old(Z[i, j]) + Contribution(s, exp, c, p, GridX[j], GridY[i])
    ensures forall i, j :: 0 <= i < Res && 0 <= j < Res && PatchMask(s, c, p, GridX[j], GridY[i]) == 0.0 ==>
      Z[i, j] == old(Z[i, j])
  {
    var i := 0;
    while i < Res
      invariant 0 <= i <= Res
      invariant forall i', j' :: 0 <= i' < i && 0 <= j' < Res ==>
        Z[i', j'] == old(Z[i', j']) + Contribution(s, exp, c, p, GridX[j'], GridY[i'])
      invariant forall i', j' :: i <= i' < Res && 0 <= j' < Res ==> Z[i', j'] == old(Z[i', j'])
    {
      AddPatchRow(Z, s, exp, c, p, i);
      i := i + 1;
    }
  }

  /** The same update restricted to row i of Z; every other row is kept. */
  method AddPatchRow(Z: array2<real>, s: Patches, exp: real -> real, c: nat, p: nat, i: nat)
    requires s.Valid() && c < s.components && p < s.PatchCount(c)
    requires Z.Length0 == Res && Z.Length1 == Res && i < Res
    modifies Z
    ensures forall j :: 0 <= j < Res ==> Z[i, j] == old(Z[i, j]) + Contribution(s, exp, c, p, GridX[j], GridY[i])
    ensures forall i', j :: 0 <= i' < Res && i' != i && 0 <= j < Res ==> Z[i', j] == old(Z[i', j])
  {
    var j := 0;
    while j < Res
      invariant 0 <= j <= Res
      invariant forall j' :: 0 <= j' < j ==> Z[i, j'] == old(Z[i, j']) + Contribution(s, exp, c, p, GridX[j'], GridY[i])
      invariant forall i', j' :: 0 <= i' < Res && 0 <= j' < Res && (i' != i || j' >= j) ==> Z[i', j'] == old(Z[i', j'])
    {
      Z[i, j] := Z[i, j] + Contribution(s, exp, c, p, GridX[j], GridY[i]);
      j := j + 1;
    }
  }

  /** The inner `for pc` loop: every patch of component c in turn. */
  method AddComponent(Z: array2<real>, s: Patches, exp: real -> real, c: nat)
    requires s.Valid() && c < s.components
    requires Z.Length0 == Res && Z.Length1 == Res
    modifies Z
    ensures forall i, j :: 0 <= i < Res && 0 <= j < Res ==>
      Z[i, j] == old(Z[i, j]) + PatchesSum(s, exp, c, s.PatchCount(c), GridX[j], GridY[i])
  {
    var p := 0;
    while p < s.PatchCount(c)
      invariant 0 <= p <= s.PatchCount(c)
      invariant forall i, j :: 0 <= i < Res && 0 <= j < Res ==>
        Z[i, j] == old(Z[i, j]) + PatchesSum(s, exp, c, p, GridX[j], GridY[i])
    {
      AddPatch(Z, s, exp, c, p);
      p := p + 1;
    }
  }

  /** The outer `for cid` loop: after it every cell holds its old value
      plus the beam, the sum of all masked contributions. */
  method AccumulatePatches(Z: array2<real>, s: Patches, exp: real -> real)
    requires s.Valid()
    requires Z.Length0 == Res && Z.Length1 == Res
    modifies Z
    ensures forall i, j :: 0 <= i < Res && 0 <= j < Res ==>
      Z[i, j] == old(Z[i, j]) + BeamValue(s, exp, GridX[j], GridY[i])
  {
    var c := 0;
    while c < s.components
      invariant 0 <= c <= s.components
      invariant forall i, j :: 0 <= i < Res && 0 <= j < Res ==>
        Z[i, j] == old(Z[i, j]) + ComponentsSum(s, exp, c, GridX[j], GridY[i])
    {
      AddComponent(Z, s, exp, c);
      c := c + 1;
    }
  }

  /** `np.array((coord - lo) / step, dtype=int)` for one sample. */
  function LosIndex(coord: real, lo: real, step: real): int
    requires step != 0.0
  {
    TruncateToInt((coord - lo) / step)
  }

  /** numpy accepts t as an index into an axis of length Res; negative
      indices count back from the end. No clamping is done. */
  predicate IndexAccepted(t: int)
  {
    -(Res as int) <= t < Res
  }

  /** The cell numpy reads for an accepted index. */
  function AxisPosition(t: int): (r: nat)
    requires IndexAccepted(t)
    ensures r < Res
  {
    if t < 0 then t + Res else t
  }

  /** Row read for a line-of-sight x: the first index of Z. */
  function LosRow(xc: real): (r: nat)
    requires IndexAccepted(LosIndex(xc, XMin, Dx))
    ensures r < Res
  {
    AxisPosition(LosIndex(xc, XMin, Dx))
  }

  /** Column read for a line-of-sight y: the second index of Z. */
  function LosColumn(yc: real): (r: nat)
    requires IndexAccepted(LosIndex(yc, YMin, Dy))
    ensures r < Res
  {
    AxisPosition(LosIndex(yc, YMin, Dy))
  }

  /** Every line-of-sight sample indexes Z without an IndexError. */
  predicate LosInGrid(xlos: seq<real>, ylos: seq<real>)
  {
    && |xlos| == |ylos|
    && forall k :: 0 <= k < |xlos| ==>
         IndexAccepted(LosIndex(xlos[k], XMin, Dx)) && IndexAccepted(LosIndex(ylos[k], YMin, Dy))
  }

  /** A line-of-sight x lands on a true (non-wrapped) row exactly when it
      lies in (xmin - dx, xmax); numpy accepts it at all exactly when it lies
      in (xmin - (res + 1) dx, xmax). Likewise for y. Truncation toward zero
      is why the lower bound sits one step below xmin. */
  lemma LosIndexBounds(xc: real, yc: real)
    ensures 0 <= LosIndex(xc, XMin, Dx) < Res <==> XMin - Dx < xc < XMax
    ensures IndexAccepted(LosIndex(xc, XMin, Dx)) <==> XMin - (Res + 1) as real * Dx < xc < XMax
    ensures 0 <= LosIndex(yc, YMin, Dy) < Res <==> YMin - Dy < yc < YMax
    ensures IndexAccepted(LosIndex(yc, YMin, Dy)) <==> YMin - (Res + 1) as real * Dy < yc < YMax
  {
    AxisIndexBounds(xc);
    AxisIndexBounds(yc);
  }

  /** Both axes span [-180, 180] in steps of 360 / res, so one coordinate
      lemma serves both. */
  lemma AxisIndexBounds(c: real)
    ensures 0 <= LosIndex(c, XMin, Dx) < Res <==> XMin - Dx < c < XMax
    ensures IndexAccepted(LosIndex(c, XMin, Dx)) <==> XMin - (Res + 1) as real * Dx < c < XMax
  {
    var v := (c - XMin) / Dx;
    assert Dx == 0.36;
    assert v == (c + 180.0) / 0.36;
    TruncateInRange(v, Res);
    TruncateAboveNegated(v, Res);
  }

  /** `prof = Z[ZxIdx, ZyIdx]`: one value per line-of-sight sample, read at
      the truncated indices. */
  method GatherProfile(Z: array2<real>, xlos: seq<real>, ylos: seq<real>) returns (prof: seq<real>)
    requires Z.Length0 == Res && Z.Length1 == Res
    requires LosInGrid(xlos, ylos)
    ensures |prof| == |xlos|
    ensures forall k :: 0 <= k < |xlos| ==> prof[k] == Z[LosRow(xlos[k]), LosColumn(ylos[k])]
  {
    prof := [];
    var k := 0;
    while k < |xlos|
      invariant 0 <= k <= |xlos|
      invariant |prof| == k
      invariant forall k' :: 0 <= k' < k ==> prof[k'] == Z[LosRow(xlos[k']), LosColumn(ylos[k'])]
    {
      prof := prof + [Z[LosRow(xlos[k]), LosColumn(ylos[k])]];
      k := k + 1;
    }
  }

  /** What the bm helpers return for one call of generateBeam. */
  function SetupOf(bm: Helpers, P: real, alpha: real, heights: seq<real>, npatch: int, iseed: int,
                   fanBeam: bool, doAb: bool): (s: Patches)
    ensures s.components == |heights| && s.aberrate == doAb
  {
    var centres := bm.patchCenter(P, heights, npatch, iseed, fanBeam);
    var offsets := bm.aberration(heights, P, alpha);
    Patches(bm.patchWidth(P, heights), centres.0, centres.1, offsets.0, offsets.1, |heights|, doAb)
  }

  /** The source's preconditions on what the helpers return: one entry per
      height, positive widths, and a line of sight that indexes Z. */
  predicate BeamInputsOk(bm: Helpers, P: real, alpha: real, beta: real, heights: seq<real>, npatch: int,
                         iseed: int, fanBeam: bool, doAb: bool)
  {
    && SetupOf(bm, P, alpha, heights, npatch, iseed, fanBeam, doAb).Valid()
    && LosInGrid(bm.los(alpha, beta, Res).0, bm.los(alpha, beta, Res).1)
  }

  /** The profile sample for line-of-sight point (xc, yc): Z at row from xc
      and column from yc, i.e. the beam at grid x of the column and grid y of
      the row. */
  function SampleAt(s: Patches, exp: real -> real, xc: real, yc: real): real
    requires s.Valid()
    requires IndexAccepted(LosIndex(xc, XMin, Dx)) && IndexAccepted(LosIndex(yc, YMin, Dy))
  {
    BeamValue(s, exp, GridX[LosColumn(yc)], GridY[LosRow(xc)])
  }

  /** The profile generateBeam returns, as a function of the helpers' outputs. */
  function ProfileOf(s: Patches, exp: real -> real, xlos: seq<real>, ylos: seq<real>): (r: seq<real>)
    requires s.Valid() && LosInGrid(xlos, ylos)
    ensures |r| == |xlos|
  {
    seq(|xlos|, k requires 0 <= k < |xlos| => SampleAt(s, exp, xlos[k], ylos[k]))
  }

  /** Every profile sample is non-negative, and positive exactly when the
      grid cell it reads is covered by some patch's mask. */
  lemma ProfileSignFollowsCoverage(s: Patches, exp: real -> real, xlos: seq<real>, ylos: seq<real>, k: nat)
    requires s.Valid() && LosInGrid(xlos, ylos) && PositiveKernel(exp) && k < |xlos|
    ensures ProfileOf(s, exp, xlos, ylos)[k] >= 0.0
    ensures ProfileOf(s, exp, xlos, ylos)[k] > 0.0 <==> Covered(s, GridX[LosColumn(ylos[k])], GridY[LosRow(xlos[k])])
  {
    BeamPositiveIffCovered(s, exp, GridX[LosColumn(ylos[k])], GridY[LosRow(xlos[k])]);
  }

  /** Z is a Res x Res grid holding the beam of s in every cell: row i is
      grid y number i, column j grid x number j. */
  ghost predicate HoldsBeam(Z: array2<real>, s: Patches, exp: real -> real)
    reads Z
  {
    && s.Valid()
    && Z.Length0 == Res && Z.Length1 == Res
    && forall i, j :: 0 <= i < Res && 0 <= j < Res ==> Z[i, j] == BeamValue(s, exp, GridX[j], GridY[i])
  }

  /** generateBeam(P, alpha, beta, freq, dm, heights, npatch, snr, do_ab,
      iseed, fanBeam): a fresh Res x Res beam holding, in every cell, the sum
      of all masked patch contributions, and the profile read from it along
      the line of sight. freq, dm and snr are accepted and not used. */
  method GenerateBeam(bm: Helpers, exp: real -> real, P: real, alpha: real, beta: real, freq: real, dm: real,
                      heights: seq<real>, npatch: int, snr: Option<real>, doAb: bool, iseed: int, fanBeam: bool)
    returns (prof: seq<real>, Z: array2<real>)
    requires BeamInputsOk(bm, P, alpha, beta, heights, npatch, iseed, fanBeam, doAb)
    ensures fresh(Z) && HoldsBeam(Z, SetupOf(bm, P, alpha, heights, npatch, iseed, fanBeam, doAb), exp)
    ensures prof == ProfileOf(SetupOf(bm, P, alpha, heights, npatch, iseed, fanBeam, doAb), exp,
                              bm.los(alpha, beta, Res).0, bm.los(alpha, beta, Res).1)
  {
    Z := new real[Res, Res]((i, j) => 0.0);
    var patchWidths := bm.patchWidth(P, heights);
    var sight := bm.los(alpha, beta, Res);
    var xlos, ylos := sight.0, sight.1;
    var centres := bm.patchCenter(P, heights, npatch, iseed, fanBeam);
    var offsets := bm.aberration(heights, P, alpha);
    var s := Patches(patchWidths, centres.0, centres.1, offsets.0, offsets.1, |heights|, doAb);
    AccumulatePatches(Z, s, exp);
    prof := GatherProfile(Z, xlos, ylos);
    assert forall k :: 0 <= k < |xlos| ==> prof[k] == ProfileOf(s, exp, xlos, ylos)[k];
  }
}
