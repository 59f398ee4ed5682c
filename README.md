# beam_py: a verified model of the beam synthesis script and the RVM routine

beam_py simulates pulsar emission. Each emission height carries circular
Gaussian patches. These patches are summed onto a 1000 x 1000 grid spanning
[-180, 180] degrees on both axes, and a line-of-sight profile is read off the
grid at truncated cell indices. The main script repeats this per frequency
channel. It then optionally scatters and adds noise to the profiles, and picks
the trial dispersion measure (DM) whose average de-dispersed profile peaks
highest. A second routine, `rvm`, predicts the polarisation position angle of
the rotating vector model and wraps it into a half-turn.

This project models these parts in Dafny:

- `numeric.dfy` (module `Numeric`): exact counterparts of `np.linspace`,
  `np.max` and Python's truncating `int()`.
- `beam_model.dfy` (module `BeamModel`): the signatures of the `beamModel`
  helpers (`bm.*`) that the script calls. Their bodies are not part of this
  model, so each one is a function-valued field of a `Helpers` value. The
  assumptions made about what they return are all stated as requirements:
  - `NoiseKeepsChannels`: `bm.add_noise` returns one profile per profile;
  - `Patches.Valid`, through `BeamInputsOk`: `bm.patch_width` gives one
    positive width per height, and `bm.patch_center` one list of centre x and
    one of centre y per height. With `do_ab` set, `bm.aberration` also gives
    one x offset and one y offset per height;
  - `LosInGrid`, through `BeamInputsOk`: `bm.los` returns x and y samples of
    equal length, each of which indexes the grid.
- `generate_beam.dfy` (module `GenerateBeam`): `generateBeam` itself.
  - The beam `Z` is an `array2<real>` that nested loops update in place, one
    patch at a time.
  - Each method's result is tied to a specification function (`BeamValue`,
    `ProfileOf`).
  - Lemmas prove the beam's support, its sign and the effect of aberration.
- `beam_script.dfy` (module `BeamScript`): the script body from the channel
  frequencies to the choice of the best DM. Every list built by appending in
  a loop is a method with loop invariants. `np.roll` is proved to be a
  rotation and a permutation.
- `rvm.dfy` (module `Rvm`): the position-angle loop and its single-step wrap,
  plus one finding about the unit conversion.

`np.exp`, `np.sin`, `np.cos` and `np.arctan` are parameters. Only the
following facts are assumed about them, and always as explicit requirements:

- `exp` is positive (`PositiveKernel`);
- `arctan` lies in the closed [-pi/2, pi/2]. The bound is closed because,
  for large arguments, the correctly rounded arctangent is the double
  `np.pi/2` itself;
- `sin(0) = arctan(0) = 0`.

Reals are exact. `Pi` is the exact value of numpy's double for pi,
3.141592653589793115997963468544185161590576171875. So `Pi / 2` is the
source's wrap threshold `np.pi/2.` exactly.

## What the code does at its edges

The model follows the code in the following places, where its behaviour is
easy to misread.

- **Truncation, not nearest neighbour.** The comment at generateBeam.py:89
  says the profile selects nearest neighbours. Lines 90-91 cast
  `(xlos - xmin)/dx` to `int`, which truncates toward zero rather than
  rounding. So a coordinate just below a cell boundary reads the cell below,
  and anything in (xmin - dx, xmin) reads cell 0 (`TruncateToInt`,
  `LosIndexBounds`).
- **No clamping of the line-of-sight indices.** The code converts each
  coordinate with `np.array(..., dtype=int)`, which truncates toward zero
  rather than flooring. It then indexes `Z` directly, with no clamping.
  - numpy reads negative indices from the end of the axis.
  - An index outside [-1000, 1000) raises `IndexError`, so `LosInGrid` is a
    precondition.
  - `LosIndexBounds` gives the exact coordinate ranges that are accepted.
- **Axis transposition in the gather.** `prof = Z[ZxIdx, ZyIdx]` uses the
  x index as the ROW. Rows of a `meshgrid` beam follow y, so each sample
  reads the beam at (grid x of the y index, grid y of the x index). This is
  `SampleAt`.
- **Index step versus grid spacing.** The index step `dx = 360 / res`
  differs from the grid spacing `360 / (res - 1)`. The model keeps both.
- **Ties in the DM choice.** The code overwrites `best_dm` at every index
  that reaches the maximum, so the last such trial wins (`IsLastMaximum`).
  With no trials, `best_dm` is never bound (`None`).
- **The RVM wrap range.** The wrap is `if psi < -pi/2: +pi` followed by
  `if psi > pi/2: -pi`. For a pre-wrap angle in [-3π/2, 3π/2] the result
  lies in the closed [-90, 90] degrees, as the comment at rvm.py:43 says,
  not the half-open (-90, 90]. A pre-wrap angle outside that range is moved
  by at most one half-turn and stays outside [-90, 90]. The code uses `np.arctan` of a quotient, not a
  two-argument arctangent.
- **Unused parameters.** `generateBeam` accepts `freq`, `dm` and `snr` and
  does not use them.
- **The RVM range property does not hold as written.** See Findings.

## Model

| member | source | states |
|---|---|---|
| Numeric.Linspace | generateBeam.py:47-48 | `num` samples. The first is `lo`, the last is `hi`, and sample k is `lo + k (hi - lo)/(num - 1)`. |
| Numeric.MaxOf | generateBeam.py:219 | `np.max` of a non-empty list is one of its elements and bounds every element. |
| Numeric.TruncateToInt | generateBeam.py:90-91 | `int()` truncates toward zero: floor for non-negative values, ceiling for negative ones. |
| Numeric.TruncateInRange | generateBeam.py:90-91 | A truncated value lies in [0, n) exactly when the real lies in (-1, n). |
| Numeric.TruncateAboveNegated | generateBeam.py:90-91 | A truncated value is at least -n exactly when the real exceeds -n - 1. |
| GenerateBeam.ScaledDistanceMask | generateBeam.py:82-83 | The two `np.where` steps on one scaled distance d: the result is 0 or peakAmp, and peakAmp exactly when d != 0 and d <= 3 (negative d included). |
| GenerateBeam.NegativeWidthMasksOffCentre | generateBeam.py:81-83 | With a negative width, every cell off the centre gets peakAmp. |
| GenerateBeam.Patches.PatchCount | generateBeam.py:76 | `zip` stops at the shorter list: the count is the smaller of the two centre-list lengths. |
| GenerateBeam.SquaredDistance | generateBeam.py:81 | The squared distance to a patch centre is non-negative. |
| GenerateBeam.Mask | generateBeam.py:81-83 | The mask is 0 or peakAmp. It is peakAmp exactly when 0 < dist^2 <= 9 sigma^2, so the cell on the centre gets 0. |
| GenerateBeam.MaskMatchesScaledDistance | generateBeam.py:81-83 | The squared test equals the source's two `np.where` steps on `sqrt(d2)/sigma`. |
| GenerateBeam.Kernel | generateBeam.py:85 | The Gaussian `exp(-(u^2/(2 sigma^2) + v^2/(2 sigma^2)))` at kernel offset (u, v). It is positive when `exp` is. |
| GenerateBeam.KernelShiftX | generateBeam.py:84-87 | The kernel's x shift: `ab_xofset[cid]` with `do_ab` set, 0 without. |
| GenerateBeam.KernelShiftY | generateBeam.py:84-87 | The kernel's y shift: `ab_yofset[cid]` with `do_ab` set, 0 without. |
| GenerateBeam.PatchMask | generateBeam.py:81-83 | A patch's mask at (x, y), around the unshifted centre: 0 or peakAmp, and 0 on the centre itself. |
| GenerateBeam.Contribution | generateBeam.py:85-87 | `distance * np.exp(...)` for one patch: 0 where the mask is 0. With a positive `exp` it is >= 0, and > 0 exactly where the mask is set. |
| GenerateBeam.PatchesSum | generateBeam.py:76-87 | The contributions of the first k patches of a component, added in loop order. |
| GenerateBeam.ComponentsSum | generateBeam.py:66-87 | The patch sums of the first m components, added in loop order. |
| GenerateBeam.BeamValue | generateBeam.py:66-87 | The beam at (x, y): the sum over all components. |
| GenerateBeam.PatchesSumUncovered | generateBeam.py:76-87 | If no patch of a component is masked at a point, the component adds nothing there. |
| GenerateBeam.ComponentsSumUncovered | generateBeam.py:66-87 | If no patch of the first m components is masked at a point, they add nothing there. |
| GenerateBeam.BeamZeroWhereUncovered | generateBeam.py:66-87 | The beam is exactly 0 outside the union of the patches' masks, whatever the kernel. |
| GenerateBeam.PatchesSumSign | generateBeam.py:76-87 | With a positive kernel, a component's sum is non-negative. It is positive iff one of its patches is masked. |
| GenerateBeam.ComponentsSumSign | generateBeam.py:66-87 | With a positive kernel, the sum over m components is non-negative. It is positive iff some patch is masked. |
| GenerateBeam.BeamPositiveIffCovered | generateBeam.py:66-87 | With a positive kernel, the beam is >= 0 everywhere and > 0 exactly on the masks' union. |
| GenerateBeam.PatchesSumAgree | generateBeam.py:84-87 | Two setups with the same widths, centres and kernel shifts give the same component sum. |
| GenerateBeam.ComponentsSumAgree | generateBeam.py:84-87 | Two setups with the same widths, centres and kernel shifts give the same beam sum. |
| GenerateBeam.NoAberrationIgnoresOffsets | generateBeam.py:84-85 | With `do_ab` unset, the aberration offsets do not affect the beam. |
| GenerateBeam.AberrationKeepsSupport | generateBeam.py:81-87 | With a positive kernel, toggling `do_ab` changes no cell between zero and non-zero, because aberration moves only the kernel, never the mask. |
| GenerateBeam.AddPatch | generateBeam.py:85-87 | `Z +=` for one patch: every cell gains that patch's masked contribution, and cells with mask 0 are unchanged. |
| GenerateBeam.AddPatchRow | generateBeam.py:85-87 | The same update on one row of `Z`; every other row is unchanged. |
| GenerateBeam.AddComponent | generateBeam.py:76-87 | The `for pc in zip(...)` loop: every cell gains the sum over the component's patches. Zip stops at the shorter list. |
| GenerateBeam.AccumulatePatches | generateBeam.py:66-87 | The `for cid` loop: every cell gains `BeamValue` at its grid point (x from the column, y from the row). |
| GenerateBeam.LosIndex | generateBeam.py:90-91 | `int((coord - lo)/step)`, truncated toward zero. |
| GenerateBeam.IndexAccepted | generateBeam.py:92 | The indices numpy accepts on an axis of length 1000 in `Z[ZxIdx, ZyIdx]`: [-1000, 1000). Anything else raises `IndexError`. `LosIndexBounds` turns this into coordinate intervals. |
| GenerateBeam.AxisPosition | generateBeam.py:92 | An accepted index, negative ones read from the end, selects a cell inside the axis. |
| GenerateBeam.LosIndexBounds | generateBeam.py:90-92 | The exact coordinate intervals that give a proper row or column, or any index numpy accepts. |
| GenerateBeam.AxisIndexBounds | generateBeam.py:90-92 | The same intervals for one coordinate. Both axes span -180 to 180 in steps of 360/res. |
| GenerateBeam.LosRow | generateBeam.py:92 | The row of `Z` that a line-of-sight x reads, inside the grid. |
| GenerateBeam.LosColumn | generateBeam.py:92 | The column of `Z` that a line-of-sight y reads, inside the grid. |
| GenerateBeam.SampleAt | generateBeam.py:92 | One profile sample: the beam at grid x of the column and grid y of the row. |
| GenerateBeam.GatherProfile | generateBeam.py:90-92 | One sample per line-of-sight point, read from `Z` at (truncated x index, truncated y index). |
| GenerateBeam.ProfileOf | generateBeam.py:90-92 | The profile has exactly as many samples as the line of sight. |
| GenerateBeam.ProfileSignFollowsCoverage | generateBeam.py:66-92 | With a positive kernel, a profile sample is >= 0. It is > 0 exactly when the cell it reads is covered. |
| GenerateBeam.SetupOf | generateBeam.py:55-63 | What `patch_width`, `patch_center` and `aberration` return, bundled with one component per height and the `do_ab` flag. |
| GenerateBeam.GenerateBeam | generateBeam.py:16-94 | A fresh 1000 x 1000 beam holding the beam sum in every cell, and the profile gathered from it. |
| BeamScript.TimeResolution | generateBeam.py:150 | `t_res = P / res`: res bins of t_res span one period. |
| BeamScript.Phase | generateBeam.py:151 | `res` phases from -180 to 180. |
| BeamScript.EmissionHeights | generateBeam.py:158 | `H = bm.emission_height(P, ncomp, iseed, hmin, hmax)`. |
| BeamScript.ChannelSetup | generateBeam.py:163 | The patches of one channel: `heights = bm.height_f(H, freq[i])` passed through the `patch_width`, `patch_center` and `aberration` calls of generateBeam.py:55-63. There is one component per height at that frequency, and `do_ab` is the script's flag. |
| BeamScript.ChannelProfile | generateBeam.py:163-164 | The profile generateBeam returns for one channel, with one sample per line-of-sight point. |
| BeamScript.ChannelFrequencies | generateBeam.py:152-153 | `nch` channels from `min_freq` up to `(nch - 1) chbw + min_freq`. |
| BeamScript.ChannelSpacing | generateBeam.py:152-153 | Channel k is at `min_freq + k chbw`. |
| BeamScript.SynthesiseChannels | generateBeam.py:162-167 | Per channel, in order: its profile, its 10% width, and a fresh beam holding that channel's beam. |
| BeamScript.SynthesiseChannel | generateBeam.py:163-164 | One channel: `height_f`, then generateBeam, giving that channel's profile and a fresh beam holding its beam. |
| BeamScript.ScatterStage | generateBeam.py:172-187 | Without `-scatter`, the profiles pass through unchanged. Otherwise there is one scattered profile per channel (train, broadening, extraction). |
| BeamScript.ScatteredProfile | generateBeam.py:181-187 | One channel's scattered profile: a 3-period train, the channel's broadening kernel, and the period at index 2 extracted. |
| BeamScript.ChannelPeaks | generateBeam.py:192-193 | One `find_peak` per channel of the scattered profiles, in order. |
| BeamScript.NoiseStage | generateBeam.py:195-199 | Without `-snr`, the profiles pass through unchanged. With noise that keeps channels, the count is unchanged. |
| BeamScript.Roll | generateBeam.py:215 | `np.roll` keeps the length. |
| BeamScript.RollSource | generateBeam.py:215 | Element i of a roll by k comes from index `i - (k mod n)`, plus n when that is negative. |
| BeamScript.RollIsRotation | generateBeam.py:215 | `np.roll(s, k)` moves the last `k mod n` samples to the front. |
| BeamScript.RollPreservesMultiset | generateBeam.py:215 | `np.roll` is a permutation: same length and same multiset of samples. |
| BeamScript.ShiftedChannels | generateBeam.py:212-215 | A trial's shifted list has `nch - 1` channels; the reference channel is left out. |
| BeamScript.ShiftedChannelsPermute | generateBeam.py:212-215 | Every shifted channel is a rearrangement of that channel's profile. |
| BeamScript.ShiftChannels | generateBeam.py:212-215 | The inner loop builds exactly the shifted list of that trial DM. |
| BeamScript.AverageTrials | generateBeam.py:211-217 | Per trial DM, in order: the average of its shifted channels and that average's peak. |
| BeamScript.TrialPeak | generateBeam.py:216-217 | `find_peak` of `avg_prof` of one trial's shifted channels. |
| BeamScript.IsLastMaximum | generateBeam.py:219-221 | Index i holds the maximum, and every later index is strictly smaller. |
| BeamScript.SelectBestDm | generateBeam.py:219-221 | None iff there are no trials. Otherwise a trial DM whose peak is the maximum, with no later trial reaching it. |
| BeamScript.BestDmIsTrialWithMaximalPeak | generateBeam.py:219-221 | The chosen DM is one of the trials, and its peak equals `np.max` of all peaks. |
| BeamScript.FitDm | generateBeam.py:205-221 | The DM range comes from the phase bins of the last and first channel. The per-trial peaks follow, then the last maximal trial. |
| BeamScript.RunScript | generateBeam.py:145-221 | Steps 1-5 composed. Every intermediate list is stated per channel or per trial, and the best DM is the last maximal trial. |
| Rvm.DegToRad | rvm.py:37 | `np.deg2rad`: d pi / 180. |
| Rvm.RadToDeg | rvm.py:51 | `np.rad2deg`: r 180 / pi. |
| Rvm.Numerator | rvm.py:38 | `sin(alpha) sin(phi - phi0)`. It is 0 at `phi = phi0` when sin(0) = 0. |
| Rvm.Denominator | rvm.py:39 | `sin(zeta) cos(alpha) - cos(zeta) sin(alpha) cos(phi - phi0)`. |
| Rvm.RadToDegHalfTurn | rvm.py:43-51 | A radian angle is in [-pi/2, pi/2] iff its degree value is in [-90, 90]. It exceeds pi/2 iff the degree value exceeds 90. |
| Rvm.DegToRadHalfCircle | rvm.py:25-27 | [-180, 180] degrees converts into [-pi, pi]. |
| Rvm.PreWrapAngle | rvm.py:38-41 | Before the wrap, psi lies within a quarter-turn of `psi0`, ends included, for an arctan bounded by the double `np.pi/2`. |
| Rvm.FiducialPointGivesPsi0 | rvm.py:38-41 | At `phi = phi0`, with a non-zero denominator, the angle before the wrap is exactly `psi0`. |
| Rvm.WrapHalfTurn | rvm.py:43-48 | Unchanged on [-pi/2, pi/2], +pi below, -pi above. Anything in [-3pi/2, 3pi/2] ends in [-pi/2, pi/2]. |
| Rvm.WrapKeepsOrientation | rvm.py:43-48 | The wrap changes the angle by -pi, 0 or pi only. |
| Rvm.WrapIdempotent | rvm.py:43-48 | For an angle in [-3π/2, 3π/2], wrapping a wrapped angle changes nothing. |
| Rvm.PositionAngles | rvm.py:30-53 | One output per input point. |
| Rvm.Rvm | rvm.py:5-53 | One output per point, in input order: rad2deg of the wrapped angle, with only `phi` converted. The result does not depend on `psi`. |
| Rvm.PositionAnglesPrefix | rvm.py:36-51 | Outputs are per point: the swing of a prefix of `xprof` is the same prefix of the swing. |
| Rvm.DegreeOffsetLeavesHalfTurn | rvm.py:41-48 | As written, with `psi0 = 15` (the demo's value), every output exceeds 90 degrees. |
| Rvm.CorrectedPositionAngles | rvm.py:24-53 | The corrected swing has one output per input point. |
| Rvm.RvmCorrected | rvm.py:24-53 | The loop with all four angles converted computes the corrected swing. |
| Rvm.CorrectedAnglesWithinHalfTurn | rvm.py:24-53 | With conversion, every output of a `psi0` in [-180, 180] lies in [-90, 90]. |
| Rvm.SaturatedArctanMeetsEdge | rvm.py:41-48 | An arctan that returns the double `np.pi/2` meets the arctan bound. At `psi0 = 180` the corrected output is then exactly 90, the closed edge. |

## Left out

- Argument parsing and the globals it sets (generateBeam.py:100-137). They
  become the `Config` value. A flag that is "None or given" becomes a
  boolean, and an optional number becomes an `Option`.
- The bodies of the `beamModel` helpers. The beamModel module is not part of
  this model. Its functions are parameters inside `Helpers`. Nothing is
  assumed about them beyond `NoiseKeepsChannels` and the generateBeam
  preconditions:
  - one positive width per height;
  - one list of centre x and one of centre y per height;
  - with `do_ab` set, one x offset and one y offset per height;
  - line-of-sight x and y samples of equal length that index the grid.
  The script also requires `nch >= 1`.
- The values of `exp`, `sin`, `cos` and `arctan`, and IEEE rounding. Reals
  are exact rationals; NaN and infinity are not modelled.
- Each `bm.*` helper is a function field, so the model takes it to be a
  deterministic function of its arguments. In particular, no helper shares
  state through numpy's global random generator. This is what lets the model
  drop the unused `bm.sc_time(freq, dm, iseed)` call at generateBeam.py:174.
  It also makes each channel's `bm.patch_center(..., iseed, ...)` result
  independent of the order of the calls.
- Random numbers and seeds: they are opaque arguments passed to the helpers.
- The output file and the plots (generateBeam.py:222-272): file I/O and
  matplotlib.
- The call `tau = bm.sc_time(freq, dm, iseed)` on the whole frequency array
  (generateBeam.py:174). Its value is overwritten before use.
- `Z[ZxIdx, ZyIdx]` with a line of sight of length 1 or broadcast shapes. The
  model takes the x and y samples as two lists of equal length.
- A zero RVM denominator. numpy would produce inf or NaN; the model requires
  a non-zero denominator instead.
- The Python 2 `print` demo in rvm.py:56-58. Its arguments are used only in
  `Rvm.DegreeOffsetLeavesHalfTurn`.
- The script's crashes become preconditions:
  - `nch = 0`, which makes `profile[nch - 1]` fail;
  - an empty `peaks` list with `snr` set, where `np.max` raises;
  - a line of sight outside the accepted index range, which raises IndexError.
  - An unbound `best_dm` at the write-out is the `None` case of `bestDm`.
- NoiseStage: it states the noisy channel count only under the
  `NoiseKeepsChannels` assumption about `bm.add_noise`. The noisy values are
  whatever that helper returns. `RunScript` needs that assumption only when
  `snr` is set, the only case in which the helper is called.
- GenerateBeam.Mask: it uses the squared test `d2 <= 9 sigma^2` rather than
  `sqrt`. `MaskMatchesScaledDistance` proves the two equal for sigma > 0.
  Patch widths are assumed positive, as returned by `bm.patch_width`. This
  is an assumption about that helper, not something the source checks. A
  zero width divides by zero. A negative width would make the source mask
  every off-centre cell of the grid (`NegativeWidthMasksOffCentre`). The
  model does not cover that case.

## Findings

| source | as written | input that shows it | evidently intended | confidence | as-written member | corrected member |
|---|---|---|---|---|---|---|
| rvm.py:25-41 | `angRad = np.deg2rad(angles)` is computed and discarded. `alpha`, `phi0`, `psi0` and `zeta = alpha + beta` stay in degrees but are fed to `np.sin`/`np.cos` and added to a radian arctan. | `rvm(45., 15., 10., 15., 10., xprof)` (the demo): psi0 = 15 before the wrap, and one half-turn leaves it above pi/2, so every output exceeds 90 degrees. | Convert all four angles and use them, so that outputs lie in [-90, 90] for any `psi0` in [-180, 180]. | high, not executed | Rvm.DegreeOffsetLeavesHalfTurn | Rvm.CorrectedAnglesWithinHalfTurn |
