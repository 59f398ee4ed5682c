/** The main body of the beam script (everything after argument parsing and
    before the output file and the plots): the channel frequencies, one beam
    and profile per channel, the optional scattering and noise stages, and
    the dispersion-measure (DM) search. */
module BeamScript {
  import opened Numeric
  import opened BeamModel
  import opened GenerateBeam

  /** The parsed command-line arguments, as one immutable value. Flags that
      are "None or set" become booleans. */
  datatype Config = Config(
    period: real,
    alpha: real,
    beta: real,
    hmin: Option<real>,
    hmax: Option<real>,
    ncomp: int,
    npatch: int,
    minFreq: real,
    chbw: real,
    nch: nat,
    iseed: int,
    snr: Option<real>,
    dm: real,
    doAb: bool,
    scatter: bool,
    fanBeam: bool)

  /** `t_res = P / res`: the time one phase bin spans. */
  function TimeResolution(P: real): (tRes: real)
    ensures tRes * Res as real == P
  {
    P / Res as real
  }

  /** `phase = np.linspace(-180, 180, num=res)`. */
  function Phase(): (phase: seq<real>)
    ensures |phase| == Res && phase[0] == -180.0 && phase[Res - 1] == 180.0
  {
    Linspace(-180.0, 180.0, Res)
  }

  //--------------------------------------------------------------------------
  // Channel frequencies
  //--------------------------------------------------------------------------

  /** `max_freq = (nch - 1) * chbw + min_freq` and
      `freq = np.linspace(min_freq, max_freq, nch)`. */
  function ChannelFrequencies(minFreq: real, chbw: real, nch: nat): (freq: seq<real>)
    ensures |freq| == nch
    ensures nch >= 1 ==> freq[0] == minFreq
    ensures nch >= 1 ==> freq[nch - 1] == (nch - 1) as real * chbw + minFreq
  {
    Linspace(minFreq, (nch - 1) as real * chbw + minFreq, nch)
  }

  /** The channels are exactly one bandwidth apart. */
  lemma ChannelSpacing(minFreq: real, chbw: real, nch: nat, k: nat)
    requires k < nch
    ensures ChannelFrequencies(minFreq, chbw, nch)[k] == minFreq + k as real * chbw
  {
    if nch >= 2 {
      var m := (nch - 1) as real;
      var step := (m * chbw + minFreq - minFreq) / m;
      assert m * chbw + minFreq - minFreq == chbw * m;
      assert step * m == chbw * m;
      CancelPositive(step, chbw, m);
    }
  }

  /** a m == b m with m > 0 forces a == b. */
  lemma CancelPositive(a: real, b: real, m: real)
    requires m > 0.0 && a * m == b * m
    ensures a == b
  {
    if a < b {
      ProductPositive(b - a, m);
    } else if a > b {
      ProductPositive(a - b, m);
    }
  }

  //--------------------------------------------------------------------------
  // One beam and profile per channel
  //--------------------------------------------------------------------------

  /** `H = bm.emission_height(P, ncomp, iseed, hmin, hmax)`. */
  function EmissionHeights(cfg: Config, bm: Helpers): seq<real>
  {
    bm.emissionHeight(cfg.period, cfg.ncomp, cfg.iseed, cfg.hmin, cfg.hmax)
  }

  /** generateBeam's requirements for the channel at frequency f. */
  predicate ChannelInputsOk(cfg: Config, bm: Helpers, H: seq<real>, f: real)
  {
    BeamInputsOk(bm, cfg.period, cfg.alpha, cfg.beta, bm.heightAtFrequency(H, f), cfg.npatch, cfg.iseed,
                 cfg.fanBeam, cfg.doAb)
  }

  /** The patches of the channel at frequency f. */
  function ChannelSetup(cfg: Config, bm: Helpers, H: seq<real>, f: real): (s: Patches)
    ensures s.components == |bm.heightAtFrequency(H, f)| && s.aberrate == cfg.doAb
  {
    SetupOf(bm, cfg.period, cfg.alpha, bm.heightAtFrequency(H, f), cfg.npatch, cfg.iseed, cfg.fanBeam, cfg.doAb)
  }

  /** The profile generateBeam returns for the channel at frequency f. */
  function ChannelProfile(cfg: Config, bm: Helpers, exp: real -> real, H: seq<real>, f: real): (pr: seq<real>)
    requires ChannelInputsOk(cfg, bm, H, f)
    ensures |pr| == |bm.los(cfg.alpha, cfg.beta, Res).0|
  {
    ProfileOf(ChannelSetup(cfg, bm, H, f), exp, bm.los(cfg.alpha, cfg.beta, Res).0, bm.los(cfg.alpha, cfg.beta, Res).1)
  }

  /** Z holds, cell by cell, the beam of the channel at frequency f. */
  ghost predicate HoldsChannelBeam(Z: array2<real>, cfg: Config, bm: Helpers, exp: real -> real, H: seq<real>, f: real)
    reads Z
  {
    HoldsBeam(Z, ChannelSetup(cfg, bm, H, f), exp)
  }

  /** Channel f is done: pr is its profile, w its 10% width and Z its beam. */
  ghost predicate ChannelDone(cfg: Config, bm: Helpers, exp: real -> real, H: seq<real>, f: real,
                              pr: seq<real>, w: real, Z: array2<real>)
    reads Z
  {
    && ChannelInputsOk(cfg, bm, H, f)
    && pr == ChannelProfile(cfg, bm, exp, H, f) && w == bm.findWidth(pr)
    && HoldsChannelBeam(Z, cfg, bm, exp, H, f)
  }

  /** The `for i in np.arange(len(freq))` loop: per channel, the heights at
      that frequency, generateBeam, and the lists w10, prof and beam, each
      appended in channel order. */
  method SynthesiseChannels(cfg: Config, bm: Helpers, exp: real -> real, H: seq<real>, freq: seq<real>)
    returns (prof: seq<seq<real>>, beam: seq<array2<real>>, w10: seq<real>)
    requires forall i :: 0 <= i < |freq| ==> ChannelInputsOk(cfg, bm, H, freq[i])
    ensures |prof| == |freq| && |beam| == |freq| && |w10| == |freq|
    ensures forall i :: 0 <= i < |freq| ==>
      prof[i] == ChannelProfile(cfg, bm, exp, H, freq[i]) && w10[i] == bm.findWidth(prof[i])
    ensures forall i :: 0 <= i < |freq| ==> fresh(beam[i]) && HoldsChannelBeam(beam[i], cfg, bm, exp, H, freq[i])
  {
    prof, beam, w10 := [], [], [];
    for i := 0 to |freq|
      invariant |prof| == i && |beam| == i && |w10| == i
      invariant forall k :: 0 <= k < i ==> fresh(beam[k]) && ChannelDone(cfg, bm, exp, H, freq[k], prof[k], w10[k], beam[k])
    {
      var pr, Z := SynthesiseChannel(cfg, bm, exp, H, freq[i]);
      w10 := w10 + [bm.findWidth(pr)];
      prof := prof + [pr];
      beam := beam + [Z];
    }
  }

  /** One pass of that loop: the heights at frequency f, then generateBeam. */
  method SynthesiseChannel(cfg: Config, bm: Helpers, exp: real -> real, H: seq<real>, f: real)
    returns (pr: seq<real>, Z: array2<real>)
    requires ChannelInputsOk(cfg, bm, H, f)
    ensures pr == ChannelProfile(cfg, bm, exp, H, f)
    ensures fresh(Z) && HoldsChannelBeam(Z, cfg, bm, exp, H, f)
  {
    var heights := bm.heightAtFrequency(H, f);
    pr, Z := GenerateBeam.GenerateBeam(bm, exp, cfg.period, cfg.alpha, cfg.beta, f, cfg.dm, heights, cfg.npatch,
                                       cfg.snr, cfg.doAb, cfg.iseed, cfg.fanBeam);
  }

  //--------------------------------------------------------------------------
  // Scattering and noise
  //--------------------------------------------------------------------------

  /** One channel's scattered profile: a train of 3 periods, convolved with
      the broadening kernel of that channel's scattering time, and the
      period at index 2 cut out again. */
  function ScatteredProfile(bm: Helpers, P: real, dm: real, iseed: int, f: real, p: seq<real>): seq<real>
  {
    var train := bm.pulseTrain(3, Res, p);
    var kernel := bm.broadening(bm.scatterTime(f, dm, iseed), P, Res);
    bm.extractPulse(bm.scatter(train, kernel), 2, Res)
  }

  /** The scattering stage: with `scatter` unset the profiles pass through
      untouched; otherwise one pulse train per profile is built, then one
      scattered profile per frequency channel. */
  method ScatterStage(cfg: Config, bm: Helpers, freq: seq<real>, prof: seq<seq<real>>) returns (scProf: seq<seq<real>>)
    requires cfg.scatter ==> |freq| <= |prof|
    ensures !cfg.scatter ==> scProf == prof
    ensures cfg.scatter ==> |scProf| == |freq|
    ensures cfg.scatter ==> forall k :: 0 <= k < |freq| ==>
      scProf[k] == ScatteredProfile(bm, cfg.period, cfg.dm, cfg.iseed, freq[k], prof[k])
  {
    if !cfg.scatter {
      scProf := prof;
    } else {
      var train := [];
      for pid := 0 to |prof|
        invariant |train| == pid
        invariant forall k :: 0 <= k < pid ==> train[k] == bm.pulseTrain(3, Res, prof[k])
      {
        train := train + [bm.pulseTrain(3, Res, prof[pid])];
      }
      scProf := [];
      for fid := 0 to |freq|
        invariant |scProf| == fid
        invariant forall k :: 0 <= k < fid ==>
          scProf[k] == ScatteredProfile(bm, cfg.period, cfg.dm, cfg.iseed, freq[k], prof[k])
      {
        var tau := bm.scatterTime(freq[fid], cfg.dm, cfg.iseed);
        var bf := bm.broadening(tau, cfg.period, Res);
        var scTrain := bm.scatter(train[fid], bf);
        scProf := scProf + [bm.extractPulse(scTrain, 2, Res)];
      }
    }
  }

  /** `peaks.append(bm.find_peak(sc_prof[j]))` for each of the first n
      channels (n is len(prof)). */
  method ChannelPeaks(bm: Helpers, n: nat, scProf: seq<seq<real>>) returns (peaks: seq<real>)
    requires n <= |scProf|
    ensures |peaks| == n
    ensures forall j :: 0 <= j < n ==> peaks[j] == bm.findPeak(scProf[j])
  {
    peaks := [];
    for j := 0 to n
      invariant |peaks| == j
      invariant forall k :: 0 <= k < j ==> peaks[k] == bm.findPeak(scProf[k])
    {
      peaks := peaks + [bm.findPeak(scProf[j])];
    }
  }

  /** The noise stage: with `snr` unset the profiles pass through untouched;
      otherwise noise of the rms that snr and the largest peak give is
      added (np.max of no peaks would raise, hence the requirement). */
  function NoiseStage(bm: Helpers, snr: Option<real>, iseed: int, scProf: seq<seq<real>>, peaks: seq<real>)
    : (profile: seq<seq<real>>)
    requires snr.Some? ==> |peaks| > 0
    ensures snr.None? ==> profile == scProf
    ensures NoiseKeepsChannels(bm) ==> |profile| == |scProf|
  {
    if snr.None? then scProf
    else
      var rms := bm.noiseRms(snr.value, MaxOf(peaks));
      bm.addNoise(scProf, rms, iseed, Res)
  }

  //--------------------------------------------------------------------------
  // DM search
  //--------------------------------------------------------------------------

  /** `np.roll(s, shift)`: element i of the result is s[(i - shift) mod n];
      an empty list stays empty. */
  function Roll(s: seq<real>, shift: int): (r: seq<real>)
    ensures |r| == |s|
  {
    if |s| == 0 then s
    else seq(|s|, i requires 0 <= i < |s| => s[(i - shift) % |s|])
  }

  lemma IntProductNonNegative(x: int, n: int)
    requires x >= 0 && n >= 0
    ensures x * n >= 0
  {
  }

  /** a == j + k n with 0 <= j < n fixes a % n as j. */
  lemma ModOfOffset(a: int, j: int, k: int, n: int)
    requires n > 0 && 0 <= j < n && a == j + k * n
    ensures a % n == j
  {
    var q, r := a / n, a % n;
    assert a == q * n + r && 0 <= r < n;
    var d := k - q;
    assert d * n == r - j;
    if d > 0 {
      IntProductNonNegative(d - 1, n);
    } else if d < 0 {
      IntProductNonNegative(-d - 1, n);
    }
  }

  /** Where element i of a roll by `shift` comes from, stated on indices
      alone: m = shift mod n positions back, wrapping round the end. */
  lemma RollSource(n: int, shift: int, i: int)
    requires n > 0 && 0 <= i < n
    ensures (i - shift) % n == if i < shift % n then i - shift % n + n else i - shift % n
  {
    var m := shift % n;
    var q := shift / n;
    assert shift == q * n + m;
    if i < m {
      assert i - shift == (i - m + n) + (-q - 1) * n;
      ModOfOffset(i - shift, i - m + n, -q - 1, n);
    } else {
      assert i - shift == (i - m) + (-q) * n;
      ModOfOffset(i - shift, i - m, -q, n);
    }
  }

  /** A roll is a rotation: the last (shift mod n) elements move to the front. */
  lemma RollIsRotation(s: seq<real>, shift: int)
    requires |s| > 0
    ensures Roll(s, shift) == s[|s| - shift % |s|..] + s[..|s| - shift % |s|]
  {
    var n := |s|;
    var cut := n - shift % n;
    var rhs := s[cut..] + s[..cut];
    forall i | 0 <= i < n
      ensures Roll(s, shift)[i] == rhs[i]
    {
      RollSource(n, shift, i);
    }
  }

  /** A roll keeps every sample: same length, same multiset. */
  lemma RollPreservesMultiset(s: seq<real>, shift: int)
    ensures |Roll(s, shift)| == |s|
    ensures multiset(Roll(s, shift)) == multiset(s)
  {
    if |s| > 0 {
      var cut := |s| - shift % |s|;
      RollIsRotation(s, shift);
      assert s == s[..cut] + s[cut..];
    }
  }

  /** The inner `for freq_id in range(nch - 1)` list for one trial DM:
      channels 0 .. nch-2 rolled by their delay against the reference
      channel nch-1, which is itself left out. */
  function ShiftedChannels(bm: Helpers, profile: seq<seq<real>>, freq: seq<real>, nch: nat, trialDm: real, tRes: real)
    : (r: seq<seq<real>>)
    requires 1 <= nch <= |profile| && nch <= |freq|
    ensures |r| == nch - 1
  {
    seq(nch - 1, f requires 0 <= f < nch - 1 => Roll(profile[f], bm.delay(freq[nch - 1], freq[f], trialDm, tRes)))
  }

  /** Every shifted channel is a rearrangement of that channel's own profile. */
  lemma ShiftedChannelsPermute(bm: Helpers, profile: seq<seq<real>>, freq: seq<real>, nch: nat, trialDm: real, tRes: real)
    requires 1 <= nch <= |profile| && nch <= |freq|
    ensures forall f :: 0 <= f < nch - 1 ==>
      var shifted := ShiftedChannels(bm, profile, freq, nch, trialDm, tRes)[f];
      |shifted| == |profile[f]| && multiset(shifted) == multiset(profile[f])
  {
    forall f | 0 <= f < nch - 1
      ensures var shifted := ShiftedChannels(bm, profile, freq, nch, trialDm, tRes)[f];
        |shifted| == |profile[f]| && multiset(shifted) == multiset(profile[f])
    {
      RollPreservesMultiset(profile[f], bm.delay(freq[nch - 1], freq[f], trialDm, tRes));
    }
  }

  /** The inner loop: builds `shifted_profile` one channel at a time. */
  method ShiftChannels(bm: Helpers, profile: seq<seq<real>>, freq: seq<real>, nch: nat, trialDm: real, tRes: real)
    returns (shifted: seq<seq<real>>)
    requires 1 <= nch <= |profile| && nch <= |freq|
    ensures shifted == ShiftedChannels(bm, profile, freq, nch, trialDm, tRes)
  {
    shifted := [];
    for freqId := 0 to nch - 1
      invariant shifted == ShiftedChannels(bm, profile, freq, nch, trialDm, tRes)[..freqId]
    {
      var binShift := bm.delay(freq[nch - 1], freq[freqId], trialDm, tRes);
      shifted := shifted + [Roll(profile[freqId], binShift)];
    }
  }

  /** The peak of the averaged, de-dispersed profile for one trial DM. */
  function TrialPeak(bm: Helpers, profile: seq<seq<real>>, freq: seq<real>, nch: nat, trialDm: real, tRes: real): real
    requires 1 <= nch <= |profile| && nch <= |freq|
  {
    bm.findPeak(bm.averageProfile(ShiftedChannels(bm, profile, freq, nch, trialDm, tRes)))
  }

  /** The outer `for dm_id` loop: per trial DM, the average of the shifted
      channels and its peak, appended in trial order. */
  method AverageTrials(bm: Helpers, profile: seq<seq<real>>, freq: seq<real>, nch: nat, dmRange: seq<real>, tRes: real)
    returns (averageProfile: seq<seq<real>>, peaksOfAverage: seq<real>)
    requires 1 <= nch <= |profile| && nch <= |freq|
    ensures |averageProfile| == |dmRange| && |peaksOfAverage| == |dmRange|
    ensures forall d :: 0 <= d < |dmRange| ==>
      averageProfile[d] == bm.averageProfile(ShiftedChannels(bm, profile, freq, nch, dmRange[d], tRes))
    ensures forall d :: 0 <= d < |dmRange| ==> peaksOfAverage[d] == TrialPeak(bm, profile, freq, nch, dmRange[d], tRes)
  {
    averageProfile, peaksOfAverage := [], [];
    for dmId := 0 to |dmRange|
      invariant |averageProfile| == dmId && |peaksOfAverage| == dmId
      invariant forall d :: 0 <= d < dmId ==>
        averageProfile[d] == bm.averageProfile(ShiftedChannels(bm, profile, freq, nch, dmRange[d], tRes))
      invariant forall d :: 0 <= d < dmId ==> peaksOfAverage[d] == TrialPeak(bm, profile, freq, nch, dmRange[d], tRes)
    {
      var shifted := ShiftChannels(bm, profile, freq, nch, dmRange[dmId], tRes);
      averageProfile := averageProfile + [bm.averageProfile(shifted)];
      peaksOfAverage := peaksOfAverage + [bm.findPeak(averageProfile[dmId])];
    }
  }

  /** Index i holds the maximum of s, and no later index does. */
  predicate IsLastMaximum(s: seq<real>, i: nat)
  {
    && i < |s|
    && (forall j :: 0 <= j < |s| ==> s[j] <= s[i])
    && (forall j :: i < j < |s| ==> s[j] < s[i])
  }

  /** The selection loop: every trial whose peak equals the maximum
      overwrites best_dm, so the LAST such trial wins. With no trials best_dm
      is never bound (None). */
  method SelectBestDm(dmRange: seq<real>, peaksOfAverage: seq<real>) returns (bestDm: Option<real>)
    requires |peaksOfAverage| <= |dmRange|
    ensures bestDm.None? <==> |peaksOfAverage| == 0
    ensures bestDm.Some? ==> exists i :: 0 <= i < |peaksOfAverage| && bestDm.value == dmRange[i] && IsLastMaximum(peaksOfAverage, i)
  {
    bestDm := None;
    ghost var chosen: int := -1;
    for i := 0 to |peaksOfAverage|
      invariant -1 <= chosen < i
      invariant bestDm.None? <==> chosen == -1
      invariant chosen >= 0 ==> bestDm == Some(dmRange[chosen]) && peaksOfAverage[chosen] == MaxOf(peaksOfAverage)
      invariant forall j :: chosen < j < i ==> peaksOfAverage[j] != MaxOf(peaksOfAverage)
    {
      if peaksOfAverage[i] == MaxOf(peaksOfAverage) {
        bestDm := Some(dmRange[i]);
        chosen := i;
      }
    }
    if chosen >= 0 {
      assert IsLastMaximum(peaksOfAverage, chosen);
    }
  }

  /** With at least one trial, the selected DM is one of the trials and its
      peak is at least every other trial's. */
  lemma BestDmIsTrialWithMaximalPeak(dmRange: seq<real>, peaksOfAverage: seq<real>, best: real, i: nat)
    requires |peaksOfAverage| <= |dmRange|
    requires i < |peaksOfAverage| && best == dmRange[i] && IsLastMaximum(peaksOfAverage, i)
    ensures best in dmRange
    ensures peaksOfAverage[i] == MaxOf(peaksOfAverage)
  {
  }

  /** Section 5 of the script: the phase bins of the first and last channel,
      the trial DM range from them, the trial averages, and the DM picked. */
  method FitDm(cfg: Config, bm: Helpers, profile: seq<seq<real>>, freq: seq<real>)
    returns (dmRange: seq<real>, peaksOfAverage: seq<real>, bestDm: Option<real>)
    requires 1 <= cfg.nch <= |profile| && cfg.nch <= |freq|
    ensures dmRange == bm.findDeltaDm(cfg.period, profile, Phase(), bm.findPhaseBin(profile[cfg.nch - 1]),
                                      bm.findPhaseBin(profile[0]), freq[cfg.nch - 1], freq[0], cfg.nch)
    ensures |peaksOfAverage| == |dmRange|
    ensures forall d :: 0 <= d < |dmRange| ==>
      peaksOfAverage[d] == TrialPeak(bm, profile, freq, cfg.nch, dmRange[d], TimeResolution(cfg.period))
    ensures bestDm.None? <==> |dmRange| == 0
    ensures bestDm.Some? ==> exists i :: 0 <= i < |dmRange| && bestDm.value == dmRange[i] && IsLastMaximum(peaksOfAverage, i)
  {
    var nch := cfg.nch;
    var phaseBin0 := bm.findPhaseBin(profile[nch - 1]);
    var phaseBin1 := bm.findPhaseBin(profile[0]);
    dmRange := bm.findDeltaDm(cfg.period, profile, Phase(), phaseBin0, phaseBin1, freq[nch - 1], freq[0], nch);
    var averageProfile;
    averageProfile, peaksOfAverage := AverageTrials(bm, profile, freq, nch, dmRange, TimeResolution(cfg.period));
    bestDm := SelectBestDm(dmRange, peaksOfAverage);
  }

  //--------------------------------------------------------------------------
  // The whole script body
  //--------------------------------------------------------------------------

  /** Everything the script body computes, except the beams. */
  datatype Run = Run(
    freq: seq<real>,
    heights: seq<real>,
    prof: seq<seq<real>>,
    w10: seq<real>,
    scProf: seq<seq<real>>,
    peaks: seq<real>,
    profile: seq<seq<real>>,
    dmRange: seq<real>,
    peaksOfAverage: seq<real>,
    bestDm: Option<real>)

  /** The script body, steps 1 to 5, in order. */
  method RunScript(cfg: Config, bm: Helpers, exp: real -> real) returns (run: Run, beam: seq<array2<real>>)
    requires cfg.nch >= 1
    requires cfg.snr.Some? ==> NoiseKeepsChannels(bm)
    requires forall i :: 0 <= i < cfg.nch ==>
      ChannelInputsOk(cfg, bm, EmissionHeights(cfg, bm), ChannelFrequencies(cfg.minFreq, cfg.chbw, cfg.nch)[i])
    ensures run.freq == ChannelFrequencies(cfg.minFreq, cfg.chbw, cfg.nch)
    ensures run.heights == EmissionHeights(cfg, bm)
    ensures |run.prof| == cfg.nch && |run.w10| == cfg.nch && |beam| == cfg.nch
    ensures forall i :: 0 <= i < cfg.nch ==>
      run.prof[i] == ChannelProfile(cfg, bm, exp, run.heights, run.freq[i]) && run.w10[i] == bm.findWidth(run.prof[i])
    ensures forall i :: 0 <= i < cfg.nch ==>
      fresh(beam[i]) && HoldsChannelBeam(beam[i], cfg, bm, exp, run.heights, run.freq[i])
    ensures !cfg.scatter ==> run.scProf == run.prof
    ensures cfg.scatter ==> |run.scProf| == cfg.nch && forall k :: 0 <= k < cfg.nch ==>
      run.scProf[k] == ScatteredProfile(bm, cfg.period, cfg.dm, cfg.iseed, run.freq[k], run.prof[k])
    ensures |run.peaks| == cfg.nch && forall j :: 0 <= j < cfg.nch ==> run.peaks[j] == bm.findPeak(run.scProf[j])
    ensures run.profile == NoiseStage(bm, cfg.snr, cfg.iseed, run.scProf, run.peaks)
    ensures !cfg.scatter && cfg.snr.None? ==> run.profile == run.prof
    ensures |run.profile| == cfg.nch
    ensures run.dmRange == bm.findDeltaDm(cfg.period, run.profile, Phase(), bm.findPhaseBin(run.profile[cfg.nch - 1]),
                                          bm.findPhaseBin(run.profile[0]), run.freq[cfg.nch - 1], run.freq[0], cfg.nch)
    ensures |run.peaksOfAverage| == |run.dmRange| && forall d :: 0 <= d < |run.dmRange| ==>
      run.peaksOfAverage[d] == TrialPeak(bm, run.profile, run.freq, cfg.nch, run.dmRange[d], TimeResolution(cfg.period))
    ensures run.bestDm.None? <==> |run.dmRange| == 0
    ensures run.bestDm.Some? ==>
      exists i :: 0 <= i < |run.dmRange| && run.bestDm.value == run.dmRange[i] && IsLastMaximum(run.peaksOfAverage, i)
  {
    var freq := ChannelFrequencies(cfg.minFreq, cfg.chbw, cfg.nch);
    var H := EmissionHeights(cfg, bm);
    var prof, w10;
    prof, beam, w10 := SynthesiseChannels(cfg, bm, exp, H, freq);
    var scProf := ScatterStage(cfg, bm, freq, prof);
    var peaks := ChannelPeaks(bm, |prof|, scProf);
    var profile := NoiseStage(bm, cfg.snr, cfg.iseed, scProf, peaks);
    var dmRange, peaksOfAverage, bestDm := FitDm(cfg, bm, profile, freq);
    run := Run(freq, H, prof, w10, scProf, peaks, profile, dmRange, peaksOfAverage, bestDm);
  }
}
