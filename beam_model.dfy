/** Signatures of the helpers of the `beamModel` module (imported as `bm`)
    that the beam script calls. Their bodies are not part of this model, so
    each is a function-valued field: every property proved elsewhere holds
    for ANY helpers of these types, except where a predicate below states an
    assumption about them explicitly. Flags that are "None or set" in the
    script become booleans (set == true), optional numbers become Options. */
module BeamModel {
  import opened Numeric

  datatype Helpers = Helpers(
    // bm.los(alpha, beta, res): line-of-sight x, y and theta samples
    los: (real, real, int) -> (seq<real>, seq<real>, seq<real>),
    // bm.patch_width(P, heights): one angular width per height
    patchWidth: (real, seq<real>) -> seq<real>,
    // bm.patch_center(P, heights, npatch, iseed, fanBeam): per height, the x and y of its patch centres
    patchCenter: (real, seq<real>, int, int, bool) -> (seq<seq<real>>, seq<seq<real>>),
    // bm.aberration(heights, P, alpha): per height, an x and a y offset
    aberration: (seq<real>, real, real) -> (seq<real>, seq<real>),
    // bm.emission_height(P, ncomp, iseed, hmin, hmax)
    emissionHeight: (real, int, int, Option<real>, Option<real>) -> seq<real>,
    // bm.height_f(H, freq)
    heightAtFrequency: (seq<real>, real) -> seq<real>,
    // bm.find_width(profile): the 10% width
    findWidth: seq<real> -> real,
    // bm.sc_time(freq, dm, iseed)
    scatterTime: (real, real, int) -> real,
    // bm.pulsetrain(copies, res, profile)
    pulseTrain: (int, int, seq<real>) -> seq<real>,
    // bm.broadening(tau, P, res)
    broadening: (real, real, int) -> seq<real>,
    // bm.scatter(train, kernel)
    scatter: (seq<real>, seq<real>) -> seq<real>,
    // bm.extractpulse(train, period index, res)
    extractPulse: (seq<real>, int, int) -> seq<real>,
    // bm.find_peak(profile)
    findPeak: seq<real> -> real,
    // bm.noise_rms(snr, peak)
    noiseRms: (real, real) -> real,
    // bm.add_noise(profiles, rms, iseed, res)
    addNoise: (seq<seq<real>>, real, int, int) -> seq<seq<real>>,
    // bm.find_phase_bin(profile)
    findPhaseBin: seq<real> -> int,
    // bm.find_delta_dm(P, profiles, phase, bin0, bin1, freq_ref, freq_low, nch)
    findDeltaDm: (real, seq<seq<real>>, seq<real>, int, int, real, real, int) -> seq<real>,
    // bm.delay(freq_ref, freq, dm, t_res): an integer bin shift
    delay: (real, real, real, real) -> int,
    // bm.avg_prof(profiles)
    averageProfile: seq<seq<real>> -> seq<real>
  )

  /** The one assumption the script's composition needs: bm.add_noise
      returns one noisy profile per profile it is given. */
  ghost predicate NoiseKeepsChannels(bm: Helpers)
  {
    forall ps, rms, seed, res :: |bm.addNoise(ps, rms, seed, res)| == |ps|
  }

  /** numpy.exp is only assumed to be positive (the beam's non-negativity
      rests on this and nothing else). */
  ghost predicate PositiveKernel(exp: real -> real)
  {
    forall t :: exp(t) > 0.0
  }
}
