/** The multi-feature similarity scorer of enhanced_similarity_detector.py:
    nine per-feature similarity entries computed from two already-extracted
    feature summaries, their mean, and the five-bucket interpretation of that
    mean. Feature extraction itself and the Pearson correlation are library
    code; the correlation is the function parameter `corr`. */
module EnhancedSimilarity {
  import opened Wrappers
  import opened Stats

  /** The dictionary returned by `analyze_audio_characteristics`, one per clip. */
  datatype FeatureSummary = FeatureSummary(
    duration: real,
    sampleRate: int,
    rmsEnergy: real,
    zeroCrossingRateMean: real,
    spectralCentroidMean: real,
    spectralRolloffMean: real,
    spectralBandwidthMean: real,
    mfccMean: seq<real>,
    chromaMean: seq<real>,
    tempo: real,
    harmonicRatio: real,
    percussiveRatio: real)

  /** Python's `ZeroDivisionError` from a float division by `max(a, b) == 0`;
      nothing in the scorer catches it, so it aborts the comparison. */
  datatype ScoreError = ZeroDivision

  /** Closeness of two scalar measurements: `max(0, 1 - |a - b| / max(a, b))`.
      The division is unguarded: it fails exactly when `max(a, b)` is zero,
      which for non-negative measurements means both are zero. For
      non-negative measurements the score lies in [0, 1], and it is 1 exactly
      when the two measurements are equal. */
  function Closeness(a: real, b: real): (r: Result<real, ScoreError>)
    ensures r.Failure? <==> Max(a, b) == 0.0
    ensures a >= 0.0 && b >= 0.0 ==> (r.Failure? <==> a == 0.0 && b == 0.0)
    ensures r.Success? && a >= 0.0 && b >= 0.0 ==> 0.0 <= r.value <= 1.0
    ensures r.Success? ==> (r.value == 1.0 <==> a == b)
  {
    var m := Max(a, b);
    if m == 0.0 then
      Failure(ZeroDivision)
    else
      var q := Abs(a - b) / m;
      assert a >= 0.0 && b >= 0.0 ==> Abs(a - b) <= m;
      assert a >= 0.0 && b >= 0.0 ==> q <= 1.0 by {
        if a >= 0.0 && b >= 0.0 {
          FractionWithin(Abs(a - b), m);
        }
      }
      assert q == 0.0 <==> a == b by {
        assert q * m == Abs(a - b);
      }
      Success(Max(0.0, 1.0 - q))
  }

  /** Closeness does not depend on which clip comes first. */
  lemma ClosenessSymmetric(a: real, b: real)
    ensures Closeness(a, b) == Closeness(b, a)
  {
    assert Max(a, b) == Max(b, a);
    assert Abs(a - b) == Abs(b - a);
  }

  /** Two clips at 120 and 130 beats per minute: the tempo entry is
      1 - 10/130 = 12/13. */
  lemma TempoExample()
    ensures Closeness(120.0, 130.0) == Success(12.0 / 13.0)
  {
  }

  /** Similarity of two ratio features: `max(0, 1 - |a - b|)`, with no
      normalisation. It lies in [0, 1] and is 1 exactly when the two ratios
      are equal, for every pair of reals. */
  function RatioSimilarity(a: real, b: real): (r: real)
    ensures 0.0 <= r <= 1.0
    ensures r == 1.0 <==> a == b
  {
    Max(0.0, 1.0 - Abs(a - b))
  }

  lemma RatioSimilaritySymmetric(a: real, b: real)
    ensures RatioSimilarity(a, b) == RatioSimilarity(b, a)
  {
    assert Abs(a - b) == Abs(b - a);
  }

  /** The nine entries of the `similarities` dictionary, by feature. */
  datatype Similarities = Similarities(
    duration: real,
    energy: real,
    spectralCentroid: real,
    spectralRolloff: real,
    mfcc: real,
    chroma: real,
    tempo: real,
    harmonicRatio: real,
    percussiveRatio: real)

  /** The five measurements compared by `Closeness`; a zero pair among them
      makes the comparison fail. */
  predicate ClosenessDefined(c1: FeatureSummary, c2: FeatureSummary) {
    && Max(c1.duration, c2.duration) != 0.0
    && Max(c1.rmsEnergy, c2.rmsEnergy) != 0.0
    && Max(c1.spectralCentroidMean, c2.spectralCentroidMean) != 0.0
    && Max(c1.spectralRolloffMean, c2.spectralRolloffMean) != 0.0
    && Max(c1.tempo, c2.tempo) != 0.0
  }

  /** The per-feature scores of one comparison, feature by feature. Fails
      exactly when one of the five normalised scores divides by zero. */
  function ScoreFeatures(c1: FeatureSummary, c2: FeatureSummary, corr: (seq<real>, seq<real>) -> real)
    : (r: Result<Similarities, ScoreError>)
    ensures r.Success? <==> ClosenessDefined(c1, c2)
  {
    var duration :- Closeness(c1.duration, c2.duration);
    var energy :- Closeness(c1.rmsEnergy, c2.rmsEnergy);
    var centroid :- Closeness(c1.spectralCentroidMean, c2.spectralCentroidMean);
    var rolloff :- Closeness(c1.spectralRolloffMean, c2.spectralRolloffMean);
    var mfcc := corr(c1.mfccMean, c2.mfccMean);
    var chroma := corr(c1.chromaMean, c2.chromaMean);
    var tempo :- Closeness(c1.tempo, c2.tempo);
    Success(Similarities(
      duration, energy, centroid, rolloff, mfcc, chroma, tempo,
      RatioSimilarity(c1.harmonicRatio, c2.harmonicRatio),
      RatioSimilarity(c1.percussiveRatio, c2.percussiveRatio)))
  }

  /** The dictionary's values in insertion order. */
  function Values(s: Similarities): seq<real> {
    [s.duration, s.energy, s.spectralCentroid, s.spectralRolloff, s.mfcc, s.chroma,
     s.tempo, s.harmonicRatio, s.percussiveRatio]
  }

  /** `np.mean(list(similarities.values()))`. */
  function OverallSimilarity(s: Similarities): real {
    Mean(Values(s))
  }

  /** The overall similarity is the plain mean of exactly the nine entries,
      each weighted 1/9. */
  lemma OverallIsMeanOfNine(s: Similarities)
    ensures OverallSimilarity(s) ==
      (s.duration + s.energy + s.spectralCentroid + s.spectralRolloff + s.mfcc + s.chroma
       + s.tempo + s.harmonicRatio + s.percussiveRatio) / 9.0
  {
    SumOfNine(s.duration, s.energy, s.spectralCentroid, s.spectralRolloff, s.mfcc, s.chroma,
              s.tempo, s.harmonicRatio, s.percussiveRatio);
  }

  /** Every measurement the scorer reads is non-negative, as the extractor
      produces them (durations, energies, frequencies, tempi). */
  predicate NonNegative(c: FeatureSummary) {
    && c.duration >= 0.0 && c.rmsEnergy >= 0.0 && c.spectralCentroidMean >= 0.0
    && c.spectralRolloffMean >= 0.0 && c.tempo >= 0.0
  }

  /** For non-negative measurements the seven scalar and ratio entries lie
      in [0, 1]; the two correlation entries are whatever the correlation
      returns, unclamped. */
  lemma EntriesBounded(c1: FeatureSummary, c2: FeatureSummary, corr: (seq<real>, seq<real>) -> real)
    requires NonNegative(c1) && NonNegative(c2)
    requires ClosenessDefined(c1, c2)
    ensures var s := ScoreFeatures(c1, c2, corr).value;
      && 0.0 <= s.duration <= 1.0 && 0.0 <= s.energy <= 1.0
      && 0.0 <= s.spectralCentroid <= 1.0 && 0.0 <= s.spectralRolloff <= 1.0
      && 0.0 <= s.tempo <= 1.0 && 0.0 <= s.harmonicRatio <= 1.0 && 0.0 <= s.percussiveRatio <= 1.0
      && s.mfcc == corr(c1.mfccMean, c2.mfccMean) && s.chroma == corr(c1.chromaMean, c2.chromaMean)
  {
  }

  /** With the seven scalar and ratio entries in [0, 1] and the correlations
      in [-1, 1], the overall similarity lies in [-2/9, 1]: it is bounded only
      as far as the correlations are. */
  lemma OverallBounded(s: Similarities)
    requires 0.0 <= s.duration <= 1.0 && 0.0 <= s.energy <= 1.0
    requires 0.0 <= s.spectralCentroid <= 1.0 && 0.0 <= s.spectralRolloff <= 1.0
    requires 0.0 <= s.tempo <= 1.0 && 0.0 <= s.harmonicRatio <= 1.0 && 0.0 <= s.percussiveRatio <= 1.0
    requires -1.0 <= s.mfcc <= 1.0 && -1.0 <= s.chroma <= 1.0
    ensures -2.0 / 9.0 <= OverallSimilarity(s) <= 1.0
  {
    OverallIsMeanOfNine(s);
  }

  /** When all nine similarities lie in one interval, so does the overall
      similarity; nine equal similarities give that value. */
  lemma OverallWithin(s: Similarities, lo: real, hi: real)
    requires AllWithin(Values(s), lo, hi)
    ensures lo <= OverallSimilarity(s) <= hi
  {
    MeanWithin(Values(s), lo, hi);
  }

  /** Two clips whose correlations are both -1 and whose other measurements
      are as far apart as the formulas allow give a negative overall
      similarity: the score is not confined to [0, 1]. */
  lemma OverallCanBeNegative()
    ensures var c1 := FeatureSummary(1.0, 22050, 1.0, 0.0, 1.0, 1.0, 0.0, [1.0, 2.0], [1.0, 2.0], 1.0, 0.0, 0.0);
            var c2 := FeatureSummary(0.0, 22050, 0.0, 0.0, 0.0, 0.0, 0.0, [2.0, 1.0], [2.0, 1.0], 0.0, 1.0, 1.0);
            var corr := (x: seq<real>, y: seq<real>) => -1.0;
            && ScoreFeatures(c1, c2, corr).Success?
            && OverallSimilarity(ScoreFeatures(c1, c2, corr).value) == -2.0 / 9.0
  {
    var c1 := FeatureSummary(1.0, 22050, 1.0, 0.0, 1.0, 1.0, 0.0, [1.0, 2.0], [1.0, 2.0], 1.0, 0.0, 0.0);
    var c2 := FeatureSummary(0.0, 22050, 0.0, 0.0, 0.0, 0.0, 0.0, [2.0, 1.0], [2.0, 1.0], 0.0, 1.0, 1.0);
    var corr := (x: seq<real>, y: seq<real>) => -1.0;
    var s := ScoreFeatures(c1, c2, corr).value;
    assert s == Similarities(0.0, 0.0, 0.0, 0.0, -1.0, -1.0, 0.0, 0.0, 0.0);
    OverallIsMeanOfNine(s);
  }

  /** Comparing a summary with itself: the seven scalar and ratio entries are
      all 1, and the overall score is (7 + the two self-correlations) / 9. */
  lemma SelfComparison(c: FeatureSummary, corr: (seq<real>, seq<real>) -> real)
    requires ClosenessDefined(c, c)
    ensures var s := ScoreFeatures(c, c, corr).value;
      && s.duration == 1.0 && s.energy == 1.0 && s.spectralCentroid == 1.0
      && s.spectralRolloff == 1.0 && s.tempo == 1.0
      && s.harmonicRatio == 1.0 && s.percussiveRatio == 1.0
      && OverallSimilarity(s) == (7.0 + corr(c.mfccMean, c.mfccMean) + corr(c.chromaMean, c.chromaMean)) / 9.0
  {
    OverallIsMeanOfNine(ScoreFeatures(c, c, corr).value);
  }

  /** Swapping the clips swaps the arguments of the two correlations and
      leaves the seven other entries unchanged. */
  lemma ScoreFeaturesSymmetric(c1: FeatureSummary, c2: FeatureSummary, corr: (seq<real>, seq<real>) -> real)
    requires ClosenessDefined(c1, c2)
    ensures ClosenessDefined(c2, c1)
    ensures var s := ScoreFeatures(c1, c2, corr).value;
            var t := ScoreFeatures(c2, c1, corr).value;
      && s.duration == t.duration && s.energy == t.energy
      && s.spectralCentroid == t.spectralCentroid && s.spectralRolloff == t.spectralRolloff
      && s.tempo == t.tempo && s.harmonicRatio == t.harmonicRatio && s.percussiveRatio == t.percussiveRatio
      && t.mfcc == corr(c2.mfccMean, c1.mfccMean) && t.chroma == corr(c2.chromaMean, c1.chromaMean)
  {
    ClosenessSymmetric(c1.duration, c2.duration);
    ClosenessSymmetric(c1.rmsEnergy, c2.rmsEnergy);
    ClosenessSymmetric(c1.spectralCentroidMean, c2.spectralCentroidMean);
    ClosenessSymmetric(c1.spectralRolloffMean, c2.spectralRolloffMean);
    ClosenessSymmetric(c1.tempo, c2.tempo);
    RatioSimilaritySymmetric(c1.harmonicRatio, c2.harmonicRatio);
    RatioSimilaritySymmetric(c1.percussiveRatio, c2.percussiveRatio);
  }

  /** The sample rate, the zero-crossing rate and the spectral bandwidth are
      extracted but take no part in any score. */
  lemma UnscoredFieldsIgnored(c1: FeatureSummary, c2: FeatureSummary, corr: (seq<real>, seq<real>) -> real,
                              sampleRate: int, zcr: real, bandwidth: real)
    ensures var d1 := c1.(sampleRate := sampleRate, zeroCrossingRateMean := zcr, spectralBandwidthMean := bandwidth);
            var d2 := c2.(sampleRate := sampleRate, zeroCrossingRateMean := zcr, spectralBandwidthMean := bandwidth);
      ScoreFeatures(d1, c2, corr) == ScoreFeatures(c1, c2, corr) == ScoreFeatures(c1, d2, corr)
  {
  }

  /** One entry of the `similarities` dictionary. */
  datatype Entry = Entry(name: string, value: real)

  const FeatureNames: seq<string> := [
    "duration", "energy", "spectral_centroid", "spectral_rolloff", "mfcc", "chroma",
    "tempo", "harmonic_ratio", "percussive_ratio"]

  function Names(es: seq<Entry>): seq<string> {
    seq(|es|, i requires 0 <= i < |es| => es[i].name)
  }

  function EntryValues(es: seq<Entry>): seq<real> {
    seq(|es|, i requires 0 <= i < |es| => es[i].value)
  }

  /** The dictionary returned by `enhanced_similarity_detection`. */
  datatype EnhancedResult = EnhancedResult(
    characteristics1: FeatureSummary,
    characteristics2: FeatureSummary,
    similarities: seq<Entry>,
    overallSimilarity: real)

  /** `enhanced_similarity_detection` after both clips are analysed: fills the
      `similarities` dictionary one key at a time in the source's order, then
      averages its values. A zero division aborts the whole comparison. On
      success the dictionary holds exactly the nine feature keys, in order,
      with the scores of `ScoreFeatures`, and the overall similarity is their
      mean. */
  method EnhancedSimilarityDetection(c1: FeatureSummary, c2: FeatureSummary, corr: (seq<real>, seq<real>) -> real)
    returns (res: Result<EnhancedResult, ScoreError>)
    ensures res.Success? <==> ClosenessDefined(c1, c2)
    ensures res.Success? ==>
      && res.value.characteristics1 == c1 && res.value.characteristics2 == c2
      && Names(res.value.similarities) == FeatureNames
      && EntryValues(res.value.similarities) == Values(ScoreFeatures(c1, c2, corr).value)
      && res.value.overallSimilarity == OverallSimilarity(ScoreFeatures(c1, c2, corr).value)
  {
    var similarities: seq<Entry> := [];

    var duration :- Closeness(c1.duration, c2.duration);
    similarities := similarities + [Entry("duration", duration)];

    var energy :- Closeness(c1.rmsEnergy, c2.rmsEnergy);
    similarities := similarities + [Entry("energy", energy)];

    var centroid :- Closeness(c1.spectralCentroidMean, c2.spectralCentroidMean);
    similarities := similarities + [Entry("spectral_centroid", centroid)];

    var rolloff :- Closeness(c1.spectralRolloffMean, c2.spectralRolloffMean);
    similarities := similarities + [Entry("spectral_rolloff", rolloff)];

    similarities := similarities + [Entry("mfcc", corr(c1.mfccMean, c2.mfccMean))];
    similarities := similarities + [Entry("chroma", corr(c1.chromaMean, c2.chromaMean))];

    var tempo :- Closeness(c1.tempo, c2.tempo);
    similarities := similarities + [Entry("tempo", tempo)];

    similarities := similarities + [Entry("harmonic_ratio", RatioSimilarity(c1.harmonicRatio, c2.harmonicRatio))];
    similarities := similarities + [Entry("percussive_ratio", RatioSimilarity(c1.percussiveRatio, c2.percussiveRatio))];

    var overall := Mean(EntryValues(similarities));
    res := Success(EnhancedResult(c1, c2, similarities, overall));
  }

  /** The interpretation chain of `main_enhanced_analysis`; it has no
      IDENTICAL tier. */
  datatype Interpretation = VerySimilar | Similar | SomewhatSimilar | SlightlySimilar | Different {
    function Text(): string {
      match this
      case VerySimilar => "VERY SIMILAR"
      case Similar => "SIMILAR"
      case SomewhatSimilar => "SOMEWHAT SIMILAR"
      case SlightlySimilar => "SLIGHTLY SIMILAR"
      case Different => "DIFFERENT"
    }

    /** Position in the table, DIFFERENT lowest. */
    function Rank(): nat {
      match this
      case VerySimilar => 4
      case Similar => 3
      case SomewhatSimilar => 2
      case SlightlySimilar => 1
      case Different => 0
    }

    /** The table's entry condition for this label: an inclusive lower bound. */
    predicate ReachedBy(score: real) {
      match this
      case VerySimilar => score >= 0.8
      case Similar => score >= 0.6
      case SomewhatSimilar => score >= 0.4
      case SlightlySimilar => score >= 0.2
      case Different => true
    }
  }

  /** The label is the highest-ranked one whose inclusive threshold the score
      reaches, so every score, however far outside [0, 1], gets exactly one
      label and a boundary value belongs to the higher bucket. */
  function Interpret(overall: real): (v: Interpretation)
    ensures v.ReachedBy(overall)
    ensures forall w: Interpretation :: w.ReachedBy(overall) ==> w.Rank() <= v.Rank()
  {
    if overall >= 0.8 then VerySimilar
    else if overall >= 0.6 then Similar
    else if overall >= 0.4 then SomewhatSimilar
    else if overall >= 0.2 then SlightlySimilar
    else Different
  }

  /** A higher score never gets a lower label. */
  lemma {:induction false} InterpretMonotone(s: real, t: real)
    requires s <= t
    ensures Interpret(s).Rank() <= Interpret(t).Rank()
  {
    assert Interpret(s).ReachedBy(t);
  }

  /** The boundaries themselves belong to the higher bucket, and a perfect
      score is only VERY SIMILAR. */
  lemma InterpretBoundaries()
    ensures Interpret(1.0) == VerySimilar && Interpret(0.8) == VerySimilar
    ensures Interpret(0.6) == Similar && Interpret(0.4) == SomewhatSimilar
    ensures Interpret(0.2) == SlightlySimilar && Interpret(0.19) == Different
  {
  }
}
