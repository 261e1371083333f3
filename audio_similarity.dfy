/** The decision logic of audio_similarity_detector.py: the librosa feature
    vector and its overall score, the AcoustID overall score, the six-tier
    interpretation, and the consensus rule between the two methods. MD5,
    `SequenceMatcher.ratio` and `np.corrcoef` are library code and appear as
    the function parameters `md5`, `ratio` and `corr`. */
module AudioSimilarity {
  import opened Stats

  /** `s[:n]`: the first n elements, or all of them when there are fewer. */
  function Take(s: seq<real>, n: nat): (t: seq<real>)
    ensures |t| == if |s| < n then |s| else n
    ensures forall i :: 0 <= i < |t| ==> t[i] == s[i]
  {
    if |s| <= n then s else s[..n]
  }

  /** The flattened frame-level features of one clip. */
  datatype ClipFeatures = ClipFeatures(mfcc: seq<real>, spectralCentroid: seq<real>, spectralRolloff: seq<real>)

  const MfccLimit: nat := 1000
  const CentroidLimit: nat := 100
  const RolloffLimit: nat := 100

  /** The vector that is hashed into the librosa fingerprint: at most the
      first 1000 MFCC values, then at most the first 100 centroid values, then
      at most the first 100 rolloff values, so never more than 1200 values. */
  function FeatureVector(c: ClipFeatures): (v: seq<real>)
    ensures var m := |Take(c.mfcc, MfccLimit)|;
            var k := |Take(c.spectralCentroid, CentroidLimit)|;
      && |v| == m + k + |Take(c.spectralRolloff, RolloffLimit)|
      && |v| <= 1200
      && (forall i :: 0 <= i < m ==> v[i] == c.mfcc[i])
      && (forall i :: m <= i < m + k ==> v[i] == c.spectralCentroid[i - m])
      && (forall i :: m + k <= i < |v| ==> v[i] == c.spectralRolloff[i - m - k])
  {
    Take(c.mfcc, MfccLimit) + Take(c.spectralCentroid, CentroidLimit) + Take(c.spectralRolloff, RolloffLimit)
  }

  /** `(fingerprint + mfcc + centroid + rolloff) / 4`: the mean of exactly the
      four similarities. */
  function LibrosaOverall(fingerprint: real, mfcc: real, centroid: real, rolloff: real): (r: real)
    ensures r == Mean([fingerprint, mfcc, centroid, rolloff])
  {
    SumOfFour(fingerprint, mfcc, centroid, rolloff);
    (fingerprint + mfcc + centroid + rolloff) / 4.0
  }

  /** The dictionary returned by `compare_audio_files_librosa`. */
  datatype LibrosaResult = LibrosaResult(
    fingerprint1: string,
    fingerprint2: string,
    fingerprintSimilarity: real,
    mfccSimilarity: real,
    centroidSimilarity: real,
    rolloffSimilarity: real,
    overallSimilarity: real)

  /** `compare_audio_files_librosa` after feature extraction. The fingerprints
      hash the truncated feature vectors; the three feature similarities
      correlate the same truncated sequences; the overall similarity is the
      mean of the four. */
  function CompareAudioFilesLibrosa(
    clip1: ClipFeatures, clip2: ClipFeatures,
    md5: seq<real> -> string,
    ratio: (string, string) -> real,
    corr: (seq<real>, seq<real>) -> real): (r: LibrosaResult)
    ensures r.fingerprint1 == md5(FeatureVector(clip1)) && r.fingerprint2 == md5(FeatureVector(clip2))
    ensures r.fingerprintSimilarity == ratio(r.fingerprint1, r.fingerprint2)
    ensures r.mfccSimilarity == corr(Take(clip1.mfcc, MfccLimit), Take(clip2.mfcc, MfccLimit))
    ensures r.centroidSimilarity ==
      corr(Take(clip1.spectralCentroid, CentroidLimit), Take(clip2.spectralCentroid, CentroidLimit))
    ensures r.rolloffSimilarity ==
      corr(Take(clip1.spectralRolloff, RolloffLimit), Take(clip2.spectralRolloff, RolloffLimit))
    ensures r.overallSimilarity ==
      Mean([r.fingerprintSimilarity, r.mfccSimilarity, r.centroidSimilarity, r.rolloffSimilarity])
  {
    var fingerprint1 := md5(FeatureVector(clip1));
    var fingerprint2 := md5(FeatureVector(clip2));
    var fingerprintSimilarity := ratio(fingerprint1, fingerprint2);
    var mfccSimilarity := corr(Take(clip1.mfcc, MfccLimit), Take(clip2.mfcc, MfccLimit));
    var centroidSimilarity := corr(Take(clip1.spectralCentroid, CentroidLimit), Take(clip2.spectralCentroid, CentroidLimit));
    var rolloffSimilarity := corr(Take(clip1.spectralRolloff, RolloffLimit), Take(clip2.spectralRolloff, RolloffLimit));
    LibrosaResult(
      fingerprint1, fingerprint2, fingerprintSimilarity, mfccSimilarity, centroidSimilarity, rolloffSimilarity,
      LibrosaOverall(fingerprintSimilarity, mfccSimilarity, centroidSimilarity, rolloffSimilarity))
  }

  /** Two clips whose first 1000 MFCC values, first 100 centroid values and
      first 100 rolloff values agree get the same librosa comparison against
      any third clip: nothing after the truncation points contributes. */
  lemma LibrosaIgnoresBeyondTruncation(
    clip1: ClipFeatures, clip1': ClipFeatures, clip2: ClipFeatures,
    md5: seq<real> -> string, ratio: (string, string) -> real, corr: (seq<real>, seq<real>) -> real)
    requires Take(clip1.mfcc, MfccLimit) == Take(clip1'.mfcc, MfccLimit)
    requires Take(clip1.spectralCentroid, CentroidLimit) == Take(clip1'.spectralCentroid, CentroidLimit)
    requires Take(clip1.spectralRolloff, RolloffLimit) == Take(clip1'.spectralRolloff, RolloffLimit)
    ensures CompareAudioFilesLibrosa(clip1, clip2, md5, ratio, corr) == CompareAudioFilesLibrosa(clip1', clip2, md5, ratio, corr)
  {
  }

  /** With the fingerprint ratio in [0, 1] and the correlations in [-1, 1],
      the librosa overall similarity lies in [-3/4, 1]; four equal
      similarities give that same value. */
  lemma LibrosaOverallBounds(fingerprint: real, mfcc: real, centroid: real, rolloff: real)
    ensures 0.0 <= fingerprint <= 1.0 && -1.0 <= mfcc <= 1.0 && -1.0 <= centroid <= 1.0 && -1.0 <= rolloff <= 1.0
      ==> -0.75 <= LibrosaOverall(fingerprint, mfcc, centroid, rolloff) <= 1.0
    ensures fingerprint == mfcc == centroid == rolloff ==> LibrosaOverall(fingerprint, mfcc, centroid, rolloff) == fingerprint
  {
  }

  /** When the four similarities lie in one interval, so does the librosa
      overall similarity. */
  lemma LibrosaOverallWithin(fingerprint: real, mfcc: real, centroid: real, rolloff: real, lo: real, hi: real)
    requires lo <= fingerprint <= hi && lo <= mfcc <= hi && lo <= centroid <= hi && lo <= rolloff <= hi
    ensures lo <= LibrosaOverall(fingerprint, mfcc, centroid, rolloff) <= hi
  {
    MeanWithin([fingerprint, mfcc, centroid, rolloff], lo, hi);
  }

  /** The dictionary returned by `compare_audio_files_acoustid`. */
  datatype AcoustidResult = AcoustidResult(
    fingerprint1: string,
    fingerprint2: string,
    fingerprintSimilarity: real,
    overallSimilarity: real,
    duration1: real,
    duration2: real)

  /** `compare_audio_files_acoustid` after fingerprinting: the overall
      similarity is the fingerprint similarity and nothing else. */
  function CompareAudioFilesAcoustid(
    fingerprint1: string, duration1: real, fingerprint2: string, duration2: real,
    ratio: (string, string) -> real): (r: AcoustidResult)
    ensures r.overallSimilarity == r.fingerprintSimilarity == ratio(fingerprint1, fingerprint2)
    ensures r.fingerprint1 == fingerprint1 && r.fingerprint2 == fingerprint2
    ensures r.duration1 == duration1 && r.duration2 == duration2
  {
    var similarity := ratio(fingerprint1, fingerprint2);
    AcoustidResult(fingerprint1, fingerprint2, similarity, similarity, duration1, duration2)
  }

  /** The six tiers of `interpret_similarity`. */
  datatype Verdict = Identical | VerySimilar | Similar | SomewhatSimilar | SlightlySimilar | Different {
    function Text(): string {
      match this
      case Identical => "IDENTICAL - Same audio file"
      case VerySimilar => "VERY SIMILAR - Likely same content with minor differences"
      case Similar => "SIMILAR - Related audio content"
      case SomewhatSimilar => "SOMEWHAT SIMILAR - Some common characteristics"
      case SlightlySimilar => "SLIGHTLY SIMILAR - Minimal common features"
      case Different => "DIFFERENT - Unrelated audio content"
    }

    function Rank(): nat {
      match this
      case Identical => 5
      case VerySimilar => 4
      case Similar => 3
      case SomewhatSimilar => 2
      case SlightlySimilar => 1
      case Different => 0
    }

    /** The tier's inclusive lower threshold. */
    predicate ReachedBy(score: real) {
      match this
      case Identical => score >= 0.95
      case VerySimilar => score >= 0.8
      case Similar => score >= 0.6
      case SomewhatSimilar => score >= 0.4
      case SlightlySimilar => score >= 0.2
      case Different => true
    }
  }

  /** `interpret_similarity`: total over all reals; the verdict is the
      highest-ranked tier whose inclusive threshold the score reaches. */
  function InterpretSimilarity(score: real): (v: Verdict)
    ensures v.ReachedBy(score)
    ensures forall w: Verdict :: w.ReachedBy(score) ==> w.Rank() <= v.Rank()
  {
    if score >= 0.95 then Identical
    else if score >= 0.8 then VerySimilar
    else if score >= 0.6 then Similar
    else if score >= 0.4 then SomewhatSimilar
    else if score >= 0.2 then SlightlySimilar
    else Different
  }

  lemma {:induction false} InterpretSimilarityMonotone(s: real, t: real)
    requires s <= t
    ensures InterpretSimilarity(s).Rank() <= InterpretSimilarity(t).Rank()
  {
    assert InterpretSimilarity(s).ReachedBy(t);
  }

  lemma InterpretSimilarityBoundaries()
    ensures InterpretSimilarity(0.95) == Identical && InterpretSimilarity(0.8) == VerySimilar
    ensures InterpretSimilarity(0.6) == Similar && InterpretSimilarity(0.4) == SomewhatSimilar
    ensures InterpretSimilarity(0.2) == SlightlySimilar && InterpretSimilarity(-1.0) == Different
    ensures InterpretSimilarity(2.0) == Identical
  {
  }

  /** The three outcomes of the consensus branch in `main_comparison`. */
  datatype Consensus = BothAgree | LibrosaHigher | AcoustidHigher

  /** The methods agree when their overall scores are strictly less than 0.1
      apart; otherwise the higher one is named, and it is higher by at least
      0.1. Exactly one outcome holds for every pair of scores. */
  function DecideConsensus(librosa: real, acoustid: real): (c: Consensus)
    ensures c == BothAgree <==> Abs(librosa - acoustid) < 0.1
    ensures c == LibrosaHigher <==> librosa - acoustid >= 0.1
    ensures c == AcoustidHigher <==> acoustid - librosa >= 0.1
  {
    if Abs(librosa - acoustid) < 0.1 then BothAgree
    else if librosa > acoustid then LibrosaHigher
    else AcoustidHigher
  }

  /** Swapping the two scores swaps which method is named and keeps
      agreement. */
  lemma ConsensusSwap(x: real, y: real)
    ensures DecideConsensus(x, y) == BothAgree <==> DecideConsensus(y, x) == BothAgree
    ensures DecideConsensus(x, y) == LibrosaHigher <==> DecideConsensus(y, x) == AcoustidHigher
  {
  }
}
