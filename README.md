# Audio fingerprinting: similarity decisions, modelled in Dafny

The repository compares audio clips in two ways. One uses chroma-based Chromaprint fingerprints from the AcoustID library. The other uses a hand-built feature fingerprint from MFCC and spectral descriptors computed by librosa. Almost all of the code loads audio, calls libraries, prints and plots. This project models the decision logic that sits on top of the library results:

- **EnhancedSimilarity** (`enhanced_similarity_detector.py`). Two feature summaries give nine per-feature similarity entries:
  - a normalised closeness `max(0, 1 - |a-b|/max(a,b))` for duration, RMS energy, spectral centroid, spectral rolloff and tempo;
  - a bounded difference `max(0, 1 - |a-b|)` for the harmonic and percussive ratios;
  - two correlation entries for the MFCC and chroma means.

  The module also models their mean and the five-bucket interpretation. The scorer fills the `similarities` dictionary key by key and aborts on a zero division. It is modelled as a method, proved against the pure per-feature function `ScoreFeatures`.
- **AudioSimilarity** (`audio_similarity_detector.py`). It models:
  - the truncated librosa feature vector (at most 1000 + 100 + 100 values);
  - the librosa overall score, the mean of four similarities;
  - the AcoustID overall score, which is its fingerprint similarity;
  - the six-tier `interpret_similarity`;
  - the three-way consensus rule.
- **AcoustidExplorer** (`acoustid_explorer.py`). It models:
  - the positional fingerprint match ratio (equal characters at equal positions over the zipped prefix, divided by the longer length);
  - its strict-`>` classifier;
  - the result dictionaries of `explore_acoustid_fingerprinting` and `compare_fingerprints`. Each is a record that a method fills in step by step from the outcomes of the library calls.
- **ThresholdTables**: the three threshold tables are modelled separately, as written. One lemma shows where they disagree.
- **Stats** and **Wrappers** are helpers: sum, mean, absolute value and Python's two-argument `max`, plus `Option` and `Result`.

The library computations are parameters of the model: Pearson correlation (`np.corrcoef`), `SequenceMatcher.ratio` and MD5 are uninterpreted function parameters. `acoustid.fingerprint_file` and `acoustid.lookup` are outcome datatypes (success with data, or a failure with its message). Floating point is modelled as exact `real` arithmetic.

Edge cases, as the code behaves:
- Two zero measurements (for example two silent clips with RMS energy 0.0) make `Closeness` divide by zero. The comparison then fails with `ZeroDivision`; it does not score 1.0.
- The correlation entries are passed through unclamped, so the overall score can be negative (`OverallCanBeNegative`).
- The three threshold tables are kept as three tables rather than unified.
- No check for mismatched vector lengths or zero variance happens in the scorer. Those cases belong to the correlation library, which is a parameter here.

## Model

| member | source | states |
|---|---|---|
| `Stats.MeanWithin` | enhanced_similarity_detector.py:112 | the mean of values that all lie in [lo, hi] lies in [lo, hi] |
| `EnhancedSimilarity.Closeness` | enhanced_similarity_detector.py:76-88 | fails exactly when max(a, b) is 0, which for non-negative inputs means both are 0; for non-negative inputs the score is in [0, 1]; the score is 1 iff a == b |
| `EnhancedSimilarity.ClosenessSymmetric` | enhanced_similarity_detector.py:76-77 | closeness does not depend on which clip comes first |
| `EnhancedSimilarity.TempoExample` | enhanced_similarity_detector.py:101-102 | tempi 120 and 130 give the tempo entry 12/13 |
| `EnhancedSimilarity.RatioSimilarity` | enhanced_similarity_detector.py:105-109 | ratio similarity lies in [0, 1] for all reals and is 1 iff the ratios are equal |
| `EnhancedSimilarity.RatioSimilaritySymmetric` | enhanced_similarity_detector.py:105-109 | ratio similarity is symmetric |
| `EnhancedSimilarity.ScoreFeatures` | enhanced_similarity_detector.py:73-109 | the per-feature scoring succeeds iff none of the five normalised features has max(a, b) == 0 |
| `EnhancedSimilarity.OverallIsMeanOfNine` | enhanced_similarity_detector.py:112 | the overall similarity is the sum of exactly the nine entries divided by 9 |
| `EnhancedSimilarity.EntriesBounded` | enhanced_similarity_detector.py:73-109 | for non-negative measurements the seven scalar and ratio entries lie in [0, 1]; the two correlation entries are the correlation values, unclamped |
| `EnhancedSimilarity.OverallBounded` | enhanced_similarity_detector.py:112 | with those seven entries in [0, 1] and the correlations in [-1, 1], the overall lies in [-2/9, 1] |
| `EnhancedSimilarity.OverallWithin` | enhanced_similarity_detector.py:112 | when all nine similarities lie in [lo, hi], the overall similarity lies in [lo, hi] |
| `EnhancedSimilarity.OverallCanBeNegative` | enhanced_similarity_detector.py:91-112 | unclamped correlations of -1 can make the overall similarity -2/9, below 0 |
| `EnhancedSimilarity.SelfComparison` | enhanced_similarity_detector.py:73-112 | comparing a summary with itself gives 1 for all seven scalar and ratio entries, and an overall of (7 + the two self-correlations) / 9 |
| `EnhancedSimilarity.ScoreFeaturesSymmetric` | enhanced_similarity_detector.py:73-109 | swapping the clips keeps the seven scalar and ratio entries and only swaps the correlations' arguments |
| `EnhancedSimilarity.UnscoredFieldsIgnored` | enhanced_similarity_detector.py:44-57 | sample rate, zero-crossing rate and spectral bandwidth do not affect any score |
| `EnhancedSimilarity.EnhancedSimilarityDetection` | enhanced_similarity_detector.py:59-119 | fails iff a normalised division is by zero; otherwise the dictionary holds exactly the nine feature keys in source order with the scores of `ScoreFeatures`, and the overall is their mean |
| `EnhancedSimilarity.Interpret` | enhanced_similarity_detector.py:298-308 | the label is the highest-ranked of five whose inclusive threshold (0.8, 0.6, 0.4, 0.2) the score reaches; there is no IDENTICAL tier |
| `EnhancedSimilarity.InterpretMonotone` | enhanced_similarity_detector.py:299-308 | a higher overall never gets a lower label |
| `EnhancedSimilarity.InterpretBoundaries` | enhanced_similarity_detector.py:299-308 | each boundary value belongs to the higher bucket; a score of 1.0 is only VERY SIMILAR |
| `AudioSimilarity.Take` | audio_similarity_detector.py:61-63 | `s[:n]` has length min(len(s), n) and agrees with s position by position |
| `AudioSimilarity.FeatureVector` | audio_similarity_detector.py:42-52 | the hashed vector is at most 1000 MFCC values, then at most 100 centroid values, then at most 100 rolloff values, in that order; its length is at most 1200 |
| `AudioSimilarity.LibrosaOverall` | audio_similarity_detector.py:75 | the librosa overall equals the mean of exactly the four similarities |
| `AudioSimilarity.CompareAudioFilesLibrosa` | audio_similarity_detector.py:19-79 | fingerprints hash the truncated feature vectors; the three correlations use the same truncations; the overall is the mean of the four similarities |
| `AudioSimilarity.LibrosaIgnoresBeyondTruncation` | audio_similarity_detector.py:42-63 | clips that agree on the first 1000/100/100 values get identical librosa results |
| `AudioSimilarity.LibrosaOverallBounds` | audio_similarity_detector.py:75 | with the ratio in [0, 1] and the correlations in [-1, 1] the overall lies in [-3/4, 1]; four equal similarities give that value |
| `AudioSimilarity.LibrosaOverallWithin` | audio_similarity_detector.py:75 | when the four similarities lie in [lo, hi], the librosa overall similarity lies in [lo, hi] |
| `AudioSimilarity.CompareAudioFilesAcoustid` | audio_similarity_detector.py:81-111 | the AcoustID overall similarity is its fingerprint similarity and nothing else |
| `AudioSimilarity.InterpretSimilarity` | audio_similarity_detector.py:113-129 | total over all reals; the verdict is the highest-ranked of six whose inclusive threshold (0.95, 0.8, 0.6, 0.4, 0.2) the score reaches |
| `AudioSimilarity.InterpretSimilarityMonotone` | audio_similarity_detector.py:118-129 | a higher score never gets a lower verdict |
| `AudioSimilarity.InterpretSimilarityBoundaries` | audio_similarity_detector.py:118-129 | 0.95 is IDENTICAL, 0.8 VERY SIMILAR, 0.2 SLIGHTLY SIMILAR; -1 and 2 are classified too |
| `AudioSimilarity.DecideConsensus` | audio_similarity_detector.py:230-235 | "agree" iff the scores are strictly less than 0.1 apart; otherwise the named method is the higher one by at least 0.1; exactly one outcome |
| `AudioSimilarity.ConsensusSwap` | audio_similarity_detector.py:230-235 | swapping the scores keeps agreement and swaps which method is named |
| `AcoustidExplorer.Matches` | acoustid_explorer.py:114 | the count of matching positions among the first n is at most n |
| `AcoustidExplorer.MatchesCountsAgreeingPositions` | acoustid_explorer.py:114 | the count equals the size of the set of positions i < n with fp1[i] == fp2[i] |
| `AcoustidExplorer.MatchCount` | acoustid_explorer.py:114 | the zipped match count is at most the length of each fingerprint |
| `AcoustidExplorer.MatchesSymmetric` | acoustid_explorer.py:114 | the match count is symmetric |
| `AcoustidExplorer.MatchesAllIffPrefixesEqual` | acoustid_explorer.py:114 | all of the first n positions match iff the length-n prefixes are equal |
| `AcoustidExplorer.MatchRatio` | acoustid_explorer.py:114 | undefined (division by zero) exactly when both fingerprints are empty; otherwise in [0, 1] |
| `AcoustidExplorer.MatchRatioSymmetric` | acoustid_explorer.py:114 | the ratio is symmetric in the two fingerprints |
| `AcoustidExplorer.MatchRatioOneIffEqual` | acoustid_explorer.py:114 | the ratio is 1 iff the fingerprints are equal and non-empty |
| `AcoustidExplorer.MatchRatioOfPrefix` | acoustid_explorer.py:114 | a strict prefix scores len(short) / len(long) |
| `AcoustidExplorer.ClassifySimilarity` | acoustid_explorer.py:122-129 | the verdict is the highest-ranked of four whose exclusive threshold (0.9, 0.7, 0.5) the similarity exceeds |
| `AcoustidExplorer.ClassifySimilarityMonotone` | acoustid_explorer.py:122-129 | a higher similarity never gets a lower verdict |
| `AcoustidExplorer.ClassifySimilarityBoundaries` | acoustid_explorer.py:122-129 | 0.9 is only "Similar", 0.7 only "Somewhat similar", 0.5 "Different" |
| `AcoustidExplorer.CompareFingerprints` | acoustid_explorer.py:85-135 | the first failure is the only error and stops the run; the second file is recorded only after the first; two empty fingerprints record "division by zero" and leave similarity None; a similarity is recorded, and classified, iff there is no error |
| `AcoustidExplorer.ExploreAcoustidFingerprinting` | acoustid_explorer.py:6-83 | api_key_provided is "key is not None"; the lookup runs only for a truthy key; a lookup failure sets error and keeps fingerprint and duration; when reporting stored matches raises, both the matches and the error "Lookup error: …" remain; a generation failure leaves both None; an empty-string key is provided=True with no lookup results |
| `ThresholdTables.ThresholdTablesDisagree` | audio_similarity_detector.py:118-129 | the six-tier, five-tier and strict tables give different labels at 0.95, 0.9 and 0.5 |

## Left out

- Audio loading and feature extraction (`analyze_audio_characteristics`, the librosa calls): foreign library code. The model takes the extracted values as inputs.
- Pearson correlation, `SequenceMatcher.ratio` and MD5 are uninterpreted function parameters. Their library behaviour is not modelled: NaN for zero variance, an error for mismatched lengths, the matching-block algorithm, the hash.
- `acoustid.fingerprint_file` and `acoustid.lookup` (native code and network) appear only as success or failure outcomes. Decoding a bytes fingerprint to text is folded into the outcome's string. In `compare_fingerprints` (acoustid_explorer.py:104-114) the raw bytes are stored and zipped; the model's string stands for those bytes and is compared element by element, which is the same comparison for ASCII fingerprints.
- `CompareFingerprints`: the second file's outcome is a parameter even when the first fails. The model ignores it in that case, which matches the source never fingerprinting the second file.
- Floating point (rounding, NaN, infinities): all arithmetic is on exact reals.
- The `duration1`/`duration2` entries of the librosa result (`len(audio) / sr`), timings, every `print`, the matplotlib visualisations, JSON writes, and `fingerprint_comparison.py`: I/O and presentation with no decision logic.
- `main_comparison` and `main_enhanced_analysis` are modelled only through the decisions they make: the interpretation of each overall score and the consensus rule.
