/** The decision logic of acoustid_explorer.py: the positional match ratio of
    two Chromaprint fingerprint strings and its strict-`>` classifier, and the
    result dictionaries that `explore_acoustid_fingerprinting` and
    `compare_fingerprints` fill in step by step. Calls into the AcoustID
    library (fingerprinting a file, looking a fingerprint up) are replaced by
    their outcomes, given as parameters. */
module AcoustidExplorer {
  import opened Wrappers

  function Min(a: nat, b: nat): nat {
    if a <= b then a else b
  }

  function MaxLength(a: nat, b: nat): nat {
    if a >= b then a else b
  }

  /** How many of the first n positions hold the same character in both
      fingerprints. */
  function Matches(a: string, b: string, n: nat): (k: nat)
    requires n <= |a| && n <= |b|
    ensures k <= n
  {
    if n == 0 then 0 else Matches(a, b, n - 1) + (if a[n - 1] == b[n - 1] then 1 else 0)
  }

  /** The positions, among the first n, where the fingerprints agree. */
  ghost function AgreeingPositions(a: string, b: string, n: nat): set<nat>
    requires n <= |a| && n <= |b|
  {
    set i: nat | i < n && a[i] == b[i]
  }

  /** The count is the number of agreeing positions. */
  lemma {:induction false} MatchesCountsAgreeingPositions(a: string, b: string, n: nat)
    requires n <= |a| && n <= |b|
    ensures Matches(a, b, n) == |AgreeingPositions(a, b, n)|
  {
    if n > 0 {
      MatchesCountsAgreeingPositions(a, b, n - 1);
      var before := AgreeingPositions(a, b, n - 1);
      if a[n - 1] == b[n - 1] {
        assert AgreeingPositions(a, b, n) == before + {n - 1};
      } else {
        assert AgreeingPositions(a, b, n) == before;
      }
    }
  }

  /** `sum(1 for a, b in zip(fp1, fp2) if a == b)`: zip stops at the shorter
      fingerprint. */
  function MatchCount(a: string, b: string): (k: nat)
    ensures k <= |a| && k <= |b|
  {
    Matches(a, b, Min(|a|, |b|))
  }

  lemma {:induction false} MatchesSymmetric(a: string, b: string, n: nat)
    requires n <= |a| && n <= |b|
    ensures Matches(a, b, n) == Matches(b, a, n)
  {
    if n > 0 {
      MatchesSymmetric(a, b, n - 1);
    }
  }

  /** All of the first n positions match exactly when the two prefixes of
      length n are equal. */
  lemma {:induction false} MatchesAllIffPrefixesEqual(a: string, b: string, n: nat)
    requires n <= |a| && n <= |b|
    ensures Matches(a, b, n) == n <==> a[..n] == b[..n]
  {
    if n > 0 {
      MatchesAllIffPrefixesEqual(a, b, n - 1);
      assert a[..n] == a[..n - 1] + [a[n - 1]];
      assert b[..n] == b[..n - 1] + [b[n - 1]];
      if a[..n] == b[..n] {
        assert a[..n - 1] == a[..n][..n - 1] == b[..n][..n - 1] == b[..n - 1];
        assert a[n - 1] == a[..n][n - 1] == b[..n][n - 1] == b[n - 1];
      }
    }
  }

  /** The similarity expression of `compare_fingerprints`: matching positions over the longer length.
      Two empty fingerprints divide by zero, which the model reports as
      `None`. Otherwise the ratio lies in [0, 1]. */
  function MatchRatio(a: string, b: string): (r: Option<real>)
    ensures r.None? <==> |a| == 0 && |b| == 0
    ensures r.Some? ==> 0.0 <= r.value <= 1.0
  {
    var longest := MaxLength(|a|, |b|);
    if longest == 0 then None
    else Some((MatchCount(a, b) as real) / (longest as real))
  }

  lemma MatchRatioSymmetric(a: string, b: string)
    ensures MatchRatio(a, b) == MatchRatio(b, a)
  {
    MatchesSymmetric(a, b, Min(|a|, |b|));
    assert Min(|a|, |b|) == Min(|b|, |a|);
  }

  /** The ratio is 1 exactly when the fingerprints are equal and non-empty. */
  lemma MatchRatioOneIffEqual(a: string, b: string)
    ensures MatchRatio(a, b) == Some(1.0) <==> a == b && |a| > 0
  {
    var n := Min(|a|, |b|);
    MatchesAllIffPrefixesEqual(a, b, n);
    if MatchRatio(a, b) == Some(1.0) {
      var longest := MaxLength(|a|, |b|);
      assert (MatchCount(a, b) as real) / (longest as real) == 1.0;
      assert MatchCount(a, b) == longest;
      assert a[..n] == a && b[..n] == b;
    }
    if a == b && |a| > 0 {
      assert n == |a| && a[..n] == b[..n];
      assert MatchCount(a, b) == |a| == MaxLength(|a|, |b|);
      assert (|a| as real) / (|a| as real) == 1.0;
    }
  }

  /** A fingerprint that is a strict prefix of the other scores its length
      over the other's length. */
  lemma MatchRatioOfPrefix(a: string, b: string)
    requires |a| < |b| && a == b[..|a|]
    ensures MatchRatio(a, b) == Some((|a| as real) / (|b| as real))
  {
    MatchesAllIffPrefixesEqual(a, b, |a|);
    assert a[..|a|] == a;
  }

  /** The four results that `compare_fingerprints` prints, strict `>` at each
      threshold. */
  datatype MatchVerdict = VerySimilar | Similar | SomewhatSimilar | Different {
    function Text(): string {
      match this
      case VerySimilar => "Very similar (likely same audio)"
      case Similar => "Similar (possibly related audio)"
      case SomewhatSimilar => "Somewhat similar"
      case Different => "Different audio files"
    }

    function Rank(): nat {
      match this
      case VerySimilar => 3
      case Similar => 2
      case SomewhatSimilar => 1
      case Different => 0
    }

    /** The tier's exclusive lower threshold. */
    predicate ReachedBy(similarity: real) {
      match this
      case VerySimilar => similarity > 0.9
      case Similar => similarity > 0.7
      case SomewhatSimilar => similarity > 0.5
      case Different => true
    }
  }

  /** The verdict is the highest-ranked tier whose threshold the similarity
      strictly exceeds. */
  function ClassifySimilarity(similarity: real): (v: MatchVerdict)
    ensures v.ReachedBy(similarity)
    ensures forall w: MatchVerdict :: w.ReachedBy(similarity) ==> w.Rank() <= v.Rank()
  {
    if similarity > 0.9 then VerySimilar
    else if similarity > 0.7 then Similar
    else if similarity > 0.5 then SomewhatSimilar
    else Different
  }

  lemma {:induction false} ClassifySimilarityMonotone(s: real, t: real)
    requires s <= t
    ensures ClassifySimilarity(s).Rank() <= ClassifySimilarity(t).Rank()
  {
    assert ClassifySimilarity(s).ReachedBy(t);
  }

  /** Each threshold value itself falls into the tier below it. */
  lemma ClassifySimilarityBoundaries()
    ensures ClassifySimilarity(0.9) == Similar
    ensures ClassifySimilarity(0.7) == SomewhatSimilar
    ensures ClassifySimilarity(0.5) == Different
    ensures ClassifySimilarity(1.0) == VerySimilar
  {
  }

  /** Outcome of `acoustid.fingerprint_file` for one file. */
  datatype Fingerprinting =
    | Fingerprinted(duration: real, fingerprint: string)
    | GenerationFailed(message: string)   // acoustid.FingerprintGenerationError
    | OtherFailure(message: string)       // any other exception

  /** One file's entry in the comparison dictionary. */
  datatype FileEntry = FileEntry(path: string, fingerprint: Option<string>, duration: Option<real>)

  /** The dictionary returned by `compare_fingerprints`. */
  datatype ComparisonResults = ComparisonResults(
    file1: FileEntry, file2: FileEntry, similarity: Option<real>, errors: seq<string>)

  /** Python's message for `int / 0`. */
  const DivisionByZeroMessage: string := "division by zero"

  /** What a finished comparison dictionary always satisfies: a similarity is
      present exactly when no error was recorded, it lies in [0, 1], it needs
      both fingerprints, and at most one error is ever recorded. */
  ghost predicate ComparisonConsistent(r: ComparisonResults) {
    && |r.errors| <= 1
    && (r.similarity.Some? <==> r.errors == [])
    && (r.similarity.Some? ==> 0.0 <= r.similarity.value <= 1.0)
    && (r.similarity.Some? ==> r.file1.fingerprint.Some? && r.file2.fingerprint.Some?)
    && (r.file2.fingerprint.Some? ==> r.file1.fingerprint.Some?)
    && (r.file1.fingerprint.Some? <==> r.file1.duration.Some?)
    && (r.file2.fingerprint.Some? <==> r.file2.duration.Some?)
  }

  /** `compare_fingerprints`: fingerprint the first file, record it,
      fingerprint the second, record it, compute the positional match ratio
      and record it. The first exception ends the run with its message as the
      only error; the second file is not fingerprinted when the first fails.
      `verdict` is the result line the source prints for the similarity. */
  method CompareFingerprints(path1: string, path2: string, outcome1: Fingerprinting, outcome2: Fingerprinting)
    returns (r: ComparisonResults, verdict: Option<MatchVerdict>)
    ensures ComparisonConsistent(r)
    ensures r.file1.path == path1 && r.file2.path == path2
    ensures r.file1.fingerprint == (if outcome1.Fingerprinted? then Some(outcome1.fingerprint) else None)
    ensures r.file1.duration == (if outcome1.Fingerprinted? then Some(outcome1.duration) else None)
    ensures r.file2.fingerprint == (if outcome1.Fingerprinted? && outcome2.Fingerprinted? then Some(outcome2.fingerprint) else None)
    ensures r.file2.duration == (if outcome1.Fingerprinted? && outcome2.Fingerprinted? then Some(outcome2.duration) else None)
    ensures !outcome1.Fingerprinted? ==> r.errors == [outcome1.message]
    ensures outcome1.Fingerprinted? && !outcome2.Fingerprinted? ==> r.errors == [outcome2.message]
    ensures outcome1.Fingerprinted? && outcome2.Fingerprinted? ==>
      r.similarity == MatchRatio(outcome1.fingerprint, outcome2.fingerprint)
      && (r.similarity.None? ==> r.errors == [DivisionByZeroMessage])
    ensures verdict.Some? <==> r.similarity.Some?
    ensures verdict.Some? ==> verdict.value == ClassifySimilarity(r.similarity.value)
  {
    r := ComparisonResults(FileEntry(path1, None, None), FileEntry(path2, None, None), None, []);
    verdict := None;

    if !outcome1.Fingerprinted? {
      r := r.(errors := r.errors + [outcome1.message]);
      return;
    }
    r := r.(file1 := r.file1.(fingerprint := Some(outcome1.fingerprint)));
    r := r.(file1 := r.file1.(duration := Some(outcome1.duration)));

    if !outcome2.Fingerprinted? {
      r := r.(errors := r.errors + [outcome2.message]);
      return;
    }
    r := r.(file2 := r.file2.(fingerprint := Some(outcome2.fingerprint)));
    r := r.(file2 := r.file2.(duration := Some(outcome2.duration)));

    var similarity := MatchRatio(outcome1.fingerprint, outcome2.fingerprint);
    if similarity.None? {
      r := r.(errors := r.errors + [DivisionByZeroMessage]);
      return;
    }
    r := r.(similarity := similarity);
    verdict := Some(ClassifySimilarity(similarity.value));
  }

  /** One candidate returned by `acoustid.lookup`; its contents are only
      printed. */
  datatype LookupMatch = LookupMatch(score: real, recordingIds: seq<string>)

  /** Outcome of `acoustid.lookup`. */
  datatype Lookup =
    | LookupSucceeded(matches: seq<LookupMatch>)
    | WebServiceFailed(message: string)   // acoustid.WebServiceError
    | LookupFailed(message: string)       // any other exception
    /** The lookup returned its matches, they were stored, and reporting them
        afterwards raised. */
    | LookupReportFailed(matches: seq<LookupMatch>, message: string)

  /** The dictionary returned by `explore_acoustid_fingerprinting`. */
  datatype ExplorationResults = ExplorationResults(
    fingerprint: Option<string>,
    duration: Option<real>,
    apiKeyProvided: bool,
    lookupResults: Option<seq<LookupMatch>>,
    error: Option<string>)

  /** Python's truthiness of an optional key: `None` and `""` are false. */
  predicate Truthy(apiKey: Option<string>) {
    apiKey.Some? && apiKey.value != ""
  }

  /** What a finished exploration dictionary always satisfies: fingerprint and
      duration are recorded together, lookup results need a fingerprint and a
      truthy key, and a missing fingerprint always comes with an error. */
  ghost predicate ExplorationConsistent(r: ExplorationResults, apiKey: Option<string>) {
    && r.apiKeyProvided == apiKey.Some?
    && (r.fingerprint.Some? <==> r.duration.Some?)
    && (r.lookupResults.Some? ==> r.fingerprint.Some? && Truthy(apiKey))
    && (r.fingerprint.None? ==> r.error.Some?)
  }

  /** `explore_acoustid_fingerprinting`. The dictionary starts with every
      field `None` and `api_key_provided` set from `api_key is not None`; a
      generated fingerprint and its duration are recorded; the lookup runs
      only for a truthy key, and its failure sets `error` while keeping the
      fingerprint and duration already recorded. When the matches were
      stored before the failure, both the matches and the error remain. A failed fingerprinting
      leaves both `None`. An empty-string key counts as provided but skips
      the lookup. */
  method ExploreAcoustidFingerprinting(apiKey: Option<string>, fingerprinting: Fingerprinting, lookup: Lookup)
    returns (r: ExplorationResults)
    ensures ExplorationConsistent(r, apiKey)
    ensures r.fingerprint == (if fingerprinting.Fingerprinted? then Some(fingerprinting.fingerprint) else None)
    ensures r.duration == (if fingerprinting.Fingerprinted? then Some(fingerprinting.duration) else None)
    ensures r.lookupResults ==
      (if fingerprinting.Fingerprinted? && Truthy(apiKey) && (lookup.LookupSucceeded? || lookup.LookupReportFailed?)
       then Some(lookup.matches) else None)
    ensures r.error ==
      match fingerprinting
      case GenerationFailed(m) => Some("Fingerprint generation error: " + m)
      case OtherFailure(m) => Some("Unexpected error: " + m)
      case Fingerprinted(_, _) =>
        if !Truthy(apiKey) then None
        else match lookup
          case LookupSucceeded(_) => None
          case WebServiceFailed(m) => Some("Web service error: " + m)
          case LookupFailed(m) => Some("Lookup error: " + m)
          case LookupReportFailed(_, m) => Some("Lookup error: " + m)
    ensures apiKey == Some("") ==> r.apiKeyProvided && r.lookupResults.None?
  {
    r := ExplorationResults(None, None, apiKey.Some?, None, None);

    match fingerprinting {
      case GenerationFailed(m) =>
        r := r.(error := Some("Fingerprint generation error: " + m));
      case OtherFailure(m) =>
        r := r.(error := Some("Unexpected error: " + m));
      case Fingerprinted(duration, fingerprint) =>
        r := r.(fingerprint := Some(fingerprint));
        r := r.(duration := Some(duration));
        if Truthy(apiKey) {
          match lookup {
            case LookupSucceeded(matches) =>
              r := r.(lookupResults := Some(matches));
            case WebServiceFailed(m) =>
              r := r.(error := Some("Web service error: " + m));
            case LookupFailed(m) =>
              r := r.(error := Some("Lookup error: " + m));
            case LookupReportFailed(matches, m) =>
              r := r.(lookupResults := Some(matches));
              r := r.(error := Some("Lookup error: " + m));
          }
        }
    }
  }
}
