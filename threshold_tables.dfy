/** The repository keeps three separate threshold tables for what a
    similarity score means; each is modelled as written in its own module.
    This lemma records where they part ways. */
module ThresholdTables {
  import AudioSimilarity
  import EnhancedSimilarity
  import AcoustidExplorer

  /** At 0.95 the six-tier table says IDENTICAL while the enhanced table tops
      out at VERY SIMILAR; at 0.9 the six-tier table says VERY SIMILAR while
      the strict fingerprint table says only "Similar"; at 0.5 the inclusive
      tables say SOMEWHAT SIMILAR while the strict one says "Different". */
  lemma ThresholdTablesDisagree()
    ensures AudioSimilarity.InterpretSimilarity(0.95) == AudioSimilarity.Identical
    ensures EnhancedSimilarity.Interpret(0.95) == EnhancedSimilarity.VerySimilar
    ensures AudioSimilarity.InterpretSimilarity(0.9) == AudioSimilarity.VerySimilar
    ensures AcoustidExplorer.ClassifySimilarity(0.9) == AcoustidExplorer.Similar
    ensures AudioSimilarity.InterpretSimilarity(0.5) == AudioSimilarity.SomewhatSimilar
    ensures EnhancedSimilarity.Interpret(0.5) == EnhancedSimilarity.SomewhatSimilar
    ensures AcoustidExplorer.ClassifySimilarity(0.5) == AcoustidExplorer.Different
  {
  }
}
