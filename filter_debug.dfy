/** The two scoring helpers of the biotools filtering diagnostic
    (biotools_filter_debug.py): the keyword test `is_biotools_relevant` and
    the capped score `calculate_biotools_relevance_score`. The request to
    the awards API and the report printed around them are not modelled. */
module FilterDebug {
  import opened Text

  /** `biotools_keywords`: the terms that make a text relevant, in order. */
  const BiotoolsKeywords: seq<string> :=
    ["diagnostic", "biomarker", "assay", "test", "detection", "screening"]
      + ["laboratory", "instrumentation", "microscopy", "spectrometry", "imaging"]
      + ["biotechnology", "bioengineering", "medical device", "biosensor"]
      + ["microfluidics", "lab-on-chip", "point-of-care", "automation"]
      + ["genomics", "proteomics", "molecular", "analytical", "chromatography"]
      + ["electrophoresis", "mass spectrometry", "sequencing", "pcr"]
      + ["cell analysis", "protein analysis", "dna analysis", "rna analysis"]
      + ["bioinformatics", "computational biology", "machine learning"]
      + ["artificial intelligence", "high throughput", "drug discovery"]
      + ["pharmaceutical", "therapeutics", "clinical", "biomedical"]
      + ["sensor", "monitor", "measurement", "analysis", "research tool"]
      + ["scientific instrument", "clinical trial", "medical", "healthcare"]
      + ["biological", "biochemical", "biomolecular", "therapeutic"]

  /** The terms worth 3 points each. */
  const HighValueTerms: seq<string> := [
    "diagnostic", "biomarker", "medical device", "biosensor", "microfluidics",
    "lab-on-chip", "point-of-care", "sequencing", "genomics", "proteomics"]

  /** The terms worth 1.5 points each. */
  const MediumValueTerms: seq<string> := [
    "laboratory", "instrumentation", "microscopy", "biotechnology",
    "analytical", "automation", "imaging", "molecular"]

  /** The cap on the score. */
  const MaxScore: real := 10.0

  /** `is_biotools_relevant(text)`: false for an empty text, else whether
      some keyword occurs in the lower-cased text. */
  predicate IsBiotoolsRelevant(text: string)
  {
    text != [] && AnyIn(BiotoolsKeywords, Lower(text))
  }

  /** The text the score reads: title, description and keywords joined by
      single spaces, lower-cased. */
  function CombinedText(title: string, description: string, keywords: string): string
  {
    Lower(title + " " + description + " " + keywords)
  }

  /** The score before the cap: 3 per high-value term, 1.5 per medium-value
      term and 1 per keyword that occurs in `text`. */
  function Uncapped(text: string): real
  {
    3.0 * |Occurring(HighValueTerms, text)| as real
    + 1.5 * |Occurring(MediumValueTerms, text)| as real
    + 1.0 * |Occurring(BiotoolsKeywords, text)| as real
  }

  /** `calculate_biotools_relevance_score(title, description, keywords)`.
      The increments are multiples of 0.5, so the float sums are exact. */
  function RelevanceScore(title: string, description: string, keywords: string): (r: real)
    ensures 0.0 <= r <= MaxScore
    ensures r == MaxScore || r == Uncapped(CombinedText(title, description, keywords))
    ensures Uncapped(CombinedText(title, description, keywords)) <= MaxScore ==>
      r == Uncapped(CombinedText(title, description, keywords))
    ensures Uncapped(CombinedText(title, description, keywords)) >= MaxScore ==> r == MaxScore
  {
    var score := Uncapped(CombinedText(title, description, keywords));
    if score < MaxScore then score else MaxScore
  }

  /** The three accumulator loops and the `min` cap. */
  method CalculateBiotoolsRelevanceScore(title: string, description: string, keywords: string)
    returns (score: real)
    ensures score == RelevanceScore(title, description, keywords)
  {
    var combined := Lower(title + " " + description + " " + keywords);
    var high := CountOccurring(HighValueTerms, combined);
    var medium := CountOccurring(MediumValueTerms, combined);
    var listed := CountOccurring(BiotoolsKeywords, combined);
    score := 3.0 * high as real + 1.5 * medium as real + 1.0 * listed as real;
    if score > MaxScore {
      score := MaxScore;
    }
  }

  /** An empty text is never relevant. */
  lemma EmptyNotRelevant()
    ensures !IsBiotoolsRelevant("")
  {
  }

  /** Every high-value and every medium-value term is also a keyword. */
  lemma ValueTermsAreKeywords()
    ensures forall t :: t in HighValueTerms ==> t in BiotoolsKeywords
    ensures forall t :: t in MediumValueTerms ==> t in BiotoolsKeywords
  {
    var k := BiotoolsKeywords;
    var h := HighValueTerms;
    assert h[0] == k[0];
    assert h[1] == k[1];
    assert h[2] == k[13];
    assert h[3] == k[14];
    assert h[4] == k[15];
    assert h[5] == k[16];
    assert h[6] == k[17];
    assert h[7] == k[26];
    assert h[8] == k[19];
    assert h[9] == k[20];
    var m := MediumValueTerms;
    assert m[0] == k[6];
    assert m[1] == k[7];
    assert m[2] == k[8];
    assert m[3] == k[11];
    assert m[4] == k[22];
    assert m[5] == k[18];
    assert m[6] == k[10];
    assert m[7] == k[21];
  }

  /** The score is 0 when no term of the three lists occurs. */
  lemma NothingFoundScoresZero(title: string, description: string, keywords: string)
    requires !AnyIn(HighValueTerms, CombinedText(title, description, keywords))
    requires !AnyIn(MediumValueTerms, CombinedText(title, description, keywords))
    requires !AnyIn(BiotoolsKeywords, CombinedText(title, description, keywords))
    ensures RelevanceScore(title, description, keywords) == 0.0
  {
    var text := CombinedText(title, description, keywords);
    OccurringNonEmpty(HighValueTerms, text);
    OccurringNonEmpty(MediumValueTerms, text);
    OccurringNonEmpty(BiotoolsKeywords, text);
  }

  /** Since the value terms are keywords, the score is positive exactly when
      the joined text passes `is_biotools_relevant`. */
  lemma PositiveIffRelevant(title: string, description: string, keywords: string)
    ensures RelevanceScore(title, description, keywords) > 0.0
        <==> IsBiotoolsRelevant(title + " " + description + " " + keywords)
  {
    var text := CombinedText(title, description, keywords);
    OccurringNonEmpty(BiotoolsKeywords, text);
    if Occurring(BiotoolsKeywords, text) == [] {
      ValueTermsAreKeywords();
      forall t | t in HighValueTerms
        ensures !Contains(text, t)
      {
        if Contains(text, t) {
          OccurringComplete(BiotoolsKeywords, text, t);
        }
      }
      forall t | t in MediumValueTerms
        ensures !Contains(text, t)
      {
        if Contains(text, t) {
          OccurringComplete(BiotoolsKeywords, text, t);
        }
      }
      OccurringNonEmpty(HighValueTerms, text);
      OccurringNonEmpty(MediumValueTerms, text);
    }
  }

  /** A term of the title, in any case, is a term of the combined text. */
  lemma TitleTermCombined(title: string, description: string, keywords: string, t: string)
    requires Contains(Lower(title), t)
    ensures Contains(CombinedText(title, description, keywords), t)
  {
    var rest := " " + description + " " + keywords;
    assert title + " " + description + " " + keywords == title + rest;
    LowerConcat(title, rest);
    ContainsInConcat(Lower(title), Lower(rest), t);
  }

  /** A high-value term found earns its 3 points and the point of the same
      keyword. */
  lemma HighValueFound(text: string, t: string)
    requires t in HighValueTerms && Contains(text, t)
    ensures Uncapped(text) >= 4.0
  {
    ValueTermsAreKeywords();
    OccurringComplete(HighValueTerms, text, t);
    OccurringComplete(BiotoolsKeywords, text, t);
  }

  /** A high-value term anywhere in the title, in any case, scores at
      least 4. */
  lemma HighValueTitleScores(title: string, description: string, keywords: string, t: string)
    requires t in HighValueTerms && Contains(Lower(title), t)
    ensures RelevanceScore(title, description, keywords) >= 4.0
  {
    TitleTermCombined(title, description, keywords, t);
    HighValueFound(CombinedText(title, description, keywords), t);
  }
}
