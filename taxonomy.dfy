/** The biotools taxonomy of the search backend (main.py
    `EnhancedBiotoolsMatcher.__init__`) and the relevance predicates defined
    on it: the term test, the "tool type AND focus area" gate, phrase
    relevance and the high-value tool/focus combinations. Tables keep the
    source's spelling, upper-case letters included, because the code compares
    some of them against lower-cased text without lower-casing them. */
module Taxonomy {
  import opened Options
  import opened Text

  /** One entry of `tool_types` or `focus_areas`: its key, its `keywords` and
      its `compound_terms`. */
  datatype Category = Category(name: string, keywords: seq<string>, compounds: seq<string>)

  const ToolTypes: seq<Category> := [
    Category("instrument",
      ["microscope", "sequencer", "cytometer", "spectrometer", "analyzer", "scanner", "reader", "detector", "sensor", "device", "equipment", "platform", "system", "apparatus", "machine"],
      ["flow cytometer", "mass spectrometer", "DNA sequencer", "confocal microscope", "plate reader", "PCR machine"]),
    Category("assay",
      ["assay", "test", "kit", "protocol", "method", "procedure", "technique", "reagent", "probe", "antibody", "primer"],
      ["ELISA assay", "PCR assay", "immunoassay", "fluorescence assay", "biochemical assay", "cell viability assay"]),
    Category("software",
      ["software", "algorithm", "program", "tool", "pipeline", "workflow", "application", "package", "library", "script", "code"],
      ["analysis software", "bioinformatics tool", "visualization software", "data analysis pipeline", "sequence analysis tool"]),
    Category("database_platform",
      ["database", "repository", "platform", "resource", "portal", "collection", "archive", "registry", "catalog"],
      ["sequence database", "protein database", "genomic database", "research platform", "data repository"]),
    Category("integrated_system",
      ["system", "platform", "workstation", "station", "setup", "configuration", "integration", "automation"],
      ["laboratory automation system", "integrated platform", "robotic system", "automated workstation"]),
    Category("service",
      ["service", "facility", "core", "center", "laboratory", "lab"],
      ["sequencing service", "core facility", "analytical service", "research service", "laboratory service"]),
    Category("consumable",
      ["reagent", "kit", "consumable", "supplies", "materials", "chemicals", "media", "buffer"],
      ["research reagent", "laboratory supplies", "cell culture media", "molecular biology kit"])
  ]
  const FocusAreas: seq<Category> := [
    Category("genomics",
      ["genome", "genomic", "DNA", "gene", "genetic", "sequencing", "mutation", "variant", "SNP", "GWAS", "chromosome"],
      ["whole genome sequencing", "genomic analysis", "DNA sequencing", "genetic variation", "genome editing", "CRISPR genomics"]),
    Category("cell_biology",
      ["cell", "cellular", "cytology", "organelle", "nucleus", "membrane", "mitochondria", "cytoplasm", "cell cycle", "apoptosis"],
      ["cell culture", "cell analysis", "cellular imaging", "cell sorting", "cell viability", "live cell imaging"]),
    Category("proteomics",
      ["protein", "proteome", "peptide", "amino acid", "enzyme", "antibody", "immunoglobulin", "protease"],
      ["protein analysis", "mass spectrometry proteomics", "protein identification", "peptide sequencing"]),
    Category("metabolomics",
      ["metabolome", "metabolite", "metabolism", "biochemical", "small molecule", "biomarker"],
      ["metabolic profiling", "metabolomics analysis", "small molecule analysis", "biochemical pathway"]),
    Category("bioinformatics",
      ["bioinformatics", "computational biology", "algorithm", "pipeline", "analysis", "modeling", "simulation", "data mining"],
      ["sequence analysis", "phylogenetic analysis", "pathway analysis", "computational modeling", "data visualization"]),
    Category("single_cell",
      ["single cell", "single-cell", "sc-seq", "droplet", "microwell"],
      ["single cell RNA sequencing", "single cell analysis", "single cell proteomics", "droplet microfluidics"]),
    Category("spatial_biology",
      ["spatial", "location", "position", "tissue", "in situ", "mapping"],
      ["spatial transcriptomics", "spatial proteomics", "tissue imaging", "spatial analysis", "cellular mapping"]),
    Category("immunology",
      ["immune", "immunology", "antibody", "T cell", "B cell", "cytokine", "immunoassay", "vaccination", "antigen"],
      ["immune profiling", "immunological analysis", "T cell analysis", "cytokine analysis", "immune monitoring"]),
    Category("synthetic_biology",
      ["synthetic biology", "bioengineering", "engineered", "synthetic", "biosynthesis", "circuit"],
      ["synthetic biology tools", "genetic engineering", "biosynthetic pathway", "engineered organism"]),
    Category("multi_omics",
      ["multi-omics", "multiomics", "integrative", "systems biology", "holistic", "comprehensive"],
      ["multi-omics analysis", "integrative omics", "systems biology", "omics integration"]),
    Category("microbiome",
      ["microbiome", "microbiota", "microbial", "bacteria", "microorganism", "16S", "metagenome"],
      ["microbiome analysis", "microbial community", "16S sequencing", "metagenomic analysis"]),
    Category("high_throughput_screening",
      ["high throughput", "high-throughput", "HTS", "screening", "robotics", "automation", "library"],
      ["high throughput screening", "automated screening", "compound library screening", "robotic screening"]),
    Category("diagnostics",
      ["diagnostic", "detection", "biomarker", "clinical", "medical", "point-of-care", "rapid test"],
      ["diagnostic assay", "biomarker detection", "clinical diagnostics", "point-of-care testing", "rapid diagnostics"])
  ]
  const ExcludedDomains: seq<(string, seq<string>)> := [
    ("astronomy", ["star", "galaxy", "planet", "telescope", "astronomical", "cosmic", "space"]),
    ("geology", ["rock", "mineral", "geological", "earth science", "sediment", "fossil"]),
    ("physics", ["particle physics", "quantum", "theoretical physics", "nuclear physics"]),
    ("chemistry_non_bio", ["inorganic chemistry", "physical chemistry", "materials chemistry"]),
    ("engineering_non_bio", ["mechanical engineering", "electrical engineering", "civil engineering"]),
    ("environmental_non_bio", ["climate change", "weather", "atmospheric", "oceanography"]),
    ("computer_science_general", ["web development", "mobile app", "database management", "networking"])
  ]
  const BiotoolsAgencies: seq<(string, seq<string>)> := [
    ("NIH", ["biological", "biomedical", "health", "disease", "therapeutic"]),
    ("NSF", ["biological sciences", "molecular", "cellular", "biological research"]),
    ("HHS", ["SBIR", "biomedical", "health technology", "medical device"]),
    ("DOE", ["biological systems", "bioenergy", "environmental biology"]),
    ("CDC", ["health surveillance", "epidemiology", "public health tools"])
  ]

  /** `biotools_stop_words` of `_extract_biotools_terms`. */
  const StopWords: seq<string> := [
    "the", "a", "an", "and", "or", "but", "in", "on", "at", "to", "for", "of",
    "with", "by", "is", "are", "was", "were", "be", "been", "have", "has", "had",
    "do", "does", "did", "will", "would", "could", "should", "this", "that",
    "these", "those", "can", "may", "might", "must", "shall", "from", "up",
    "out", "down", "off", "over", "under", "again", "further", "then", "once",
    "research", "study", "development", "project", "system", "method", "approach"
  ]

  /** `high_value_combinations` of `_has_cross_domain_relevance`. */
  const HighValueCombinations: seq<(string, string, seq<string>)> := [
    ("instrument", "genomics", ["sequencer", "PCR", "DNA analyzer"]),
    ("instrument", "single_cell", ["flow cytometer", "cell sorter", "droplet"]),
    ("software", "bioinformatics", ["analysis pipeline", "algorithm", "computational"]),
    ("assay", "proteomics", ["mass spectrometry", "protein assay", "immunoassay"]),
    ("instrument", "spatial_biology", ["imaging", "microscopy", "spatial analysis"])
  ]

  /** Every term of the excluded domains, in table order. */
  function ExcludedTerms(domains: seq<(string, seq<string>)>): (r: seq<string>)
    ensures forall d, t :: d in domains && t in d.1 ==> t in r
  {
    if domains == [] then [] else domains[0].1 + ExcludedTerms(domains[1..])
  }

  /** `table[name]` when `name` is a key of the table (`name in table`). */
  function Find(table: seq<Category>, name: string): (r: Option<Category>)
    ensures r.Some? ==> r.value in table && r.value.name == name
    ensures r.None? ==> forall c :: c in table ==> c.name != name
  {
    if table == [] then None
    else if table[0].name == name then Some(table[0])
    else Find(table[1..], name)
  }

  /** The selection `name` is a known category one of whose keywords occurs
      in `text`. */
  predicate KnownMatches(table: seq<Category>, name: string, text: string)
  {
    Find(table, name).Some? && AnyIn(Find(table, name).value.keywords, text)
  }

  /** Some selected, known category has a keyword occurring in `text`. */
  predicate SelectionMatches(table: seq<Category>, selected: seq<string>, text: string)
  {
    exists i :: 0 <= i < |selected| && KnownMatches(table, selected[i], text)
  }

  /** One of the two loops of `_has_biotools_relevance`: the selections are
      searched in order and the search stops at the first keyword found. */
  method SelectionHasMatch(table: seq<Category>, selected: seq<string>, text: string) returns (found: bool)
    ensures found <==> SelectionMatches(table, selected, text)
  {
    found := false;
    var i := 0;
    while i < |selected| && !found
      invariant 0 <= i <= |selected|
      invariant !found ==> forall j :: 0 <= j < i ==> !KnownMatches(table, selected[j], text)
      invariant found ==> SelectionMatches(table, selected, text)
    {
      var entry := Find(table, selected[i]);
      if entry.Some? {
        var keywords := entry.value.keywords;
        var k := 0;
        while k < |keywords| && !found
          invariant 0 <= k <= |keywords|
          invariant !found ==> forall j :: 0 <= j < k ==> !Contains(text, keywords[j])
          invariant found ==> KnownMatches(table, selected[i], text)
        {
          if Contains(text, keywords[k]) {
            found := true;
          }
          k := k + 1;
        }
      }
      i := i + 1;
    }
  }

  /** `_has_biotools_relevance`: the lower-cased text must hold a keyword of a
      selected tool type and a keyword of a selected focus area. */
  method HasBiotoolsRelevance(text: string, toolTypes: seq<string>, focusAreas: seq<string>) returns (r: bool)
    ensures r <==> BiotoolsRelevant(text, toolTypes, focusAreas)
  {
    var textLower := Lower(text);
    var hasToolTypeMatch := SelectionHasMatch(ToolTypes, toolTypes, textLower);
    var hasFocusAreaMatch := SelectionHasMatch(FocusAreas, focusAreas, textLower);
    r := hasToolTypeMatch && hasFocusAreaMatch;
  }

  /** The condition `_has_biotools_relevance` decides. */
  predicate BiotoolsRelevant(text: string, toolTypes: seq<string>, focusAreas: seq<string>)
  {
    SelectionMatches(ToolTypes, toolTypes, Lower(text)) && SelectionMatches(FocusAreas, focusAreas, Lower(text))
  }

  /** `t` equals a lower-cased keyword of some category. */
  predicate KeywordNamed(table: seq<Category>, t: string)
  {
    exists c :: c in table && t in LowerAll(c.keywords)
  }

  /** `t` occurs in a lower-cased compound term of some category. */
  predicate CompoundHolds(table: seq<Category>, t: string)
  {
    exists c, cp :: c in table && cp in c.compounds && Contains(Lower(cp), t)
  }

  /** `_is_biotools_term`: the lower-cased term is a keyword, or occurs inside
      a compound term, of any tool type or focus area. */
  predicate IsBiotoolsTerm(term: string)
  {
    var t := Lower(term);
    KeywordNamed(ToolTypes, t) || KeywordNamed(FocusAreas, t) ||
    CompoundHolds(ToolTypes, t) || CompoundHolds(FocusAreas, t)
  }

  /** The term test ignores ASCII case. */
  lemma IsBiotoolsTermCaseless(term: string)
    ensures IsBiotoolsTerm(Lower(term)) == IsBiotoolsTerm(term)
  {
    LowerIdempotent(term);
  }

  /** Any fragment of a compound term of a table is held by that table's
      compounds. */
  lemma CompoundFragmentHeld(table: seq<Category>, c: Category, cp: string, i: nat, j: nat)
    requires c in table && cp in c.compounds && i <= j <= |cp|
    ensures CompoundHolds(table, Lower(cp[i..j]))
  {
    var t := Lower(cp[i..j]);
    assert Lower(cp)[i..j] == t;
    ContainsAt(Lower(cp), t, i);
  }

  /** Any fragment of a compound term passes the term test, because the test
      is a substring test against the compounds. */
  lemma CompoundFragmentIsTerm(c: Category, cp: string, i: nat, j: nat)
    requires c in ToolTypes || c in FocusAreas
    requires cp in c.compounds && i <= j <= |cp|
    ensures IsBiotoolsTerm(cp[i..j])
  {
    if c in ToolTypes {
      CompoundFragmentHeld(ToolTypes, c, cp, i, j);
    } else {
      CompoundFragmentHeld(FocusAreas, c, cp, i, j);
    }
  }

  /** Some selected, known category has a compound term that holds the
      phrase or is held by it. */
  predicate PhraseMatchesSelection(table: seq<Category>, selected: seq<string>, phrase: string)
  {
    exists i :: 0 <= i < |selected| && Find(table, selected[i]).Some? &&
      exists cp :: cp in Find(table, selected[i]).value.compounds &&
        (Contains(Lower(cp), phrase) || Contains(phrase, Lower(cp)))
  }

  /** `_is_phrase_biotools_relevant`. */
  predicate IsPhraseBiotoolsRelevant(phrase: string, toolTypes: seq<string>, focusAreas: seq<string>)
  {
    PhraseMatchesSelection(ToolTypes, toolTypes, Lower(phrase)) ||
    PhraseMatchesSelection(FocusAreas, focusAreas, Lower(phrase))
  }

  /** Phrase relevance ignores ASCII case. */
  lemma PhraseRelevanceCaseless(phrase: string, toolTypes: seq<string>, focusAreas: seq<string>)
    ensures IsPhraseBiotoolsRelevant(Lower(phrase), toolTypes, focusAreas) ==
            IsPhraseBiotoolsRelevant(phrase, toolTypes, focusAreas)
  {
    LowerIdempotent(phrase);
  }

  /** A phrase spelling out a compound term of a selected tool type is
      relevant. */
  lemma PhraseOfSelectedCompound(phrase: string, toolTypes: seq<string>, focusAreas: seq<string>, i: nat, cp: string)
    requires i < |toolTypes| && Find(ToolTypes, toolTypes[i]).Some?
    requires cp in Find(ToolTypes, toolTypes[i]).value.compounds
    requires Lower(phrase) == Lower(cp)
    ensures IsPhraseBiotoolsRelevant(phrase, toolTypes, focusAreas)
  {
    ContainsSelf(Lower(cp));
  }

  /** The terms of a high-value combination, if `(toolType, focusArea)` is one. */
  function CombinationTerms(combos: seq<(string, string, seq<string>)>, toolType: string, focusArea: string): (r: Option<seq<string>>)
    ensures r.Some? ==> (toolType, focusArea, r.value) in combos
    ensures r.None? ==> forall e :: e in combos ==> (e.0, e.1) != (toolType, focusArea)
  {
    if combos == [] then None
    else if combos[0].0 == toolType && combos[0].1 == focusArea then Some(combos[0].2)
    else CombinationTerms(combos[1..], toolType, focusArea)
  }

  /** `_has_cross_domain_relevance`: a high-value combination whose terms
      include one occurring in the text. */
  predicate HasCrossDomainRelevance(text: string, toolType: string, focusArea: string)
  {
    var terms := CombinationTerms(HighValueCombinations, toolType, focusArea);
    terms.Some? && AnyIn(terms.value, text)
  }

  /** On lower-cased text the instrument/genomics combination reduces to
      "sequencer": its other terms, "PCR" and "DNA analyzer", hold upper-case
      letters and never occur. */
  lemma InstrumentGenomicsNeedsSequencer(text: string)
    requires IsLowered(text)
    ensures HasCrossDomainRelevance(text, "instrument", "genomics") <==> Contains(text, "sequencer")
  {
    assert CombinationTerms(HighValueCombinations, "instrument", "genomics") == Some(["sequencer", "PCR", "DNA analyzer"]);
    LoweredExcludesUpper(text, "PCR", 0);
    LoweredExcludesUpper(text, "DNA analyzer", 0);
  }
}
