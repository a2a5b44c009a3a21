/** The relevance classifier of the SBIR scraper (app/scraper.py): compound
    keyword matching with an exclusion penalty, a confidence score and the
    accept rule; the tool-type and focus-area suggestions; the agency
    alignment score; the program pre-filter; and the per-batch award filter
    that puts them together.

    The scraper's relevance, penalty and confidence scores are Python floats
    made of the steps 1.5, 4.0 and 2.0, so this module keeps them as natural
    numbers that are TWICE the Python value. The agency alignment moves in
    whole points and is kept as is. */
module ScraperRelevance {
  import opened Options
  import opened Text
  import opened JsonValue

  /** One item of a Python dict from a name to a list of terms; a mapping is
      a sequence of them, in dict order. */
  datatype Entry = Entry(name: string, terms: seq<string>)

  /** The term tables that drive the classifier. */
  datatype Vocabulary = Vocabulary(
    compounds: seq<string>,
    excluded: seq<Entry>,
    specific: seq<string>,
    toolTypes: seq<Entry>,
    focusAreas: seq<Entry>)

  /** `biotools_compound_keywords`: a match adds 1.5 per word. The list holds
      "personalized medicine" twice, so that phrase counts twice. */
  const CompoundKeywords: seq<string> := [
    "genomic sequencing", "DNA sequencing", "RNA sequencing",
    "genome editing", "CRISPR technology", "CRISPR screening",
    "genetic analysis", "molecular diagnostics", "gene expression analysis",
    "single cell genomics", "whole genome sequencing", "targeted sequencing",
    "epigenetic analysis", "ChIP-seq", "ATAC-seq",
    "cell biology tools", "cellular imaging", "live cell imaging",
    "fluorescence microscopy", "confocal microscopy", "super resolution microscopy",
    "cell sorting", "flow cytometry", "single cell analysis",
    "cell culture systems", "stem cell research tools", "cell viability assays",
    "cell-based screening", "organoid culture", "protein analysis",
    "mass spectrometry proteomics", "protein identification", "peptide analysis",
    "enzyme assays", "biochemical analysis", "immunoassays",
    "protein purification", "protein characterization", "western blotting",
    "protein-protein interactions", "structural biology tools", "bioinformatics software",
    "computational biology tools", "sequence analysis", "phylogenetic analysis",
    "structural bioinformatics", "systems biology", "biological databases",
    "genomic data analysis", "protein modeling", "machine learning biology",
    "AI drug discovery", "computational genomics", "laboratory automation",
    "bioanalytical instruments", "clinical diagnostics", "point-of-care testing",
    "medical diagnostics", "biological sensors", "laboratory equipment",
    "analytical instrumentation", "robotic liquid handling", "high-throughput screening",
    "automated cell culture", "spatial biology", "spatial transcriptomics",
    "tissue imaging", "pathology imaging", "drug discovery platforms",
    "pharmaceutical research", "biomarker discovery", "clinical laboratory tools",
    "diagnostic testing", "therapeutic development", "personalized medicine",
    "precision medicine tools", "microfluidic devices", "lab-on-chip systems",
    "droplet microfluidics", "biological microfluidics", "cell manipulation",
    "biological sample preparation", "organ-on-chip", "tissue-on-chip",
    "microfluidic cell culture", "synthetic biology tools", "bioengineering platforms",
    "biological engineering", "biosynthesis systems", "metabolic engineering",
    "protein engineering", "genetic engineering tools", "biological circuits",
    "biodesign", "multi-omics integration", "systems biology tools",
    "integrative biology", "personalized medicine", "precision medicine",
    "biomedical research tools", "translational research", "clinical translation",
    "biomarker validation", "organoid technology", "tissue engineering",
    "regenerative medicine tools", "immunotherapy tools", "cancer research tools",
    "neuroscience research tools", "microbiome analysis", "environmental microbiology",
    "metagenomics", "long-read sequencing", "nanopore sequencing",
    "real-time PCR"]

  /** `excluded_domains`: every hit costs 4.0. */
  const ExcludedDomains: seq<Entry> := [
    Entry("astronomy_space", [
      "stellar", "galactic", "planetary",
      "astronomical", "astrophysics", "space mission",
      "satellite communication", "cosmic ray", "solar system",
      "interstellar", "telescope design", "observatory",
      "space exploration general", "rocket propulsion", "spacecraft",
      "orbital mechanics"]),
    Entry("geology_earth_science", [
      "geological mapping", "geophysical", "seismic",
      "tectonic", "volcanic", "sedimentary",
      "igneous", "metamorphic", "mineral exploration",
      "geochemistry", "petrology", "stratigraphy",
      "paleontology", "hydrogeology", "geological survey"]),
    Entry("physics_non_bio", [
      "particle physics", "quantum mechanics", "nuclear physics",
      "theoretical physics", "condensed matter physics", "plasma physics",
      "high energy physics", "atomic physics", "optics research",
      "materials physics", "semiconductor physics", "superconductivity"]),
    Entry("engineering_non_bio", [
      "mechanical engineering", "electrical engineering", "civil engineering",
      "aerospace engineering", "chemical engineering general", "industrial engineering",
      "structural engineering", "automotive engineering", "manufacturing engineering",
      "systems engineering general"]),
    Entry("environmental_non_bio", [
      "climate modeling", "atmospheric science", "meteorology",
      "oceanography general", "hydrology", "remote sensing general",
      "earth observation", "weather prediction", "greenhouse gas",
      "carbon sequestration general"]),
    Entry("computer_science_general", [
      "web development", "mobile application", "database administration",
      "network security", "cloud computing", "cybersecurity",
      "software engineering general", "information systems", "computer graphics",
      "user interface"]),
    Entry("chemistry_non_bio", [
      "inorganic chemistry", "physical chemistry", "materials chemistry",
      "industrial chemistry", "polymer chemistry general", "analytical chemistry general",
      "catalysis general", "electrochemistry general"]),
    Entry("energy_non_bio", [
      "solar panels", "wind energy", "fossil fuels",
      "nuclear energy", "grid infrastructure", "energy storage general",
      "smart grid", "power systems", "electrical grid"])]

  /** The terms that raise the confidence when some matched compound holds them. */
  const SpecificTerms: seq<string> := ["CRISPR", "sequencing", "proteomics", "bioinformatics", "microfluidic"]

  /** `tool_type_mappings` of `_suggest_tool_types`. */
  const ToolTypeMappings: seq<Entry> := [
    Entry("instrument", ["sequencing", "microscopy", "cytometry", "spectrometry", "imaging", "automation", "analyzer", "scanner", "detector", "reader"]),
    Entry("software", ["bioinformatics software", "computational biology", "analysis", "modeling", "algorithm", "pipeline", "machine learning"]),
    Entry("assay", ["assay", "testing", "diagnostic", "immunoassay", "biochemical analysis", "screening", "PCR", "ELISA", "western blot"]),
    Entry("database_platform", ["database", "repository", "platform", "resource", "portal", "registry"]),
    Entry("integrated_system", ["automation", "platform", "system", "workstation", "robotic", "high-throughput"]),
    Entry("service", ["service", "facility", "core", "laboratory", "clinical"]),
    Entry("consumable", ["reagent", "kit", "supplies", "media", "buffer", "antibody"])]

  /** `focus_area_mappings` of `_suggest_focus_areas`. */
  const FocusAreaMappings: seq<Entry> := [
    Entry("genomics", ["genomic", "DNA", "gene", "sequencing", "CRISPR", "genetic"]),
    Entry("cell_biology", ["cell", "cellular", "microscopy", "imaging", "culture", "organoid"]),
    Entry("proteomics", ["protein", "peptide", "mass spectrometry", "immunoassay"]),
    Entry("bioinformatics", ["bioinformatics", "computational", "analysis", "algorithm"]),
    Entry("single_cell", ["single cell", "droplet", "microfluidic", "cell sorting"]),
    Entry("spatial_biology", ["spatial", "tissue", "pathology", "imaging"]),
    Entry("immunology", ["immune", "antibody", "immunoassay", "cytometry"]),
    Entry("synthetic_biology", ["synthetic biology", "bioengineering", "metabolic"]),
    Entry("diagnostics", ["diagnostic", "clinical", "point-of-care", "biomarker"]),
    Entry("microbiome", ["microbiome", "microbial", "16S", "metagenome"]),
    Entry("multi_omics", ["multi-omics", "integrative", "systems biology"]),
    Entry("high_throughput_screening", ["high throughput", "screening", "automation"])]

  /** An agency's entry in `biotools_agencies` (its `sub_agencies` are never read). */
  datatype AgencyProfile = AgencyProfile(programs: seq<string>, excludePrograms: seq<string>)

  const BiotoolsAgencies: map<string, AgencyProfile> := map[
    "HHS" := AgencyProfile(
      ["SBIR", "STTR", "biomedical", "health technology", "medical device", "diagnostic", "therapeutic", "clinical", "health surveillance"],
      ["social services", "education", "administration", "policy"]),
    "DOD" := AgencyProfile(
      ["biological technologies", "biotechnology", "biodefense", "biological systems", "bioengineering", "medical countermeasures"],
      ["weapons systems", "communications", "transportation", "cybersecurity", "logistics"]),
    "NSF" := AgencyProfile(
      ["biological sciences", "molecular", "cellular", "biological research", "biotechnology", "biochemistry", "biophysics", "systems biology"],
      ["social sciences", "education", "geosciences", "physics general", "engineering general", "computer science general"]),
    "DOE" := AgencyProfile(
      ["biological systems", "bioenergy", "environmental biology", "genomics", "systems biology", "biotechnology research"],
      ["fossil energy", "nuclear energy", "renewable energy general", "grid modernization", "energy efficiency general"]),
    "NASA" := AgencyProfile(
      ["astrobiology", "life sciences", "biological systems", "space biology", "biomedical research", "life support systems"],
      ["aerospace", "communications", "earth observation general", "space exploration general", "materials general"]),
    "EPA" := AgencyProfile(
      ["environmental biotechnology", "biological monitoring", "bioremediation", "ecological research", "environmental health"],
      ["policy", "regulation", "administration", "climate general"])]

  /** `agency_specific_indicators` of `_calculate_agency_alignment`. */
  const AgencyIndicators: map<string, seq<string>> := map[
    "HHS" := ["clinical", "medical", "health", "diagnostic", "therapeutic"],
    "DOD" := ["defense", "countermeasure", "battlefield", "military"],
    "NSF" := ["fundamental", "basic research", "innovation", "discovery"],
    "DOE" := ["energy", "biofuel", "environmental", "sustainability"],
    "NASA" := ["space", "microgravity", "astrobiology", "life support"],
    "EPA" := ["environmental", "pollution", "contamination", "monitoring"]]

  /** The vocabulary the scraper classifies with, CORRECTED: the suggestion
      indicators are lower-cased, as the rest of the classifier compares.
      As written, the capital indicators never fire; see
      `UpperIndicatorNeverFires`, `CapitalIndicatorsAsWritten` and
      `RealTimePcrAsWritten`. */
  const Scraper: Vocabulary :=
    Vocabulary(CompoundKeywords, ExcludedDomains, SpecificTerms, LowerEntries(ToolTypeMappings), LowerEntries(FocusAreaMappings))

  /** The names of a mapping, in order. */
  function Names(m: seq<Entry>): seq<string>
  {
    seq(|m|, k requires 0 <= k < |m| => m[k].name)
  }

  /** The mapping with every indicator lower-cased. */
  function LowerEntries(m: seq<Entry>): seq<Entry>
  {
    seq(|m|, k requires 0 <= k < |m| => Entry(m[k].name, LowerAll(m[k].terms)))
  }

  function Min(a: nat, b: nat): nat { if a < b then a else b }

  // ------------------------------------------------------------ matching

  /** `[t for t in terms if t.lower() in text]`. */
  function MatchedTerms(terms: seq<string>, text: string): (r: seq<string>)
    ensures |r| <= |terms|
    ensures forall t :: t in r ==> t in terms && Contains(text, Lower(t))
  {
    if terms == [] then []
    else
      var init := MatchedTerms(terms[..|terms| - 1], text);
      var last := terms[|terms| - 1];
      if Contains(text, Lower(last)) then init + [last] else init
  }

  /** Every term that occurs, lower-cased, in the text is matched. */
  lemma {:induction false} MatchedTermsComplete(terms: seq<string>, text: string, t: string)
    requires t in terms && Contains(text, Lower(t))
    ensures t in MatchedTerms(terms, text)
  {
    if t != terms[|terms| - 1] {
      assert t in terms[..|terms| - 1] by {
        var k :| 0 <= k < |terms| && terms[k] == t;
        assert terms[..|terms| - 1][k] == t;
      }
      MatchedTermsComplete(terms[..|terms| - 1], text, t);
    }
  }

  /** The matched terms keep the order of the list. */
  lemma {:induction false} MatchedTermsInOrder(terms: seq<string>, text: string)
    ensures IsSubsequence(MatchedTerms(terms, text), terms)
  {
    if terms != [] {
      var init := terms[..|terms| - 1];
      MatchedTermsInOrder(init, text);
      var r := MatchedTerms(terms, text);
      if Contains(text, Lower(terms[|terms| - 1])) {
        assert r[..|r| - 1] == MatchedTerms(init, text);
      }
    }
  }

  /** Twice `sum(len(k.split()) * 1.5 for k in matched)`. */
  function CompoundPoints(matched: seq<string>): nat
  {
    if matched == [] then 0
    else CompoundPoints(matched[..|matched| - 1]) + 3 * |Split(matched[|matched| - 1])|
  }

  /** `(name, t)` for every term of one excluded domain that occurs, lower-cased. */
  function DomainHits(name: string, terms: seq<string>, text: string): (r: seq<(string, string)>)
    ensures forall h :: h in r ==> h.0 == name && h.1 in terms && Contains(text, Lower(h.1))
  {
    if terms == [] then []
    else
      var init := DomainHits(name, terms[..|terms| - 1], text);
      var last := terms[|terms| - 1];
      if Contains(text, Lower(last)) then init + [(name, last)] else init
  }

  /** `excluded_matches`: the hits of every domain, domain by domain. */
  function ExcludedHits(domains: seq<Entry>, text: string): (r: seq<(string, string)>)
    ensures forall h :: h in r ==> exists e :: e in domains && h.0 == e.name && h.1 in e.terms && Contains(text, Lower(h.1))
  {
    if domains == [] then []
    else
      var last := domains[|domains| - 1];
      ExcludedHits(domains[..|domains| - 1], text) + DomainHits(last.name, last.terms, text)
  }

  /** Every term of a domain that occurs is a hit of that domain. */
  lemma {:induction false} DomainHitsComplete(name: string, terms: seq<string>, text: string, t: string)
    requires t in terms && Contains(text, Lower(t))
    ensures (name, t) in DomainHits(name, terms, text)
  {
    if t != terms[|terms| - 1] {
      assert t in terms[..|terms| - 1] by {
        var k :| 0 <= k < |terms| && terms[k] == t;
        assert terms[..|terms| - 1][k] == t;
      }
      DomainHitsComplete(name, terms[..|terms| - 1], text, t);
    }
  }

  /** Every excluded term that occurs is reported with its domain. */
  lemma {:induction false} ExcludedHitsComplete(domains: seq<Entry>, text: string, e: Entry, t: string)
    requires e in domains && t in e.terms && Contains(text, Lower(t))
    ensures (e.name, t) in ExcludedHits(domains, text)
  {
    var last := domains[|domains| - 1];
    if e == last {
      DomainHitsComplete(e.name, e.terms, text, t);
    } else {
      assert e in domains[..|domains| - 1] by {
        var k :| 0 <= k < |domains| && domains[k] == e;
        assert domains[..|domains| - 1][k] == e;
      }
      ExcludedHitsComplete(domains[..|domains| - 1], text, e, t);
    }
  }

  // ---------------------------------------------------------- confidence

  /** Some matched compound holds the term, in any case. */
  predicate HeldBy(matched: seq<string>, term: string)
  {
    exists c :: c in matched && Contains(Lower(c), Lower(term))
  }

  /** The number of specific terms that some matched compound holds. */
  function Boost(specific: seq<string>, matched: seq<string>): (n: nat)
    ensures n <= |specific|
  {
    if specific == [] then 0
    else Boost(specific[..|specific| - 1], matched) + (if HeldBy(matched, specific[|specific| - 1]) then 1 else 0)
  }

  /** Twice the confidence score: 0 without a match, else twice
      `min(2 * matches, 10)` plus 4 per specific term held. */
  function Confidence(specific: seq<string>, matched: seq<string>): nat
  {
    if matched == [] then 0 else Min(4 * |matched|, 20) + 4 * Boost(specific, matched)
  }

  // --------------------------------------------------------- suggestions

  /** `any(indicator in keyword.lower() for indicator in indicators)`. */
  predicate Fires(keyword: string, indicators: seq<string>)
  {
    exists ind :: ind in indicators && Contains(Lower(keyword), ind)
  }

  /** Some matched keyword fires the entry. */
  predicate EntryFires(e: Entry, keywords: seq<string>)
  {
    exists k :: k in keywords && Fires(k, e.terms)
  }

  /** The names of the entries that some keyword fires, in mapping order and
      each once. */
  function Suggestions(m: seq<Entry>, keywords: seq<string>): (r: seq<string>)
    ensures keywords == [] ==> r == []
  {
    if m == [] then []
    else
      var init := Suggestions(m[..|m| - 1], keywords);
      var e := m[|m| - 1];
      if EntryFires(e, keywords) && e.name !in init then init + [e.name] else init
  }

  /** A suggestion list never names an entry twice. */
  lemma {:induction false} SuggestionsDistinct(m: seq<Entry>, keywords: seq<string>)
    ensures Distinct(Suggestions(m, keywords))
  {
    if m != [] {
      var init := Suggestions(m[..|m| - 1], keywords);
      SuggestionsDistinct(m[..|m| - 1], keywords);
      var r := Suggestions(m, keywords);
      forall i, j | 0 <= i < j < |r| ensures r[i] != r[j] {
        if j == |init| {
          assert r == init + [m[|m| - 1].name] && r[j] !in init;
          assert r[i] == init[i];
        } else {
          assert r[i] == init[i] && r[j] == init[j];
        }
      }
    }
  }

  /** A name is suggested exactly when an entry of that name is fired by a
      matched keyword. */
  lemma {:induction false} SuggestionsMembers(m: seq<Entry>, keywords: seq<string>, n: string)
    ensures n in Suggestions(m, keywords) <==> exists e :: e in m && e.name == n && EntryFires(e, keywords)
  {
    if m != [] {
      var init := m[..|m| - 1];
      SuggestionsMembers(init, keywords, n);
      if exists e :: e in init && e.name == n && EntryFires(e, keywords) {
        var e :| e in init && e.name == n && EntryFires(e, keywords);
        assert e in m;
      }
      if exists e :: e in m && e.name == n && EntryFires(e, keywords) {
        var e :| e in m && e.name == n && EntryFires(e, keywords);
        if e != m[|m| - 1] {
          var k :| 0 <= k < |m| && m[k] == e;
          assert init[k] == e;
        }
      }
    }
  }

  /** The suggestions follow the mapping's order. */
  lemma {:induction false} SuggestionsInOrder(m: seq<Entry>, keywords: seq<string>)
    ensures IsSubsequence(Suggestions(m, keywords), Names(m))
  {
    if m != [] {
      var init := m[..|m| - 1];
      SuggestionsInOrder(init, keywords);
      assert Names(m)[..|m| - 1] == Names(init);
      var r := Suggestions(m, keywords);
      if EntryFires(m[|m| - 1], keywords) && m[|m| - 1].name !in Suggestions(init, keywords) {
        assert r[..|r| - 1] == Suggestions(init, keywords);
      }
    }
  }

  /** As written, `_suggest_tool_types` and `_suggest_focus_areas` compare
      the indicator itself with the lower-cased keyword, so an indicator with
      a capital letter (`DNA`, `CRISPR`, `PCR`, `ELISA`, `16S`) never fires:
      the keyword `CRISPR technology` is not tied to `genomics` by `CRISPR`. */
  lemma UpperIndicatorNeverFires(keyword: string, indicator: string, k: nat)
    requires k < |indicator| && IsUpperAscii(indicator[k])
    ensures !Contains(Lower(keyword), indicator)
  {
    LowerIsLowered(keyword);
    LoweredExcludesUpper(Lower(keyword), indicator, k);
  }

  /** With the indicators lower-cased, every entry is suggested for a keyword
      that holds one of its indicators, in any case. */
  lemma LoweredIndicatorFires(m: seq<Entry>, keywords: seq<string>, i: nat, k: string, t: string)
    requires i < |m| && k in keywords && t in m[i].terms && Contains(k, t)
    ensures m[i].name in Suggestions(LowerEntries(m), keywords)
  {
    var e := LowerEntries(m)[i];
    var j :| 0 <= j < |m[i].terms| && m[i].terms[j] == t;
    assert e.terms[j] == Lower(t);
    ContainsLowered(k, t);
    assert Fires(k, e.terms);
    SuggestionsMembers(LowerEntries(m), keywords, m[i].name);
  }

  /** The suggestion lists take nothing but mapping names. */
  lemma SuggestionsAreNames(m: seq<Entry>, keywords: seq<string>, n: string)
    requires n in Suggestions(m, keywords)
    ensures n in Names(m)
  {
    SuggestionsInOrder(m, keywords);
    SubsequenceMembers(Suggestions(m, keywords), Names(m), n);
  }

  // ----------------------------------------------------------- the rule

  /** The `relevance_data` dict of `is_biotools_relevant`, with the scores
      doubled. */
  datatype Relevance = Relevance(
    isRelevant: bool,
    score: nat,
    matched: seq<string>,
    excluded: seq<(string, string)>,
    negative: nat,
    toolTypes: seq<string>,
    focusAreas: seq<string>,
    confidence: nat)

  /** `f"{title} {description} {keywords}".lower()`. */
  function Combined(title: string, description: string, keywords: string): string
  {
    Lower(title + " " + description + " " + keywords)
  }

  /** What `is_biotools_relevant` returns. */
  function Assess(v: Vocabulary, title: string, description: string, keywords: string): Relevance
  {
    var text := Combined(title, description, keywords);
    var matched := MatchedTerms(v.compounds, text);
    var hits := ExcludedHits(v.excluded, text);
    var positive := CompoundPoints(matched);
    var negative := 8 * |hits|;
    var confidence := Confidence(v.specific, matched);
    var score := if positive > negative then positive - negative else 0;
    Relevance(|matched| > 0 && score > 6 && |hits| <= 1 && confidence > 4,
              score, matched, hits, negative,
              Suggestions(v.toolTypes, matched), Suggestions(v.focusAreas, matched), confidence)
  }

  /** The matched keywords are exactly the compounds that occur, lower-cased,
      in the combined text, in list order. */
  lemma AssessMatched(v: Vocabulary, title: string, description: string, keywords: string, t: string)
    ensures var r := Assess(v, title, description, keywords);
      IsSubsequence(r.matched, v.compounds) &&
      (t in r.matched <==> t in v.compounds && Contains(Combined(title, description, keywords), Lower(t)))
  {
    var text := Combined(title, description, keywords);
    MatchedTermsInOrder(v.compounds, text);
    if t in v.compounds && Contains(text, Lower(t)) {
      MatchedTermsComplete(v.compounds, text, t);
    }
  }

  /** The excluded hits are exactly the excluded terms that occur, each with
      its domain, and each costs 4.0. */
  lemma AssessExcluded(v: Vocabulary, title: string, description: string, keywords: string, d: string, t: string)
    ensures var r := Assess(v, title, description, keywords);
      r.negative == 8 * |r.excluded| &&
      ((d, t) in r.excluded <==>
        exists e :: e in v.excluded && e.name == d && t in e.terms && Contains(Combined(title, description, keywords), Lower(t)))
  {
    var text := Combined(title, description, keywords);
    if exists e :: e in v.excluded && e.name == d && t in e.terms && Contains(text, Lower(t)) {
      var e :| e in v.excluded && e.name == d && t in e.terms && Contains(text, Lower(t));
      ExcludedHitsComplete(v.excluded, text, e, t);
    }
  }

  /** The score is the compound points less the penalty, never below zero;
      without a compound match everything is zero and nothing is suggested. */
  lemma AssessScore(v: Vocabulary, title: string, description: string, keywords: string)
    ensures var r := Assess(v, title, description, keywords);
      r.negative == 8 * |r.excluded| &&
      r.score == (if CompoundPoints(r.matched) > r.negative then CompoundPoints(r.matched) - r.negative else 0) &&
      r.score <= CompoundPoints(r.matched) &&
      r.score + r.negative >= CompoundPoints(r.matched) &&
      (r.matched == [] ==> r.score == 0 && r.confidence == 0 && !r.isRelevant && r.toolTypes == [] && r.focusAreas == [])
  {
  }

  /** With a match, the confidence is `min(2 * matches, 10)` plus 2.0 per
      specific term some matched compound holds (so at most 2.0 per specific
      term), doubled; without a match it is 0. */
  lemma AssessConfidence(v: Vocabulary, title: string, description: string, keywords: string)
    ensures var r := Assess(v, title, description, keywords);
      (r.matched != [] ==> r.confidence == Min(4 * |r.matched|, 20) + 4 * Boost(v.specific, r.matched)) &&
      (r.matched == [] ==> r.confidence == 0) &&
      (r.matched != [] ==> Min(4 * |r.matched|, 20) <= r.confidence <= Min(4 * |r.matched|, 20) + 4 * |v.specific|)
  {
  }

  /** An accepted record has at most one excluded hit, compound points that
      beat the penalty by more than 3.0, and either two matches or one match
      holding a specific term. */
  lemma RelevantMeans(v: Vocabulary, title: string, description: string, keywords: string)
    ensures var r := Assess(v, title, description, keywords);
      r.isRelevant ==>
        |r.excluded| <= 1 && CompoundPoints(r.matched) > 6 + r.negative &&
        (|r.matched| >= 2 || Boost(v.specific, r.matched) >= 1)
  {
  }

  /** A single match of at most two words is never enough: it earns at
      most 3.0. */
  lemma SingleShortMatchRejected(v: Vocabulary, title: string, description: string, keywords: string)
    requires var r := Assess(v, title, description, keywords);
      |r.matched| == 1 && |Split(r.matched[0])| <= 2
    ensures !Assess(v, title, description, keywords).isRelevant
  {
    var r := Assess(v, title, description, keywords);
    assert CompoundPoints(r.matched) == 3 * |Split(r.matched[0])| by {
      assert r.matched[..0] == [];
    }
  }

  // ----------------------------------------------------------- imperative

  /** The compound loop of `is_biotools_relevant`. */
  method MatchCompounds(compounds: seq<string>, text: string) returns (matched: seq<string>, points: nat)
    ensures matched == MatchedTerms(compounds, text)
    ensures points == CompoundPoints(matched)
  {
    matched, points := [], 0;
    for i := 0 to |compounds|
      invariant matched == MatchedTerms(compounds[..i], text)
      invariant points == CompoundPoints(matched)
    {
      assert compounds[..i + 1][..i] == compounds[..i];
      if Contains(text, Lower(compounds[i])) {
        matched := matched + [compounds[i]];
        assert matched[..|matched| - 1] == MatchedTerms(compounds[..i], text);
        points := points + 3 * |Split(compounds[i])|;
      }
    }
    assert compounds[..|compounds|] == compounds;
  }

  /** The excluded-domain loops of `is_biotools_relevant`. */
  method FindExcluded(domains: seq<Entry>, text: string) returns (hits: seq<(string, string)>, negative: nat)
    ensures hits == ExcludedHits(domains, text)
    ensures negative == 8 * |hits|
  {
    hits, negative := [], 0;
    for d := 0 to |domains|
      invariant hits == ExcludedHits(domains[..d], text)
      invariant negative == 8 * |hits|
    {
      var e := domains[d];
      ghost var before := hits;
      for j := 0 to |e.terms|
        invariant hits == before + DomainHits(e.name, e.terms[..j], text)
        invariant negative == 8 * |hits|
      {
        assert e.terms[..j + 1][..j] == e.terms[..j];
        if Contains(text, Lower(e.terms[j])) {
          hits := hits + [(e.name, e.terms[j])];
          negative := negative + 8;
        }
      }
      assert e.terms[..|e.terms|] == e.terms;
      assert domains[..d + 1][..d] == domains[..d];
    }
    assert domains[..|domains|] == domains;
  }

  /** The confidence step of `is_biotools_relevant`. */
  method ScoreConfidence(specific: seq<string>, matched: seq<string>) returns (confidence: nat)
    ensures confidence == Confidence(specific, matched)
  {
    confidence := 0;
    if matched != [] {
      confidence := Min(4 * |matched|, 20);
      for s := 0 to |specific|
        invariant confidence == Min(4 * |matched|, 20) + 4 * Boost(specific[..s], matched)
      {
        assert specific[..s + 1][..s] == specific[..s];
        if exists c :: c in matched && Contains(Lower(c), Lower(specific[s])) {
          confidence := confidence + 4;
        }
      }
      assert specific[..|specific|] == specific;
    }
  }

  /** `_suggest_tool_types` / `_suggest_focus_areas` on a mapping. */
  method Suggest(m: seq<Entry>, keywords: seq<string>) returns (r: seq<string>)
    ensures r == Suggestions(m, keywords)
  {
    r := [];
    for i := 0 to |m|
      invariant r == Suggestions(m[..i], keywords)
    {
      var e := m[i];
      ghost var before := r;
      for j := 0 to |keywords|
        invariant r == if (exists k :: k in keywords[..j] && Fires(k, e.terms)) && e.name !in before
                       then before + [e.name] else before
      {
        if Fires(keywords[j], e.terms) {
          if e.name !in r {
            r := r + [e.name];
          }
        }
        assert keywords[..j + 1] == keywords[..j] + [keywords[j]];
      }
      assert keywords[..|keywords|] == keywords;
      assert m[..i + 1][..i] == m[..i];
    }
    assert m[..|m|] == m;
  }

  /** `is_biotools_relevant`. */
  method IsBiotoolsRelevant(v: Vocabulary, title: string, description: string, keywords: string) returns (r: Relevance)
    ensures r == Assess(v, title, description, keywords)
  {
    var text := Lower(title + " " + description + " " + keywords);
    var matched, positive := MatchCompounds(v.compounds, text);
    var hits, negative := FindExcluded(v.excluded, text);
    var confidence := ScoreConfidence(v.specific, matched);
    var score: nat := if positive > negative then positive - negative else 0;
    var toolTypes := Suggest(v.toolTypes, matched);
    var focusAreas := Suggest(v.focusAreas, matched);
    r := Relevance(|matched| > 0 && score > 6 && |hits| <= 1 && confidence > 4,
                   score, matched, hits, negative, toolTypes, focusAreas, confidence);
  }

  // ----------------------------------------------------- agency alignment

  /** `award.get(key, '').lower()`; `None` where the value has no `lower`. */
  function LoweredField(award: Dict, key: string): Option<string>
  {
    match Get(award, key, JStr(""))
    case JStr(s) => Some(Lower(s))
    case _ => None
  }

  /** `f"{program} {title} {abstract}"` over the lowered fields. */
  function AlignmentText(award: Dict): Option<string>
  {
    match (LoweredField(award, "program"), LoweredField(award, "award_title"), LoweredField(award, "abstract"))
    case (Some(p), Some(t), Some(a)) => Some(p + " " + t + " " + a)
    case _ => None
  }

  /** `biotools_agencies.get(agency, {})`, read for its two lists. */
  function ProfileOf(agencies: map<string, AgencyProfile>, agency: string): AgencyProfile
  {
    if agency in agencies then agencies[agency] else AgencyProfile([], [])
  }

  /** The agency's indicators, none for an agency outside the table. */
  function IndicatorsOf(indicators: map<string, seq<string>>, agency: string): seq<string>
  {
    if agency in indicators then indicators[agency] else []
  }

  /** +2 per expected program, -3 per excluded program and +1 per indicator
      found in the text, before the floor. */
  function AlignmentPoints(profile: AgencyProfile, indicators: seq<string>, text: string): int
  {
    2 * |MatchedTerms(profile.programs, text)| - 3 * |MatchedTerms(profile.excludePrograms, text)| + |Occurring(indicators, text)|
  }

  /** `_calculate_agency_alignment`: the points floored at 0; `None` where a
      field is not a string and `lower()` raises. An agency in neither table
      scores 0, and no award scores more than all its increments. */
  function AgencyAlignment(agencies: map<string, AgencyProfile>, indicators: map<string, seq<string>>,
                           award: Dict, agency: string): (r: Option<nat>)
    ensures r.Some? <==> AlignmentText(award).Some?
    ensures r.Some? && agency !in agencies && agency !in indicators ==> r.value == 0
    ensures r.Some? ==> r.value <= 2 * |ProfileOf(agencies, agency).programs| + |IndicatorsOf(indicators, agency)|
  {
    match AlignmentText(award)
    case None => None
    case Some(text) =>
      var p := AlignmentPoints(ProfileOf(agencies, agency), IndicatorsOf(indicators, agency), text);
      Some(if p > 0 then p else 0)
  }

  /** No term of the list occurs: nothing is matched. */
  lemma MatchedTermsNone(terms: seq<string>, text: string)
    requires forall t :: t in terms ==> !Contains(text, Lower(t))
    ensures MatchedTerms(terms, text) == []
  {
  }

  /** Without an excluded program in the text the floor never bites: the
      score is exactly 2 per expected program plus 1 per indicator found. */
  lemma AlignmentWithoutExclusions(agencies: map<string, AgencyProfile>, indicators: map<string, seq<string>>,
                                   award: Dict, agency: string)
    requires AlignmentText(award).Some?
    requires forall t :: t in ProfileOf(agencies, agency).excludePrograms ==> !Contains(AlignmentText(award).value, Lower(t))
    ensures AgencyAlignment(agencies, indicators, award, agency).value ==
      2 * |MatchedTerms(ProfileOf(agencies, agency).programs, AlignmentText(award).value)| +
      |Occurring(IndicatorsOf(indicators, agency), AlignmentText(award).value)|
  {
    MatchedTermsNone(ProfileOf(agencies, agency).excludePrograms, AlignmentText(award).value);
  }

  /** One more term matches one more time exactly when it occurs. */
  lemma MatchedCountStep(terms: seq<string>, i: nat, text: string)
    requires i < |terms|
    ensures |MatchedTerms(terms[..i + 1], text)|
      == |MatchedTerms(terms[..i], text)| + (if Contains(text, Lower(terms[i])) then 1 else 0)
  {
    assert terms[..i + 1][..i] == terms[..i];
  }

  /** One more term occurs one more time exactly when it occurs. */
  lemma OccurringCountStep(terms: seq<string>, i: nat, text: string)
    requires i < |terms|
    ensures |Occurring(terms[..i + 1], text)|
      == |Occurring(terms[..i], text)| + (if Contains(text, terms[i]) then 1 else 0)
  {
    assert terms[..i + 1][..i] == terms[..i];
  }

  /** The expected-program loop of `_calculate_agency_alignment`: 2 points
      for every program that occurs, lower-cased, in the text. */
  method AddPrograms(start: int, programs: seq<string>, text: string) returns (score: int)
    ensures score == start + 2 * |MatchedTerms(programs, text)|
  {
    score := start;
    for i := 0 to |programs|
      invariant score == start + 2 * |MatchedTerms(programs[..i], text)|
    {
      MatchedCountStep(programs, i, text);
      if Contains(text, Lower(programs[i])) {
        score := score + 2;
      }
    }
    assert programs[..|programs|] == programs;
  }

  /** The excluded-program loop: 3 points off for every excluded program
      that occurs, lower-cased, in the text. */
  method SubtractExcluded(start: int, excluded: seq<string>, text: string) returns (score: int)
    ensures score == start - 3 * |MatchedTerms(excluded, text)|
  {
    score := start;
    for i := 0 to |excluded|
      invariant score == start - 3 * |MatchedTerms(excluded[..i], text)|
    {
      MatchedCountStep(excluded, i, text);
      if Contains(text, Lower(excluded[i])) {
        score := score - 3;
      }
    }
    assert excluded[..|excluded|] == excluded;
  }

  /** The indicator loop of `_calculate_agency_alignment`: a point for every
      indicator that occurs in the text. */
  method AddOccurring(start: int, terms: seq<string>, text: string) returns (score: int)
    ensures score == start + |Occurring(terms, text)|
  {
    score := start;
    for i := 0 to |terms|
      invariant score == start + |Occurring(terms[..i], text)|
    {
      OccurringCountStep(terms, i, text);
      if Contains(text, terms[i]) {
        score := score + 1;
      }
    }
    assert terms[..|terms|] == terms;
  }

  /** The three scoring loops of `_calculate_agency_alignment`, in order. */
  method AlignmentLoops(profile: AgencyProfile, own: seq<string>, text: string) returns (score: int)
    ensures score == AlignmentPoints(profile, own, text)
  {
    score := AddPrograms(0, profile.programs, text);
    score := SubtractExcluded(score, profile.excludePrograms, text);
    score := AddOccurring(score, own, text);
  }

  /** `_calculate_agency_alignment`. */
  method CalculateAgencyAlignment(agencies: map<string, AgencyProfile>, indicators: map<string, seq<string>>,
                                  award: Dict, agency: string) returns (r: Option<nat>)
    ensures r == AgencyAlignment(agencies, indicators, award, agency)
  {
    var text := AlignmentText(award);
    if text.None? {
      return None;
    }
    var score := AlignmentLoops(ProfileOf(agencies, agency), IndicatorsOf(indicators, agency), text.value);
    r := Some(if score > 0 then score else 0);
  }

  // ----------------------------------------------------- program pre-filter

  /** The program pre-filter of `fetch_biotools_awards_by_agency`: an award
      without a program passes; one with a program passes when its lowered
      program holds one of the agency's expected programs; `None` where
      `program.lower()` raises. */
  function ProgramAligned(agencies: map<string, AgencyProfile>, award: Dict, agency: string): (r: Option<bool>)
    ensures !Truthy(Get(award, "program", JStr(""))) ==> r == Some(true)
    ensures Truthy(Get(award, "program", JStr(""))) ==> (r.Some? <==> Get(award, "program", JStr("")).JStr?)
    ensures agency !in agencies && Truthy(Get(award, "program", JStr(""))) ==> r != Some(true)
  {
    var program := Get(award, "program", JStr(""));
    if !Truthy(program) then Some(true)
    else if !program.JStr? then None
    else Some(exists p :: p in ProfileOf(agencies, agency).programs && Contains(Lower(program.s), Lower(p)))
  }

  /** The pre-filter loop, which stops at the first expected program. */
  method IsProgramAligned(agencies: map<string, AgencyProfile>, award: Dict, agency: string) returns (r: Option<bool>)
    ensures r == ProgramAligned(agencies, award, agency)
  {
    var program := Get(award, "program", JStr(""));
    if !Truthy(program) {
      return Some(true);
    }
    if !program.JStr? {
      return None;
    }
    var lowered := Lower(program.s);
    var programs := ProfileOf(agencies, agency).programs;
    var i := 0;
    while i < |programs|
      invariant 0 <= i <= |programs|
      invariant forall k :: 0 <= k < i ==> !Contains(lowered, Lower(programs[k]))
    {
      if Contains(lowered, Lower(programs[i])) {
        return Some(true);
      }
      i := i + 1;
    }
    return Some(false);
  }

  // ----------------------------------------------------- the award batch

  /** The fields the award loop writes into an accepted award. */
  const AnnotationKeys: set<string> := {
    "biotools_relevance_score", "biotools_validated", "compound_keyword_matches", "biotools_tool_type",
    "biotools_focus_area", "excluded_domain_flags", "negative_filter_score", "agency_biotools_alignment",
    "biotools_confidence_score"}

  /** `[f"{domain}:{term}" for domain, term in excluded]`. */
  function Flags(hits: seq<(string, string)>): seq<string>
  {
    seq(|hits|, k requires 0 <= k < |hits| => hits[k].0 + ":" + hits[k].1)
  }

  /** The award dict after the loop has written its biotools fields; the
      scores go back to Python's scale. */
  function Annotate(award: Dict, r: Relevance, alignment: nat): (a: Dict)
    ensures a.Keys == award.Keys + AnnotationKeys
    ensures forall k :: k in award && k !in AnnotationKeys ==> a[k] == award[k]
    ensures a["biotools_validated"] == JBool(true)
  {
    award["biotools_relevance_score" := JFloat(r.score as real / 2.0)]
         ["biotools_validated" := JBool(true)]
         ["compound_keyword_matches" := JStr(Join(r.matched, ","))]
         ["biotools_tool_type" := JStr(Join(r.toolTypes, ","))]
         ["biotools_focus_area" := JStr(Join(r.focusAreas, ","))]
         ["excluded_domain_flags" := JStr(Join(Flags(r.excluded), ","))]
         ["negative_filter_score" := JFloat(r.negative as real / 2.0)]
         ["agency_biotools_alignment" := JFloat(alignment as real)]
         ["biotools_confidence_score" := JFloat(r.confidence as real / 2.0)]
  }

  /** `is_biotools_relevant(title, abstract, keywords)` on an award's fields,
      each passed through an f-string. */
  function AssessAward(v: Vocabulary, award: Dict): Relevance
  {
    Assess(v, Render(Get(award, "award_title", JStr(""))), Render(Get(award, "abstract", JStr(""))),
           Render(Or(Get(award, "research_area_keywords", JStr("")), JStr(""))))
  }

  /** What the award loop does with one award: drops it, keeps it annotated,
      or raises (and the whole fetch fails). */
  datatype AwardStep = Skip | Keep(award: Dict) | Crash

  function StepAward(v: Vocabulary, agencies: map<string, AgencyProfile>, indicators: map<string, seq<string>>,
                     award: Dict, agency: string): AwardStep
  {
    match ProgramAligned(agencies, award, agency)
    case None => Crash
    case Some(aligned) =>
      if !aligned then Skip
      else
        var r := AssessAward(v, award);
        if !r.isRelevant then Skip
        else match AgencyAlignment(agencies, indicators, award, agency)
          case None => Crash
          case Some(a) => Keep(Annotate(award, r, a))
  }

  /** The loop body as a function of the award alone. */
  function AwardStepOf(v: Vocabulary, agencies: map<string, AgencyProfile>, indicators: map<string, seq<string>>,
                       agency: string): Dict -> AwardStep
  {
    g => StepAward(v, agencies, indicators, g, agency)
  }

  /** The awards a batch contributes, in batch order, with `step` as the loop
      body; `None` when one of them raises. */
  function SelectAwards(step: Dict -> AwardStep, batch: seq<Dict>): (r: Option<seq<Dict>>)
    ensures r.Some? ==> |r.value| <= |batch|
    ensures r.Some? ==> forall a :: a in r.value ==> exists g :: g in batch && step(g) == Keep(a)
  {
    if batch == [] then Some([])
    else
      match SelectAwards(step, batch[..|batch| - 1])
      case None => None
      case Some(kept) =>
        match step(batch[|batch| - 1])
        case Skip => Some(kept)
        case Keep(a) => Some(kept + [a])
        case Crash => None
  }

  /** The awards of two stretches of a batch are those of the first followed
      by those of the second: the batch order is kept. */
  lemma {:induction false} SelectAwardsAppend(step: Dict -> AwardStep, a: seq<Dict>, b: seq<Dict>)
    requires SelectAwards(step, a + b).Some?
    ensures SelectAwards(step, a).Some? && SelectAwards(step, b).Some?
    ensures SelectAwards(step, a + b).value == SelectAwards(step, a).value + SelectAwards(step, b).value
    decreases |b|
  {
    if b == [] {
      assert a + b == a;
    } else {
      var init := b[..|b| - 1];
      assert (a + b)[..|a + b| - 1] == a + init;
      assert (a + b)[|a + b| - 1] == b[|b| - 1];
      SelectAwardsAppend(step, a, init);
    }
  }

  /** Every award the loop body keeps is contributed when the batch does not
      fail. */
  lemma {:induction false} SelectAwardsComplete(step: Dict -> AwardStep, batch: seq<Dict>, g: Dict, a: Dict)
    requires SelectAwards(step, batch).Some?
    requires g in batch && step(g) == Keep(a)
    ensures a in SelectAwards(step, batch).value
    decreases |batch|
  {
    var init := batch[..|batch| - 1];
    assert batch == init + [batch[|batch| - 1]];
    if g != batch[|batch| - 1] {
      assert g in init;
      SelectAwardsComplete(step, init, g, a);
    }
  }

  /** A kept award passed the pre-filter and the relevance rule, and carries
      the biotools fields over its own. */
  lemma KeptAwardMeans(v: Vocabulary, agencies: map<string, AgencyProfile>, indicators: map<string, seq<string>>,
                       g: Dict, agency: string, a: Dict)
    requires StepAward(v, agencies, indicators, g, agency) == Keep(a)
    ensures ProgramAligned(agencies, g, agency) == Some(true)
    ensures AssessAward(v, g).isRelevant
    ensures a.Keys == g.Keys + AnnotationKeys && a["biotools_validated"] == JBool(true)
    ensures forall k :: k in g && k !in AnnotationKeys ==> a[k] == g[k]
  {
    var r := AssessAward(v, g);
    var alignment := AgencyAlignment(agencies, indicators, g, agency);
    assert ProgramAligned(agencies, g, agency) == Some(true);
    assert r.isRelevant && alignment.Some?;
    assert a == Annotate(g, r, alignment.value);
  }

  /** The batch fails exactly when one of its awards raises. */
  lemma {:induction false} SelectAwardsFails(step: Dict -> AwardStep, batch: seq<Dict>)
    ensures SelectAwards(step, batch).None? <==> exists g :: g in batch && step(g).Crash?
  {
    if batch != [] {
      var init := batch[..|batch| - 1];
      SelectAwardsFails(step, init);
      if exists g :: g in init && step(g).Crash? {
        var g :| g in init && step(g).Crash?;
        assert g in batch;
      }
      if exists g :: g in batch && step(g).Crash? {
        var g :| g in batch && step(g).Crash?;
        if g != batch[|batch| - 1] {
          var k :| 0 <= k < |batch| && batch[k] == g;
          assert init[k] == g;
        }
      }
    }
  }

  /** The body of the award loop for one award. */
  method ProcessAward(v: Vocabulary, agencies: map<string, AgencyProfile>, indicators: map<string, seq<string>>,
                      award: Dict, agency: string) returns (step: AwardStep)
    ensures step == StepAward(v, agencies, indicators, award, agency)
  {
    var aligned := IsProgramAligned(agencies, award, agency);
    if aligned.None? {
      return Crash;
    }
    if !aligned.value {
      return Skip;
    }
    var r := IsBiotoolsRelevant(v, Render(Get(award, "award_title", JStr(""))), Render(Get(award, "abstract", JStr(""))),
                                Render(Or(Get(award, "research_area_keywords", JStr("")), JStr(""))));
    if !r.isRelevant {
      return Skip;
    }
    var alignment := CalculateAgencyAlignment(agencies, indicators, award, agency);
    if alignment.None? {
      return Crash;
    }
    return Keep(Annotate(award, r, alignment.value));
  }

  /** The award loop over one batch of `fetch_biotools_awards_by_agency`. */
  method FilterAwardBatch(v: Vocabulary, agencies: map<string, AgencyProfile>, indicators: map<string, seq<string>>,
                          batch: seq<Dict>, agency: string) returns (r: Option<seq<Dict>>)
    ensures r == SelectAwards(AwardStepOf(v, agencies, indicators, agency), batch)
  {
    ghost var body := AwardStepOf(v, agencies, indicators, agency);
    var awards: seq<Dict> := [];
    for i := 0 to |batch|
      invariant SelectAwards(body, batch[..i]) == Some(awards)
    {
      assert batch[..i + 1][..i] == batch[..i];
      var step := ProcessAward(v, agencies, indicators, batch[i], agency);
      assert step == body(batch[i]);
      match step {
        case Crash =>
          assert SelectAwards(body, batch[..i + 1]) == None;
          SelectAwardsPrefix(body, batch, i + 1);
          return None;
        case Skip =>
        case Keep(a) =>
          awards := awards + [a];
      }
    }
    assert batch[..|batch|] == batch;
    r := Some(awards);
  }

  /** Once a prefix of the batch has failed, the whole batch fails. */
  lemma {:induction false} SelectAwardsPrefix(step: Dict -> AwardStep, batch: seq<Dict>, n: nat)
    requires n <= |batch| && SelectAwards(step, batch[..n]).None?
    ensures SelectAwards(step, batch).None?
    decreases |batch| - n
  {
    if n < |batch| {
      assert batch[..n + 1][..n] == batch[..n];
      SelectAwardsPrefix(step, batch, n + 1);
    } else {
      assert batch[..n] == batch;
    }
  }
}
