/** The suggestion finding of the SBIR scraper (app/scraper.py
    `_suggest_tool_types` and `_suggest_focus_areas`) applied to the
    scraper's own tables: the indicators that hold a capital letter never
    fire, and the compound keyword `real-time PCR` loses its `assay`
    suggestion because of it. */
module ScraperTables {
  import opened Text
  import opened ScraperRelevance

  /** The indicators of the tables as written that hold a capital letter
      (`DNA` and `CRISPR` of `genomics`, `16S` of `microbiome`, `PCR` and
      `ELISA` of `assay`) fire for no keyword at all. */
  lemma CapitalIndicatorsAsWritten(keyword: string)
    ensures FocusAreaMappings[0].name == "genomics" && "DNA" in FocusAreaMappings[0].terms && "CRISPR" in FocusAreaMappings[0].terms
    ensures FocusAreaMappings[9].name == "microbiome" && "16S" in FocusAreaMappings[9].terms
    ensures ToolTypeMappings[2].name == "assay" && "PCR" in ToolTypeMappings[2].terms && "ELISA" in ToolTypeMappings[2].terms
    ensures !Fires(keyword, ["DNA", "CRISPR", "16S", "PCR", "ELISA"])
  {
    LowerIsLowered(keyword);
    forall ind | ind in ["DNA", "CRISPR", "16S", "PCR", "ELISA"] ensures !Contains(Lower(keyword), ind) {
      var k := if ind == "16S" then 2 else 0;
      UpperIndicatorNeverFires(keyword, ind, k);
    }
  }

  /** On the tables as written, the compound keyword `real-time PCR`, whose
      only `assay` indicator is the capitalised `PCR`, does not suggest the
      `assay` tool type. */
  lemma RealTimePcrAsWritten()
    ensures "real-time PCR" in CompoundKeywords
    ensures "assay" !in Suggestions(ToolTypeMappings, ["real-time PCR"])
  {
    AssayNotSuggested("real-time PCR");
  }

  /** With the indicators lower-cased, as in the corrected vocabulary
      `Scraper`, `real-time PCR` suggests `assay`. */
  lemma RealTimePcrLowered()
    ensures "assay" in Suggestions(LowerEntries(ToolTypeMappings), ["real-time PCR"])
    ensures "assay" in Suggestions(Scraper.toolTypes, ["real-time PCR"])
  {
    var k := "real-time PCR";
    assert k[10..13] == "PCR";
    ContainsAt(k, "PCR", 10);
    LoweredIndicatorFires(ToolTypeMappings, [k], 2, k, "PCR");
    assert Scraper.toolTypes == LowerEntries(ToolTypeMappings);
  }

  /** A keyword without the letters y, s, d, u, b and w, in either case,
      fires no indicator of `assay` as written: each lower-case indicator
      holds one of those letters and the others hold capitals. */
  lemma AssayIndicatorsMissed(k: string)
    requires forall c :: c in "ysdubwYSDUBW" ==> c !in k
    ensures ToolTypeMappings[2].name == "assay"
    ensures forall ind :: ind in ToolTypeMappings[2].terms ==> !Contains(Lower(k), ind)
  {
    LowerIsLowered(k);
    LoweredExcludesUpper(Lower(k), "PCR", 0);
    LoweredExcludesUpper(Lower(k), "ELISA", 0);
    MissingCharExcludes(k, "assay", 4);
    MissingCharExcludes(k, "testing", 2);
    MissingCharExcludes(k, "diagnostic", 0);
    MissingCharExcludes(k, "immunoassay", 3);
    MissingCharExcludes(k, "biochemical analysis", 0);
    MissingCharExcludes(k, "screening", 0);
    MissingCharExcludes(k, "western blot", 0);
  }

  /** Such a keyword, matched alone, does not suggest `assay` as written. */
  lemma AssayNotSuggested(k: string)
    requires forall c :: c in "ysdubwYSDUBW" ==> c !in k
    ensures "assay" !in Suggestions(ToolTypeMappings, [k])
  {
    AssayIndicatorsMissed(k);
    assert !EntryFires(ToolTypeMappings[2], [k]);
    assert forall e :: e in ToolTypeMappings && e.name == "assay" ==> e == ToolTypeMappings[2];
    SuggestionsMembers(ToolTypeMappings, [k], "assay");
  }
}
