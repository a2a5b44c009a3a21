/** The query builders of the search backend (main.py
    `_create_taxonomy_query` for browse mode and `_expand_biotools_query` for
    text searches). */
module MatcherQuery {
  import opened Options
  import opened Text
  import opened Taxonomy

  /** The first three keywords of each selected, known category, in selection
      order. */
  function HeadKeywords(table: seq<Category>, selected: seq<string>): (r: seq<string>)
    ensures |r| <= 3 * |selected|
  {
    if selected == [] then []
    else
      HeadKeywords(table, selected[..|selected| - 1]) +
      match Find(table, selected[|selected| - 1])
      case None => []
      case Some(c) => Take(c.keywords, 3)
  }

  /** The terms of the browse-mode query before the cut at ten. */
  function TaxonomyQueryTerms(toolTypes: seq<string>, focusAreas: seq<string>): seq<string>
  {
    QueryTermsIn(ToolTypes, FocusAreas, toolTypes, focusAreas)
  }

  /** The browse-mode terms for any pair of tables. */
  function QueryTermsIn(tools: seq<Category>, focus: seq<Category>, toolTypes: seq<string>, focusAreas: seq<string>): seq<string>
  {
    HeadKeywords(tools, toolTypes) + HeadKeywords(focus, focusAreas)
  }

  /** What `_create_taxonomy_query` returns. */
  function TaxonomyQuery(toolTypes: seq<string>, focusAreas: seq<string>): string
  {
    Join(Take(TaxonomyQueryTerms(toolTypes, focusAreas), 10), " ")
  }

  /** The loop over one taxonomy's selections: `query_terms.extend(keywords[:3])`. */
  method ExtendHeadKeywords(table: seq<Category>, selected: seq<string>, terms: seq<string>) returns (r: seq<string>)
    ensures r == terms + HeadKeywords(table, selected)
  {
    r := terms;
    var i := 0;
    while i < |selected|
      invariant 0 <= i <= |selected|
      invariant r == terms + HeadKeywords(table, selected[..i])
    {
      assert selected[..i + 1][..i] == selected[..i];
      var entry := Find(table, selected[i]);
      ghost var head := HeadKeywords(table, selected[..i]);
      if entry.Some? {
        assert HeadKeywords(table, selected[..i + 1]) == head + Take(entry.value.keywords, 3);
        r := r + Take(entry.value.keywords, 3);
      } else {
        assert HeadKeywords(table, selected[..i + 1]) == head + [];
      }
      i := i + 1;
    }
    assert selected[..i] == selected;
  }

  /** `_create_taxonomy_query`. */
  method CreateTaxonomyQuery(toolTypes: seq<string>, focusAreas: seq<string>) returns (query: string)
    ensures query == TaxonomyQuery(toolTypes, focusAreas)
  {
    var terms := CollectQueryTerms(ToolTypes, FocusAreas, toolTypes, focusAreas);
    query := Join(Take(terms, 10), " ");
  }

  /** Both loops of `_create_taxonomy_query`, tool types first. */
  method CollectQueryTerms(tools: seq<Category>, focus: seq<Category>, toolTypes: seq<string>, focusAreas: seq<string>)
    returns (terms: seq<string>)
    ensures terms == QueryTermsIn(tools, focus, toolTypes, focusAreas)
  {
    terms := ExtendHeadKeywords(tools, toolTypes, []);
    terms := ExtendHeadKeywords(focus, focusAreas, terms);
  }

  /** Every term of the browse query is one of the first three keywords of a
      selected, known category. */
  lemma {:induction false} HeadKeywordsFromSelection(table: seq<Category>, selected: seq<string>, t: string)
    requires t in HeadKeywords(table, selected)
    ensures exists i :: 0 <= i < |selected| && Find(table, selected[i]).Some? &&
                        t in Take(Find(table, selected[i]).value.keywords, 3)
  {
    var init := selected[..|selected| - 1];
    if t in HeadKeywords(table, init) {
      HeadKeywordsFromSelection(table, init, t);
      var i :| 0 <= i < |init| && Find(table, init[i]).Some? && t in Take(Find(table, init[i]).value.keywords, 3);
      assert init[i] == selected[i];
    }
  }

  /** The browse query has at most ten terms, each a leading keyword of a
      selected tool type or focus area. */
  lemma TaxonomyQueryTermsFromSelection(toolTypes: seq<string>, focusAreas: seq<string>, t: string)
    requires t in Take(TaxonomyQueryTerms(toolTypes, focusAreas), 10)
    ensures |Take(TaxonomyQueryTerms(toolTypes, focusAreas), 10)| <= 10
    ensures (exists i :: 0 <= i < |toolTypes| && Find(ToolTypes, toolTypes[i]).Some? &&
                         t in Take(Find(ToolTypes, toolTypes[i]).value.keywords, 3)) ||
            (exists i :: 0 <= i < |focusAreas| && Find(FocusAreas, focusAreas[i]).Some? &&
                         t in Take(Find(FocusAreas, focusAreas[i]).value.keywords, 3))
  {
    var terms := TaxonomyQueryTerms(toolTypes, focusAreas);
    assert t in terms;
    if t in HeadKeywords(ToolTypes, toolTypes) {
      HeadKeywordsFromSelection(ToolTypes, toolTypes, t);
    } else {
      HeadKeywordsFromSelection(FocusAreas, focusAreas, t);
    }
  }

  /** `any(word in query.lower() for word in compound.split())`. The compound
      is split without lower-casing, so its upper-case words never match. */
  predicate CompoundRelevant(compound: string, queryLower: string)
  {
    exists w :: w in Split(compound) && Contains(queryLower, w)
  }

  /** The relevant compounds of a category, in table order. */
  function RelevantCompounds(compounds: seq<string>, queryLower: string): (r: seq<string>)
    ensures forall c :: c in r ==> c in compounds && CompoundRelevant(c, queryLower)
  {
    if compounds == [] then []
    else
      var init := RelevantCompounds(compounds[..|compounds| - 1], queryLower);
      var c := compounds[|compounds| - 1];
      if CompoundRelevant(c, queryLower) then init + [c] else init
  }

  /** At most two relevant compounds of each selected, known category. */
  function ExpansionTerms(table: seq<Category>, selected: seq<string>, queryLower: string): (r: seq<string>)
    ensures |r| <= 2 * |selected|
  {
    if selected == [] then []
    else
      ExpansionTerms(table, selected[..|selected| - 1], queryLower) +
      match Find(table, selected[|selected| - 1])
      case None => []
      case Some(c) => Take(RelevantCompounds(c.compounds, queryLower), 2)
  }

  /** What `_expand_biotools_query` returns. */
  function ExpandedQuery(query: string, toolTypes: seq<string>, focusAreas: seq<string>): string
  {
    Join([query] + ExpansionIn(ToolTypes, FocusAreas, toolTypes, focusAreas, Lower(query)), " ")
  }

  /** The expansion terms for any pair of tables, tool types first. */
  function ExpansionIn(tools: seq<Category>, focus: seq<Category>, toolTypes: seq<string>, focusAreas: seq<string>,
                       queryLower: string): (r: seq<string>)
    ensures |r| <= 2 * (|toolTypes| + |focusAreas|)
  {
    ExpansionTerms(tools, toolTypes, queryLower) + ExpansionTerms(focus, focusAreas, queryLower)
  }

  /** The inner loop: `relevant_compounds.append(compound)` for each relevant one. */
  method CollectRelevantCompounds(compounds: seq<string>, queryLower: string) returns (relevant: seq<string>)
    ensures relevant == RelevantCompounds(compounds, queryLower)
  {
    relevant := [];
    var k := 0;
    while k < |compounds|
      invariant 0 <= k <= |compounds|
      invariant relevant == RelevantCompounds(compounds[..k], queryLower)
    {
      assert compounds[..k + 1][..k] == compounds[..k];
      if CompoundRelevant(compounds[k], queryLower) {
        relevant := relevant + [compounds[k]];
      }
      k := k + 1;
    }
    assert compounds[..k] == compounds;
  }

  /** The loop over one taxonomy's selections: `expanded_terms.extend(relevant_compounds[:2])`. */
  method ExtendExpansion(table: seq<Category>, selected: seq<string>, queryLower: string, terms: seq<string>)
    returns (r: seq<string>)
    ensures r == terms + ExpansionTerms(table, selected, queryLower)
  {
    r := terms;
    var i := 0;
    while i < |selected|
      invariant 0 <= i <= |selected|
      invariant r == terms + ExpansionTerms(table, selected[..i], queryLower)
    {
      assert selected[..i + 1][..i] == selected[..i];
      var entry := Find(table, selected[i]);
      if entry.Some? {
        var relevant := CollectRelevantCompounds(entry.value.compounds, queryLower);
        r := r + Take(relevant, 2);
      }
      i := i + 1;
    }
    assert selected[..i] == selected;
  }

  /** `_expand_biotools_query`. */
  method ExpandBiotoolsQuery(query: string, toolTypes: seq<string>, focusAreas: seq<string>) returns (expanded: string)
    ensures expanded == ExpandedQuery(query, toolTypes, focusAreas)
  {
    var terms := CollectExpansion(ToolTypes, FocusAreas, toolTypes, focusAreas, query);
    expanded := Join(terms, " ");
  }

  /** Both loops of `_expand_biotools_query`, after the query itself. */
  method CollectExpansion(tools: seq<Category>, focus: seq<Category>, toolTypes: seq<string>, focusAreas: seq<string>,
                          query: string) returns (terms: seq<string>)
    ensures terms == [query] + ExpansionIn(tools, focus, toolTypes, focusAreas, Lower(query))
  {
    var queryLower := Lower(query);
    terms := ExtendExpansion(tools, toolTypes, queryLower, [query]);
    terms := ExtendExpansion(focus, focusAreas, queryLower, terms);
  }

  /** Every expansion term is a compound of a selected, known category that
      shares a word with the query. */
  lemma {:induction false} ExpansionTermsRelevant(table: seq<Category>, selected: seq<string>, queryLower: string, t: string)
    requires t in ExpansionTerms(table, selected, queryLower)
    ensures CompoundRelevant(t, queryLower)
    ensures exists i :: 0 <= i < |selected| && Find(table, selected[i]).Some? && t in Find(table, selected[i]).value.compounds
  {
    var init := selected[..|selected| - 1];
    if t in ExpansionTerms(table, init, queryLower) {
      ExpansionTermsRelevant(table, init, queryLower, t);
      var i :| 0 <= i < |init| && Find(table, init[i]).Some? && t in Find(table, init[i]).value.compounds;
      assert init[i] == selected[i];
    } else {
      var c := Find(table, selected[|selected| - 1]).value;
      assert t in RelevantCompounds(c.compounds, queryLower);
    }
  }

  /** The expanded query starts with the query itself. */
  lemma ExpandedQueryStartsWithQuery(query: string, toolTypes: seq<string>, focusAreas: seq<string>)
    ensures query <= ExpandedQuery(query, toolTypes, focusAreas)
  {
    JoinStartsWithHead(query, ExpansionIn(ToolTypes, FocusAreas, toolTypes, focusAreas, Lower(query)), " ");
  }
}
