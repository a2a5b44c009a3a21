/** The per-grant scores of the search backend (main.py
    `EnhancedBiotoolsMatcher`): taxonomy alignment, the biotools semantic
    score and the keyword score. All increments are whole numbers, so scores
    are natural numbers here. */
module MatcherScores {
  import opened Options
  import opened Text
  import opened JsonValue
  import opened Taxonomy

  function Min(a: int, b: int): int { if a <= b then a else b }
  function Max(a: int, b: int): int { if a >= b then a else b }

  /** `f"{grant.get('title', '')} {grant.get('description', '')} {grant.get('keywords', '')}"`. */
  function CombinedText(grant: Dict): string
  {
    Render(Get(grant, "title", JStr(""))) + " " +
    Render(Get(grant, "description", JStr(""))) + " " +
    Render(Get(grant, "keywords", JStr("")))
  }

  /** The combined text, lower-cased, as the alignment and semantic scores use it. */
  function GrantText(grant: Dict): string
  {
    Lower(CombinedText(grant))
  }

  /** `pts` for every term of `terms` that occurs in `text`. */
  function TermPoints(terms: seq<string>, text: string, pts: nat): nat
  {
    if terms == [] then 0
    else TermPoints(terms[..|terms| - 1], text, pts) + (if Contains(text, terms[|terms| - 1]) then pts else 0)
  }

  /** The points of one selection: `kwPts` per keyword and `cpPts` per
      lower-cased compound term occurring in `text`; nothing for a name that
      is not in the table. */
  function CategoryPoints(entry: Option<Category>, text: string, kwPts: nat, cpPts: nat): nat
  {
    match entry
    case None => 0
    case Some(c) => TermPoints(c.keywords, text, kwPts) + TermPoints(LowerAll(c.compounds), text, cpPts)
  }

  /** The points of all selections, in order (a selection named twice counts twice). */
  function SelectionPoints(table: seq<Category>, selected: seq<string>, text: string, kwPts: nat, cpPts: nat): nat
  {
    if selected == [] then 0
    else SelectionPoints(table, selected[..|selected| - 1], text, kwPts, cpPts) +
         CategoryPoints(Find(table, selected[|selected| - 1]), text, kwPts, cpPts)
  }

  /** `_calculate_taxonomy_alignment_score` on the lower-cased grant text,
      against the matcher's tool-type and focus-area tables. */
  function AlignmentScore(text: string, toolTypes: seq<string>, focusAreas: seq<string>): nat
  {
    AlignmentWith(ToolTypes, FocusAreas, text, toolTypes, focusAreas)
  }

  /** The alignment score against the tables `tools` and `focus`. */
  function AlignmentWith(tools: seq<Category>, focus: seq<Category>, text: string,
                         toolTypes: seq<string>, focusAreas: seq<string>): nat
  {
    var bonus := if |toolTypes| > 1 && |focusAreas| > 1 then 3 else 0;
    Min(SelectionPoints(tools, toolTypes, text, 2, 4) +
        SelectionPoints(focus, focusAreas, text, 2, 4) + bonus, 20)
  }

  /** Two points per (tool type, focus area) pair with cross-domain relevance. */
  function RowBonus(text: string, toolType: string, focusAreas: seq<string>): nat
  {
    if focusAreas == [] then 0
    else RowBonus(text, toolType, focusAreas[..|focusAreas| - 1]) +
         (if HasCrossDomainRelevance(text, toolType, focusAreas[|focusAreas| - 1]) then 2 else 0)
  }

  function CrossBonus(text: string, toolTypes: seq<string>, focusAreas: seq<string>): nat
  {
    if toolTypes == [] then 0
    else CrossBonus(text, toolTypes[..|toolTypes| - 1], focusAreas) + RowBonus(text, toolTypes[|toolTypes| - 1], focusAreas)
  }

  /** `_calculate_biotools_semantic_score` on the lower-cased grant text (the
      query argument does not take part in the score). */
  function SemanticScore(text: string, toolTypes: seq<string>, focusAreas: seq<string>): nat
  {
    SemanticWith(ToolTypes, FocusAreas, ExcludedTerms(ExcludedDomains), text, toolTypes, focusAreas)
  }

  /** The semantic score against the tables `tools` and `focus` and the
      excluded-domain terms `excluded`. */
  function SemanticWith(tools: seq<Category>, focus: seq<Category>, excluded: seq<string>, text: string,
                        toolTypes: seq<string>, focusAreas: seq<string>): nat
  {
    var raw := SelectionPoints(tools, toolTypes, text, 3, 5) + SelectionPoints(focus, focusAreas, text, 3, 5);
    var penalty := TermPoints(excluded, text, 5);
    Semantic(raw, CrossBonus(text, toolTypes, focusAreas), penalty)
  }

  /** The final step of the semantic score: the cross-domain bonus capped at
      10, the penalty subtracted, the result floored at 0 and capped at 25. */
  function Semantic(raw: nat, cross: nat, penalty: nat): (r: nat)
    ensures r <= 25
    ensures penalty == 0 ==> r >= Min(raw, 25)
    ensures penalty >= raw + 10 ==> r == 0
  {
    Min(Max(0, raw + Min(cross, 10) - penalty), 25)
  }

  /** The inner loop of both scores: `pts` for each term that occurs. */
  method AddTermPoints(terms: seq<string>, text: string, pts: nat) returns (points: nat)
    ensures points == TermPoints(terms, text, pts)
  {
    points := 0;
    var k := 0;
    while k < |terms|
      invariant 0 <= k <= |terms|
      invariant points == TermPoints(terms[..k], text, pts)
    {
      assert terms[..k + 1][..k] == terms[..k];
      if Contains(text, terms[k]) {
        points := points + pts;
      }
      k := k + 1;
    }
    assert terms[..k] == terms;
  }

  /** The loop over one taxonomy's selections. */
  method AddSelectionPoints(table: seq<Category>, selected: seq<string>, text: string, kwPts: nat, cpPts: nat)
    returns (points: nat)
    ensures points == SelectionPoints(table, selected, text, kwPts, cpPts)
  {
    points := 0;
    var i := 0;
    while i < |selected|
      invariant 0 <= i <= |selected|
      invariant points == SelectionPoints(table, selected[..i], text, kwPts, cpPts)
    {
      assert selected[..i + 1][..i] == selected[..i];
      var entry := Find(table, selected[i]);
      if entry.Some? {
        var keywordPoints := AddTermPoints(entry.value.keywords, text, kwPts);
        var compoundPoints := AddTermPoints(LowerAll(entry.value.compounds), text, cpPts);
        points := points + keywordPoints + compoundPoints;
      }
      i := i + 1;
    }
    assert selected[..i] == selected;
  }

  /** `_calculate_taxonomy_alignment_score`. */
  method TaxonomyAlignmentScore(grant: Dict, toolTypes: seq<string>, focusAreas: seq<string>) returns (score: nat)
    ensures score == AlignmentScore(GrantText(grant), toolTypes, focusAreas)
    ensures score <= 20
  {
    score := AlignmentLoops(ToolTypes, FocusAreas, GrantText(grant), toolTypes, focusAreas);
  }

  /** The body of `_calculate_taxonomy_alignment_score` over given tables. */
  method AlignmentLoops(tools: seq<Category>, focus: seq<Category>, text: string,
                        toolTypes: seq<string>, focusAreas: seq<string>) returns (score: nat)
    ensures score == AlignmentWith(tools, focus, text, toolTypes, focusAreas)
    ensures score <= 20
  {
    var toolPoints := AddSelectionPoints(tools, toolTypes, text, 2, 4);
    var focusPoints := AddSelectionPoints(focus, focusAreas, text, 2, 4);
    score := toolPoints + focusPoints;
    if |toolTypes| > 1 && |focusAreas| > 1 {
      score := score + 3;
    }
    score := Min(score, 20);
  }

  /** The nested loop of the cross-domain bonus. */
  method CrossDomainBonus(text: string, toolTypes: seq<string>, focusAreas: seq<string>) returns (bonus: nat)
    ensures bonus == CrossBonus(text, toolTypes, focusAreas)
  {
    bonus := 0;
    var i := 0;
    while i < |toolTypes|
      invariant 0 <= i <= |toolTypes|
      invariant bonus == CrossBonus(text, toolTypes[..i], focusAreas)
    {
      assert toolTypes[..i + 1][..i] == toolTypes[..i];
      var j := 0;
      var row := 0;
      while j < |focusAreas|
        invariant 0 <= j <= |focusAreas|
        invariant row == RowBonus(text, toolTypes[i], focusAreas[..j])
      {
        assert focusAreas[..j + 1][..j] == focusAreas[..j];
        if HasCrossDomainRelevance(text, toolTypes[i], focusAreas[j]) {
          row := row + 2;
        }
        j := j + 1;
      }
      assert focusAreas[..j] == focusAreas;
      bonus := bonus + row;
      i := i + 1;
    }
    assert toolTypes[..i] == toolTypes;
  }

  /** `_calculate_biotools_semantic_score`. */
  method BiotoolsSemanticScore(grant: Dict, toolTypes: seq<string>, focusAreas: seq<string>) returns (score: nat)
    ensures score == SemanticScore(GrantText(grant), toolTypes, focusAreas)
    ensures score <= 25
  {
    score := SemanticLoops(ToolTypes, FocusAreas, ExcludedTerms(ExcludedDomains), GrantText(grant), toolTypes, focusAreas);
  }

  /** The body of `_calculate_biotools_semantic_score` over given tables. */
  method SemanticLoops(tools: seq<Category>, focus: seq<Category>, excluded: seq<string>, text: string,
                       toolTypes: seq<string>, focusAreas: seq<string>) returns (score: nat)
    ensures score == SemanticWith(tools, focus, excluded, text, toolTypes, focusAreas)
    ensures score <= 25
  {
    var toolPoints := AddSelectionPoints(tools, toolTypes, text, 3, 5);
    var focusPoints := AddSelectionPoints(focus, focusAreas, text, 3, 5);
    var crossDomainBonus := CrossDomainBonus(text, toolTypes, focusAreas);
    var penalty := AddTermPoints(excluded, text, 5);
    var raw: int := toolPoints + focusPoints + Min(crossDomainBonus, 10);
    score := Min(Max(0, raw - penalty), 25);
    assert score == Semantic(toolPoints + focusPoints, crossDomainBonus, penalty);
  }

  /** A term that occurs earns its points. */
  lemma {:induction false} TermPointsOfOccurrence(terms: seq<string>, text: string, pts: nat, k: nat)
    requires k < |terms| && Contains(text, terms[k])
    ensures TermPoints(terms, text, pts) >= pts
  {
    if k < |terms| - 1 {
      assert terms[..|terms| - 1][k] == terms[k];
      TermPointsOfOccurrence(terms[..|terms| - 1], text, pts, k);
    }
  }

  /** No term occurs, no points. */
  lemma {:induction false} TermPointsNone(terms: seq<string>, text: string, pts: nat)
    requires !AnyIn(terms, text)
    ensures TermPoints(terms, text, pts) == 0
  {
    if terms != [] {
      assert !AnyIn(terms[..|terms| - 1], text) by {
        forall t | t in terms[..|terms| - 1]
          ensures !Contains(text, t)
        {
          assert t in terms;
        }
      }
      TermPointsNone(terms[..|terms| - 1], text, pts);
    }
  }

  /** A selection whose keyword occurs contributes at least `kwPts`. */
  lemma {:induction false} SelectionPointsOfMatch(table: seq<Category>, selected: seq<string>, text: string,
                                                   kwPts: nat, cpPts: nat, i: nat)
    requires i < |selected| && KnownMatches(table, selected[i], text)
    ensures SelectionPoints(table, selected, text, kwPts, cpPts) >= kwPts
  {
    if i < |selected| - 1 {
      assert selected[..|selected| - 1][i] == selected[i];
      SelectionPointsOfMatch(table, selected[..|selected| - 1], text, kwPts, cpPts, i);
    } else {
      var keywords := Find(table, selected[i]).value.keywords;
      var t :| t in keywords && Contains(text, t);
      var k :| 0 <= k < |keywords| && keywords[k] == t;
      TermPointsOfOccurrence(keywords, text, kwPts, k);
    }
  }

  /** Selections with a matching keyword earn at least `kwPts`. */
  lemma SelectionPointsOfMatches(table: seq<Category>, selected: seq<string>, text: string, kwPts: nat, cpPts: nat)
    requires SelectionMatches(table, selected, text)
    ensures SelectionPoints(table, selected, text, kwPts, cpPts) >= kwPts
  {
    var i :| 0 <= i < |selected| && KnownMatches(table, selected[i], text);
    SelectionPointsOfMatch(table, selected, text, kwPts, cpPts, i);
  }

  /** Selections that are not in the table earn nothing. */
  lemma {:induction false} SelectionPointsUnknown(table: seq<Category>, selected: seq<string>, text: string,
                                                  kwPts: nat, cpPts: nat)
    requires forall i :: 0 <= i < |selected| ==> Find(table, selected[i]).None?
    ensures SelectionPoints(table, selected, text, kwPts, cpPts) == 0
  {
    if selected != [] {
      SelectionPointsUnknown(table, selected[..|selected| - 1], text, kwPts, cpPts);
    }
  }

  /** A grant that passes the relevance gate has an alignment score of at
      least 4: two points for the tool-type keyword and two for the
      focus-area keyword that the gate found. */
  lemma AlignmentOfRelevantGrant(grant: Dict, toolTypes: seq<string>, focusAreas: seq<string>)
    requires BiotoolsRelevant(CombinedText(grant), toolTypes, focusAreas)
    ensures AlignmentScore(GrantText(grant), toolTypes, focusAreas) >= 4
  {
    AlignmentOfMatches(ToolTypes, FocusAreas, GrantText(grant), toolTypes, focusAreas);
  }

  /** Against any tables, a keyword match in both selections earns 4. */
  lemma AlignmentOfMatches(tools: seq<Category>, focus: seq<Category>, text: string,
                           toolTypes: seq<string>, focusAreas: seq<string>)
    requires SelectionMatches(tools, toolTypes, text) && SelectionMatches(focus, focusAreas, text)
    ensures AlignmentWith(tools, focus, text, toolTypes, focusAreas) >= 4
  {
    SelectionPointsOfMatches(tools, toolTypes, text, 2, 4);
    SelectionPointsOfMatches(focus, focusAreas, text, 2, 4);
  }

  /** With no selection known to the taxonomy, alignment is only the
      multiple-selection bonus. */
  lemma AlignmentOfUnknownSelections(text: string, toolTypes: seq<string>, focusAreas: seq<string>)
    requires forall i :: 0 <= i < |toolTypes| ==> Find(ToolTypes, toolTypes[i]).None?
    requires forall i :: 0 <= i < |focusAreas| ==> Find(FocusAreas, focusAreas[i]).None?
    ensures AlignmentScore(text, toolTypes, focusAreas) == if |toolTypes| > 1 && |focusAreas| > 1 then 3 else 0
  {
    AlignmentOfUnknown(ToolTypes, FocusAreas, text, toolTypes, focusAreas);
  }

  lemma AlignmentOfUnknown(tools: seq<Category>, focus: seq<Category>, text: string,
                           toolTypes: seq<string>, focusAreas: seq<string>)
    requires forall i :: 0 <= i < |toolTypes| ==> Find(tools, toolTypes[i]).None?
    requires forall i :: 0 <= i < |focusAreas| ==> Find(focus, focusAreas[i]).None?
    ensures AlignmentWith(tools, focus, text, toolTypes, focusAreas) == if |toolTypes| > 1 && |focusAreas| > 1 then 3 else 0
  {
    SelectionPointsUnknown(tools, toolTypes, text, 2, 4);
    SelectionPointsUnknown(focus, focusAreas, text, 2, 4);
  }

  /** A text that names a selected tool type and a selected focus area and
      no excluded-domain term has a semantic score of at least 6. */
  lemma SemanticOfRelevantText(text: string, toolTypes: seq<string>, focusAreas: seq<string>)
    requires SelectionMatches(ToolTypes, toolTypes, text) && SelectionMatches(FocusAreas, focusAreas, text)
    requires !AnyIn(ExcludedTerms(ExcludedDomains), text)
    ensures SemanticScore(text, toolTypes, focusAreas) >= 6
  {
    SemanticOfCleanMatches(ToolTypes, FocusAreas, ExcludedTerms(ExcludedDomains), text, toolTypes, focusAreas);
  }

  /** Against any tables, keyword matches in both selections and no excluded
      term in the text give a semantic score of at least 6. */
  lemma SemanticOfCleanMatches(tools: seq<Category>, focus: seq<Category>, excluded: seq<string>, text: string,
                               toolTypes: seq<string>, focusAreas: seq<string>)
    requires SelectionMatches(tools, toolTypes, text) && SelectionMatches(focus, focusAreas, text)
    requires !AnyIn(excluded, text)
    ensures SemanticWith(tools, focus, excluded, text, toolTypes, focusAreas) >= 6
  {
    TermPointsNone(excluded, text, 5);
    SemanticOfMatches(tools, focus, excluded, text, toolTypes, focusAreas);
  }

  /** Against any tables, keyword matches in both selections and no excluded
      term give a semantic score of at least 6. */
  lemma SemanticOfMatches(tools: seq<Category>, focus: seq<Category>, excluded: seq<string>, text: string,
                          toolTypes: seq<string>, focusAreas: seq<string>)
    requires SelectionMatches(tools, toolTypes, text) && SelectionMatches(focus, focusAreas, text)
    requires TermPoints(excluded, text, 5) == 0
    ensures SemanticWith(tools, focus, excluded, text, toolTypes, focusAreas) >= 6
  {
    SelectionPointsOfMatches(tools, toolTypes, text, 3, 5);
    SelectionPointsOfMatches(focus, focusAreas, text, 3, 5);
  }
}
