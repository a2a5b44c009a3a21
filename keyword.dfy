/** The keyword score of the search backend (main.py
    `EnhancedBiotoolsMatcher._calculate_biotools_keyword_score`). Points are
    earned for the whole query found in a field and for each query word found
    as a whole word; nothing is kept unless something matched. The regular
    expression `\b<word>\b` is the parameter `wordOccurs`. A Python exception
    (`.lower()` on a value that is not a string) is the result `None`. */
module MatcherKeyword {
  import opened Options
  import opened Text
  import opened JsonValue
  import opened Taxonomy

  /** A grant field as `if grant.get(k): grant[k].lower()` sees it. */
  datatype Field = Absent | Text(s: string) | Fails

  function LowerField(v: Json): (f: Field)
    ensures f.Absent? <==> !Truthy(v)
    ensures f.Text? ==> v.JStr? && f.s == Lower(v.s)
    ensures f.Fails? <==> Truthy(v) && !v.JStr?
  {
    if !Truthy(v) then Absent else if v.JStr? then Text(Lower(v.s)) else Fails
  }

  /** Points earned so far and whether anything matched (`biotools_matches_found`). */
  datatype Tally = Tally(points: nat, matched: bool)

  function Plus(a: Tally, b: Tally): Tally
  {
    Tally(a.points + b.points, a.matched || b.matched)
  }

  /** `[w for w in words if len(w) > 3]`. */
  function LongWords(words: seq<string>): (r: seq<string>)
    ensures forall w :: w in r ==> w in words && |w| > 3
  {
    if words == [] then []
    else
      var init := LongWords(words[..|words| - 1]);
      var w := words[|words| - 1];
      if |w| > 3 then init + [w] else init
  }

  /** The word test of the company field, which has none. */
  predicate NoWordTest(w: string)
  {
    true
  }

  /** A query word that earns points in a field: it passes the field's word
      test (the biotools term test for the grant-text fields) and occurs in
      the field as a whole word. */
  predicate WordHit(w: string, text: string, wordGate: string -> bool, wordOccurs: (string, string) -> bool)
  {
    wordGate(w) && wordOccurs(w, text)
  }

  function WordPoints(words: seq<string>, text: string, pts: nat, wordGate: string -> bool,
                      wordOccurs: (string, string) -> bool): nat
  {
    if words == [] then 0
    else WordPoints(words[..|words| - 1], text, pts, wordGate, wordOccurs) +
         (if WordHit(words[|words| - 1], text, wordGate, wordOccurs) then pts else 0)
  }

  predicate AnyWordHit(words: seq<string>, text: string, wordGate: string -> bool, wordOccurs: (string, string) -> bool)
  {
    exists w :: w in words && WordHit(w, text, wordGate, wordOccurs)
  }

  /** What one field contributes. The whole query earns `phrasePts` when it
      occurs in the field and passes `phraseGate` (phrase relevance for the
      grant-text fields, nothing for the company field). */
  function FieldTally(f: Field, queryLower: string, words: seq<string>, phrasePts: nat, wordPts: nat,
                      phraseGate: bool, wordGate: string -> bool,
                      wordOccurs: (string, string) -> bool): Option<Tally>
  {
    match f
    case Absent => Some(Tally(0, false))
    case Fails => None
    case Text(s) =>
      var phrase := Contains(s, queryLower) && phraseGate;
      Some(Tally((if phrase then phrasePts else 0) + WordPoints(words, s, wordPts, wordGate, wordOccurs),
                 phrase || AnyWordHit(words, s, wordGate, wordOccurs)))
  }

  /** The agency bonus: the first listed agency named in the grant's agency
      whose programs occur in the description earns 3. The description is
      lower-cased for every named agency tried, so a description that is not a
      string (a NULL one included) raises there. */
  function AgencyBonus(agencies: seq<(string, seq<string>)>, agencyLower: string, description: Json): (r: Option<nat>)
    ensures r.Some? ==> r.value == 0 || r.value == 3
  {
    if agencies == [] then Some(0)
    else if Contains(agencyLower, Lower(agencies[0].0)) then
      if !description.JStr? then None
      else if AnyIn(agencies[0].1, Lower(description.s)) then Some(3)
      else AgencyBonus(agencies[1..], agencyLower, description)
    else AgencyBonus(agencies[1..], agencyLower, description)
  }

  /** The query as lower-cased and stripped. */
  function QueryLower(query: string): string
  {
    Strip(Lower(query))
  }

  /** The four field tallies, or `None` when one of them raises. */
  function FieldsTally(queryLower: string, words: seq<string>, grant: Dict, phraseRelevant: bool, termGate: string -> bool,
                       wordOccurs: (string, string) -> bool): Option<Tally>
  {
    var title := FieldTally(LowerField(Get(grant, "title", JNull)), queryLower, words, 25, 12, phraseRelevant, termGate, wordOccurs);
    var keywords := FieldTally(LowerField(Get(grant, "keywords", JNull)), queryLower, words, 10, 6, phraseRelevant, termGate, wordOccurs);
    var description := FieldTally(LowerField(Get(grant, "description", JNull)), queryLower, words, 8, 3, phraseRelevant, termGate, wordOccurs);
    var company := FieldTally(LowerField(Or(Get(grant, "company_name", JNull), Get(grant, "firm", JNull))),
                              queryLower, words, 15, 8, true, NoWordTest, wordOccurs);
    if title.None? || keywords.None? || description.None? || company.None? then None
    else Some(Plus(Plus(Plus(title.value, keywords.value), description.value), company.value))
  }

  /** `_calculate_biotools_keyword_score`. */
  function KeywordScore(query: string, grant: Dict, toolTypes: seq<string>, focusAreas: seq<string>,
                        wordOccurs: (string, string) -> bool): Option<nat>
  {
    QueryScore(query, grant, IsPhraseBiotoolsRelevant(QueryLower(query), toolTypes, focusAreas),
               IsBiotoolsTerm, BiotoolsAgencies, wordOccurs)
  }

  /** The keyword score for a query, given the phrase relevance of the
      lower-cased query, the word test of the grant-text fields and the
      agency table. */
  function QueryScore(query: string, grant: Dict, phraseRelevant: bool, termGate: string -> bool,
                      agencies: seq<(string, seq<string>)>, wordOccurs: (string, string) -> bool): Option<nat>
  {
    if Strip(query) == [] then Some(0)
    else
      var queryLower := QueryLower(query);
      WordsScore(queryLower, LongWords(Split(queryLower)), grant, phraseRelevant, termGate, agencies, wordOccurs)
  }

  /** The keyword score once the query words are known: the field tallies,
      then, after a match, the agency bonus. */
  function WordsScore(queryLower: string, words: seq<string>, grant: Dict, phraseRelevant: bool, termGate: string -> bool,
                      agencies: seq<(string, seq<string>)>, wordOccurs: (string, string) -> bool): Option<nat>
  {
    if words == [] then Some(0)
    else
      var tally := FieldsTally(queryLower, words, grant, phraseRelevant, termGate, wordOccurs);
      if tally.None? then None else Finish(tally.value, grant, agencies)
  }

  /** The end of the keyword score: 0 without a match, else the points plus
      the agency bonus when the grant names an agency. */
  function Finish(t: Tally, grant: Dict, agencies: seq<(string, seq<string>)>): Option<nat>
  {
    if !t.matched then Some(0)
    else
      match LowerField(Get(grant, "agency", JNull))
      case Absent => Some(t.points)
      case Fails => None
      case Text(agencyLower) =>
        match AgencyBonus(agencies, agencyLower, Get(grant, "description", JStr("")))
        case None => None
        case Some(b) => Some(t.points + b)
  }

  /** One field of the keyword score: the phrase test, then the loop over the
      query words. */
  method ScoreField(f: Field, queryLower: string, words: seq<string>, phrasePts: nat, wordPts: nat,
                    phraseGate: bool, wordGate: string -> bool,
                    wordOccurs: (string, string) -> bool) returns (r: Option<Tally>)
    ensures r == FieldTally(f, queryLower, words, phrasePts, wordPts, phraseGate, wordGate, wordOccurs)
  {
    match f
    case Absent => return Some(Tally(0, false));
    case Fails => return None;
    case Text(s) =>
      var score: nat := 0;
      var matched := false;
      if Contains(s, queryLower) && phraseGate {
        score := phrasePts;
        matched := true;
      }
      var phraseScore := score;
      var phraseMatched := matched;
      var k := 0;
      while k < |words|
        invariant 0 <= k <= |words|
        invariant score == phraseScore + WordPoints(words[..k], s, wordPts, wordGate, wordOccurs)
        invariant matched == (phraseMatched || AnyWordHit(words[..k], s, wordGate, wordOccurs))
      {
        assert words[..k + 1][..k] == words[..k];
        assert forall w :: w in words[..k + 1] <==> w in words[..k] || w == words[k];
        if wordGate(words[k]) && wordOccurs(words[k], s) {
          score := score + wordPts;
          matched := true;
        }
        k := k + 1;
      }
      assert words[..k] == words;
      return Some(Tally(score, matched));
  }

  /** The agency loop: the first named agency whose programs occur in the
      description earns 3 and ends the loop. */
  method ScoreAgency(agencies: seq<(string, seq<string>)>, agencyLower: string, description: Json) returns (r: Option<nat>)
    ensures r == AgencyBonus(agencies, agencyLower, description)
  {
    var i := 0;
    while i < |agencies|
      invariant 0 <= i <= |agencies|
      invariant AgencyBonus(agencies, agencyLower, description) == AgencyBonus(agencies[i..], agencyLower, description)
    {
      if Contains(agencyLower, Lower(agencies[i].0)) {
        if !description.JStr? {
          return None;
        }
        if AnyIn(agencies[i].1, Lower(description.s)) {
          return Some(3);
        }
      }
      assert agencies[i..][1..] == agencies[i + 1..];
      i := i + 1;
    }
    return Some(0);
  }

  /** `_calculate_biotools_keyword_score`, step by step. */
  method KeywordScoreOf(query: string, grant: Dict, toolTypes: seq<string>, focusAreas: seq<string>,
                        wordOccurs: (string, string) -> bool) returns (r: Option<nat>)
    ensures r == KeywordScore(query, grant, toolTypes, focusAreas, wordOccurs)
  {
    var phraseRelevant := IsPhraseBiotoolsRelevant(QueryLower(query), toolTypes, focusAreas);
    r := ScoreQuery(query, grant, phraseRelevant, IsBiotoolsTerm, BiotoolsAgencies, wordOccurs);
  }

  /** The steps of the keyword score: the empty-query test, the query words,
      the field blocks and the agency bonus. */
  method ScoreQuery(query: string, grant: Dict, phraseRelevant: bool, termGate: string -> bool,
                    agencies: seq<(string, seq<string>)>, wordOccurs: (string, string) -> bool) returns (r: Option<nat>)
    ensures r == QueryScore(query, grant, phraseRelevant, termGate, agencies, wordOccurs)
  {
    if Strip(query) == [] {
      return Some(0);
    }
    var queryLower := QueryLower(query);
    var words := QueryWords(Split(queryLower));
    r := ScoreWords(queryLower, words, grant, phraseRelevant, termGate, agencies, wordOccurs);
  }

  /** `[w.strip() for w in query_lower.split() if len(w.strip()) > 3]`. */
  method QueryWords(split: seq<string>) returns (words: seq<string>)
    ensures words == LongWords(split)
  {
    words := [];
    var i := 0;
    while i < |split|
      invariant 0 <= i <= |split|
      invariant words == LongWords(split[..i])
    {
      assert split[..i + 1][..i] == split[..i];
      if |split[i]| > 3 {
        words := words + [split[i]];
      }
      i := i + 1;
    }
    assert split[..i] == split;
  }

  /** The field blocks and the agency bonus. */
  method ScoreWords(queryLower: string, words: seq<string>, grant: Dict, phraseRelevant: bool, termGate: string -> bool,
                    agencies: seq<(string, seq<string>)>, wordOccurs: (string, string) -> bool) returns (r: Option<nat>)
    ensures r == WordsScore(queryLower, words, grant, phraseRelevant, termGate, agencies, wordOccurs)
  {
    if words == [] {
      return Some(0);
    }
    var t := ScoreFields(queryLower, words, grant, phraseRelevant, termGate, wordOccurs);
    if t.None? {
      return None;
    }
    r := FinishScore(t.value, grant, agencies);
  }

  /** The final `return score if biotools_matches_found else 0.0`, with the
      agency bonus added first after a match. */
  method FinishScore(t: Tally, grant: Dict, agencies: seq<(string, seq<string>)>) returns (r: Option<nat>)
    ensures r == Finish(t, grant, agencies)
  {
    if !t.matched {
      return Some(0);
    }
    match LowerField(Get(grant, "agency", JNull))
    case Absent => return Some(t.points);
    case Fails => return None;
    case Text(agencyLower) =>
      var bonus := ScoreAgency(agencies, agencyLower, Get(grant, "description", JStr("")));
      if bonus.None? { return None; }
      return Some(t.points + bonus.value);
  }

  /** The title, keywords, description and company blocks, in that order; the
      first that raises ends the score. */
  method ScoreFields(queryLower: string, words: seq<string>, grant: Dict, phraseRelevant: bool, termGate: string -> bool,
                     wordOccurs: (string, string) -> bool) returns (r: Option<Tally>)
    ensures r == FieldsTally(queryLower, words, grant, phraseRelevant, termGate, wordOccurs)
  {
    var title := ScoreField(LowerField(Get(grant, "title", JNull)), queryLower, words, 25, 12, phraseRelevant, termGate, wordOccurs);
    if title.None? { return None; }
    var keywords := ScoreField(LowerField(Get(grant, "keywords", JNull)), queryLower, words, 10, 6, phraseRelevant, termGate, wordOccurs);
    if keywords.None? { return None; }
    var description := ScoreField(LowerField(Get(grant, "description", JNull)), queryLower, words, 8, 3, phraseRelevant, termGate, wordOccurs);
    if description.None? { return None; }
    var company := ScoreField(LowerField(Or(Get(grant, "company_name", JNull), Get(grant, "firm", JNull))),
                              queryLower, words, 15, 8, true, NoWordTest, wordOccurs);
    if company.None? { return None; }
    return Some(Plus(Plus(Plus(title.value, keywords.value), description.value), company.value));
  }

  /** A word that earns points earns at least `pts`. */
  lemma {:induction false} WordPointsOfHit(words: seq<string>, text: string, pts: nat, wordGate: string -> bool,
                                           wordOccurs: (string, string) -> bool)
    requires AnyWordHit(words, text, wordGate, wordOccurs)
    ensures WordPoints(words, text, pts, wordGate, wordOccurs) >= pts
  {
    var last := words[|words| - 1];
    if !WordHit(last, text, wordGate, wordOccurs) {
      var w :| w in words && WordHit(w, text, wordGate, wordOccurs);
      assert w in words[..|words| - 1] by {
        var k :| 0 <= k < |words| && words[k] == w;
        assert k != |words| - 1;
        assert words[..|words| - 1][k] == w;
      }
      WordPointsOfHit(words[..|words| - 1], text, pts, wordGate, wordOccurs);
    }
  }

  /** A field that matched earned at least the smaller of its two increments. */
  lemma FieldTallyOfMatch(f: Field, queryLower: string, words: seq<string>, phrasePts: nat, wordPts: nat,
                          phraseGate: bool, wordGate: string -> bool, wordOccurs: (string, string) -> bool)
    requires FieldTally(f, queryLower, words, phrasePts, wordPts, phraseGate, wordGate, wordOccurs).Some?
    ensures var t := FieldTally(f, queryLower, words, phrasePts, wordPts, phraseGate, wordGate, wordOccurs).value;
            t.matched ==> t.points >= Min(phrasePts, wordPts)
  {
    if f.Text? && AnyWordHit(words, f.s, wordGate, wordOccurs) {
      WordPointsOfHit(words, f.s, wordPts, wordGate, wordOccurs);
    }
  }

  function Min(a: nat, b: nat): nat { if a <= b then a else b }

  /** All four fields together: a match means at least 3 points. */
  lemma FieldsTallyOfMatch(queryLower: string, words: seq<string>, grant: Dict, phraseRelevant: bool, termGate: string -> bool,
                           wordOccurs: (string, string) -> bool)
    requires FieldsTally(queryLower, words, grant, phraseRelevant, termGate, wordOccurs).Some?
    ensures var t := FieldsTally(queryLower, words, grant, phraseRelevant, termGate, wordOccurs).value;
            t.matched ==> t.points >= 3
  {
    FieldTallyOfMatch(LowerField(Get(grant, "title", JNull)), queryLower, words, 25, 12, phraseRelevant, termGate, wordOccurs);
    FieldTallyOfMatch(LowerField(Get(grant, "keywords", JNull)), queryLower, words, 10, 6, phraseRelevant, termGate, wordOccurs);
    FieldTallyOfMatch(LowerField(Get(grant, "description", JNull)), queryLower, words, 8, 3, phraseRelevant, termGate, wordOccurs);
    FieldTallyOfMatch(LowerField(Or(Get(grant, "company_name", JNull), Get(grant, "firm", JNull))),
                      queryLower, words, 15, 8, true, NoWordTest, wordOccurs);
  }

  /** Without a match there are no points: a positive score is at least 3,
      the smallest increment, so the agency bonus never stands alone. */
  lemma WordsScoreNeedsMatch(queryLower: string, words: seq<string>, grant: Dict, phraseRelevant: bool, termGate: string -> bool,
                             agencies: seq<(string, seq<string>)>, wordOccurs: (string, string) -> bool)
    requires WordsScore(queryLower, words, grant, phraseRelevant, termGate, agencies, wordOccurs).Some?
    ensures var n := WordsScore(queryLower, words, grant, phraseRelevant, termGate, agencies, wordOccurs).value; n == 0 || n >= 3
  {
    if words != [] {
      FieldsTallyOfMatch(queryLower, words, grant, phraseRelevant, termGate, wordOccurs);
    }
  }

  /** The keyword score is 0 or at least 3. */
  lemma KeywordScoreNeedsMatch(query: string, grant: Dict, toolTypes: seq<string>, focusAreas: seq<string>,
                               wordOccurs: (string, string) -> bool)
    requires KeywordScore(query, grant, toolTypes, focusAreas, wordOccurs).Some?
    ensures var n := KeywordScore(query, grant, toolTypes, focusAreas, wordOccurs).value; n == 0 || n >= 3
  {
    QueryScoreNeedsMatch(query, grant, IsPhraseBiotoolsRelevant(QueryLower(query), toolTypes, focusAreas),
                         IsBiotoolsTerm, BiotoolsAgencies, wordOccurs);
  }

  lemma QueryScoreNeedsMatch(query: string, grant: Dict, phraseRelevant: bool, termGate: string -> bool,
                             agencies: seq<(string, seq<string>)>, wordOccurs: (string, string) -> bool)
    requires QueryScore(query, grant, phraseRelevant, termGate, agencies, wordOccurs).Some?
    ensures var n := QueryScore(query, grant, phraseRelevant, termGate, agencies, wordOccurs).value; n == 0 || n >= 3
  {
    if Strip(query) != [] {
      var queryLower := QueryLower(query);
      WordsScoreNeedsMatch(queryLower, LongWords(Split(queryLower)), grant, phraseRelevant, termGate, agencies, wordOccurs);
    }
  }

  /** No long word, no score. */
  lemma {:induction false} LongWordsNone(words: seq<string>)
    requires forall k :: 0 <= k < |words| ==> |words[k]| <= 3
    ensures LongWords(words) == []
  {
    if words != [] {
      LongWordsNone(words[..|words| - 1]);
    }
  }

  /** A query whose words all have at most three characters scores 0. */
  lemma KeywordScoreOfShortWords(query: string, grant: Dict, toolTypes: seq<string>, focusAreas: seq<string>,
                                 wordOccurs: (string, string) -> bool)
    requires forall k :: 0 <= k < |Split(QueryLower(query))| ==> |Split(QueryLower(query))[k]| <= 3
    ensures KeywordScore(query, grant, toolTypes, focusAreas, wordOccurs) == Some(0)
  {
    QueryScoreOfShortWords(query, grant, IsPhraseBiotoolsRelevant(QueryLower(query), toolTypes, focusAreas),
                           IsBiotoolsTerm, BiotoolsAgencies, wordOccurs);
  }

  lemma QueryScoreOfShortWords(query: string, grant: Dict, phraseRelevant: bool, termGate: string -> bool,
                               agencies: seq<(string, seq<string>)>, wordOccurs: (string, string) -> bool)
    requires forall k :: 0 <= k < |Split(QueryLower(query))| ==> |Split(QueryLower(query))[k]| <= 3
    ensures QueryScore(query, grant, phraseRelevant, termGate, agencies, wordOccurs) == Some(0)
  {
    LongWordsNone(Split(QueryLower(query)));
  }

  /** A title that is truthy but not a string makes the score raise. */
  lemma TitleNotStringRaises(queryLower: string, words: seq<string>, grant: Dict, phraseRelevant: bool, termGate: string -> bool,
                             agencies: seq<(string, seq<string>)>, wordOccurs: (string, string) -> bool)
    requires words != []
    requires "title" in grant && Truthy(grant["title"]) && !grant["title"].JStr?
    ensures WordsScore(queryLower, words, grant, phraseRelevant, termGate, agencies, wordOccurs) == None
  {
    assert LowerField(Get(grant, "title", JNull)).Fails?;
  }

  /** A grant whose agency names NIH and whose description is NULL makes the
      agency bonus raise. */
  lemma NullDescriptionRaises(agencyLower: string)
    requires Contains(agencyLower, "nih")
    ensures AgencyBonus(BiotoolsAgencies, agencyLower, JNull) == None
  {
    assert Lower("NIH") == "nih";
  }
}
