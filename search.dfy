/** Record typing, result filters and the scoring loop of the search backend
    (main.py `EnhancedBiotoolsMatcher._determine_data_type`, `_apply_filters`
    and `search_grants`). The grants table is passed in as a list of rows;
    the clock-dependent freshness score, the TF-IDF score, `round(x, 2)` and
    the ISO deadline arithmetic are parameters. */
module MatcherSearch {
  import opened Options
  import opened Text
  import opened JsonValue
  import opened Taxonomy
  import opened MatcherTerms
  import opened MatcherKeyword
  import opened MatcherScores
  import opened MatcherQuery
  import opened Sorting

  // ---------------------------------------------------------------- data type

  /** Signs of an open call: a solicitation number, an open or active status,
      or a close date. */
  predicate LooksLikeSolicitation(record: Dict)
  {
    Truthy(Get(record, "solicitation_number", JNull)) ||
    Get(record, "current_status", JNull) in [JStr("open"), JStr("active")] ||
    Truthy(Get(record, "close_date", JNull))
  }

  /** `_determine_data_type`. */
  function DataType(record: Dict): Json
  {
    if Truthy(Get(record, "grant_type", JNull)) then record["grant_type"]
    else if LooksLikeSolicitation(record) then JStr("solicitation")
    else JStr("award")
  }

  /** The fixed order of `_determine_data_type`: a non-empty `grant_type` is
      returned unchanged; otherwise the record is a solicitation exactly when
      one of the signs is present, and an award when none is. */
  lemma DataTypeOrder(record: Dict)
    ensures Truthy(Get(record, "grant_type", JNull)) ==> DataType(record) == record["grant_type"]
    ensures !Truthy(Get(record, "grant_type", JNull)) ==>
      (DataType(record) == JStr("solicitation") <==> LooksLikeSolicitation(record)) &&
      (DataType(record) == JStr("award") <==> !LooksLikeSolicitation(record))
  {
  }

  /** Without a `grant_type`, a record with a close date is a solicitation,
      whatever else it holds. */
  lemma CloseDateMeansSolicitation(record: Dict)
    requires !Truthy(Get(record, "grant_type", JNull))
    requires "close_date" in record && Truthy(record["close_date"])
    ensures DataType(record) == JStr("solicitation")
  {
  }

  // ------------------------------------------------------------ selections

  /** A selection as the matcher iterates it: a list gives its elements (a
      string element is a category name; another hashable element is never a
      key, and stands as the empty name, which no category has; a list or
      dict element raises), a string
      gives its characters, and any other value raises (`None`). */
  function Selection(v: Json): (r: Option<seq<string>>)
    ensures v.JStr? ==> r.Some? && |r.value| == |v.s|
    ensures v.JList? && r.Some? ==> |r.value| == |v.items|
  {
    match v
    case JList(items) => SelectionItems(items)
    case JStr(s) => Some(seq(|s|, i requires 0 <= i < |s| => [s[i]]))
    case _ => None
  }

  function SelectionItems(items: seq<Json>): (r: Option<seq<string>>)
    ensures r.Some? ==> |r.value| == |items|
    ensures r.Some? ==> forall k :: 0 <= k < |items| && items[k].JStr? ==> r.value[k] == items[k].s
  {
    if items == [] then Some([])
    else
      var init := SelectionItems(items[..|items| - 1]);
      var last := items[|items| - 1];
      if init.None? || last.JList? || last.JObject? then None
      else Some(init.value + [if last.JStr? then last.s else ""])
  }

  // --------------------------------------------------------------- matcher

  /** The members of the matcher (`self`) that the filters and the search
      loop call: the "tool type AND focus area" gate, the keyword, alignment
      and semantic scores, the term extraction and the two query builders. */
  datatype Matcher = Matcher(
    relevant: (string, seq<string>, seq<string>) -> bool,
    keywordScore: (string, Dict, seq<string>, seq<string>, (string, string) -> bool) -> Option<nat>,
    alignment: (string, seq<string>, seq<string>) -> nat,
    semantic: (string, seq<string>, seq<string>) -> nat,
    terms: string -> seq<string>,
    taxonomyQuery: (seq<string>, seq<string>) -> string,
    expandedQuery: (string, seq<string>, seq<string>) -> string)

  /** `EnhancedBiotoolsMatcher` with its taxonomy. */
  const BiotoolsMatcher: Matcher :=
    Matcher(BiotoolsRelevant, KeywordScore, AlignmentScore, SemanticScore, BiotoolsTerms,
            TaxonomyQuery, ExpandedQuery)

  // --------------------------------------------------------------- filters

  /** The agency filter: `None` where `.lower()` raises on a non-string. */
  function AgencyCheck(grant: Dict, filters: Dict): Option<bool>
  {
    var want := Get(filters, "agency", JNull);
    var have := Get(grant, "agency", JNull);
    if !(Truthy(want) && Truthy(have)) then Some(true)
    else if !want.JStr? || !have.JStr? then None
    else Some(Contains(Lower(have.s), Lower(want.s)))
  }

  /** `grant.get('amount_max') or grant.get('award_amount') or grant.get('amount') or 0`. */
  function GrantAmount(grant: Dict): Json
  {
    FirstTruthy(grant, ["amount_max", "award_amount", "amount"], JInt(0))
  }

  /** The minimum-amount filter; its `ValueError` and `TypeError` are caught,
      and then the grant is kept. */
  predicate AmountCheck(grant: Dict, filters: Dict)
  {
    var want := Get(filters, "amount_min", JNull);
    if !Truthy(want) then true
    else match (ToFloat(want), NumberOf(GrantAmount(grant)))
      case (Some(m), Some(a)) => a >= m
      case _ => true
  }

  /** The deadline filter. `daysUntil` is the number of days from now to an
      ISO date, or `None` where parsing or the date arithmetic raises
      `ValueError` or `TypeError`; a deadline that is not a string raises an
      uncaught `AttributeError`. */
  function DeadlineCheck(grant: Dict, filters: Dict, daysUntil: string -> Option<int>): Option<bool>
  {
    var want := Get(filters, "deadline", JNull);
    if !Truthy(want) then Some(true)
    else match ToInt(want)
      case None => Some(true)
      case Some(days) =>
        var field := Or(Get(grant, "deadline", JNull), Get(grant, "close_date", JNull));
        if !Truthy(field) then Some(true)
        else if !field.JStr? then None
        else match daysUntil(field.s)
          case None => Some(true)
          case Some(left) => Some(left <= days)
  }

  /** The biotools filter: the grant text must pass the relevance gate for
      the selections held in the filters. */
  function BiotoolsCheck(m: Matcher, grant: Dict, filters: Dict): Option<bool>
  {
    if !Truthy(Get(filters, "biotools_validated", JBool(false))) then Some(true)
    else match (Selection(Get(filters, "tool_types", JList([]))), Selection(Get(filters, "focus_areas", JList([]))))
      case (Some(tt), Some(fa)) => Some(m.relevant(CombinedText(grant), tt, fa))
      case _ => None
  }

  /** The four checks of `_apply_filters` in order; the first that rejects
      ends them, and one that raises ends the whole search. */
  function Passes(m: Matcher, grant: Dict, filters: Dict, daysUntil: string -> Option<int>): Option<bool>
  {
    match AgencyCheck(grant, filters)
    case None => None
    case Some(false) => Some(false)
    case Some(true) =>
      if !AmountCheck(grant, filters) then Some(false)
      else match DeadlineCheck(grant, filters, daysUntil)
        case None => None
        case Some(false) => Some(false)
        case Some(true) => BiotoolsCheck(m, grant, filters)
  }

  /** The grants that pass, in order, or `None` once a check raises. */
  function FilterGrants(m: Matcher, grants: seq<Dict>, filters: Dict, daysUntil: string -> Option<int>): (r: Option<seq<Dict>>)
    ensures r.Some? ==> IsSubsequence(r.value, grants) && |r.value| <= |grants|
    ensures r.Some? ==> forall g :: g in r.value ==> Passes(m, g, filters, daysUntil) == Some(true)
  {
    if grants == [] then Some([])
    else
      var init := FilterGrants(m, grants[..|grants| - 1], filters, daysUntil);
      var g := grants[|grants| - 1];
      if init.None? then None
      else match Passes(m, g, filters, daysUntil)
        case None => None
        case Some(keep) =>
          if keep then
            assert (init.value + [g])[..|init.value|] == init.value;
            Some(init.value + [g])
          else
            Some(init.value)
  }

  /** What `_apply_filters` returns. */
  function ApplyFiltersResult(m: Matcher, grants: seq<Dict>, filters: Dict, daysUntil: string -> Option<int>): (r: Option<seq<Dict>>)
    ensures r.Some? ==> |r.value| <= |grants|
  {
    if filters == map[] then Some(grants) else FilterGrants(m, grants, filters, daysUntil)
  }

  /** A grant that passes the filters, or any grant when there are none,
      survives `_apply_filters`. */
  lemma ApplyFiltersKeeps(m: Matcher, grants: seq<Dict>, filters: Dict, daysUntil: string -> Option<int>, g: Dict)
    requires ApplyFiltersResult(m, grants, filters, daysUntil).Some?
    requires g in grants && (filters == map[] || Passes(m, g, filters, daysUntil) == Some(true))
    ensures g in ApplyFiltersResult(m, grants, filters, daysUntil).value
  {
    if filters != map[] {
      FilterGrantsComplete(m, grants, filters, daysUntil, g);
    }
  }

  /** `_apply_filters`. */
  method ApplyFilters(m: Matcher, grants: seq<Dict>, filters: Dict, daysUntil: string -> Option<int>) returns (r: Option<seq<Dict>>)
    ensures r == ApplyFiltersResult(m, grants, filters, daysUntil)
    ensures filters == map[] ==> r == Some(grants)
  {
    if filters == map[] {
      return Some(grants);
    }
    var filtered: seq<Dict> := [];
    var i := 0;
    while i < |grants|
      invariant 0 <= i <= |grants|
      invariant FilterGrants(m, grants[..i], filters, daysUntil) == Some(filtered)
    {
      assert grants[..i + 1][..i] == grants[..i];
      var keep := Passes(m, grants[i], filters, daysUntil);
      if keep.None? {
        FilterRaisedStays(m, grants, filters, daysUntil, i + 1);
        assert grants[..|grants|] == grants;
        return None;
      }
      if keep.value {
        filtered := filtered + [grants[i]];
      }
      i := i + 1;
    }
    assert grants[..i] == grants;
    r := Some(filtered);
  }

  /** Once a check raises on a prefix, the whole list raises. */
  lemma {:induction false} FilterRaisedStays(m: Matcher, grants: seq<Dict>, filters: Dict, daysUntil: string -> Option<int>, n: nat)
    requires n <= |grants| && FilterGrants(m, grants[..n], filters, daysUntil).None?
    ensures FilterGrants(m, grants, filters, daysUntil).None?
    decreases |grants| - n
  {
    if n < |grants| {
      assert grants[..n + 1][..n] == grants[..n];
      FilterRaisedStays(m, grants, filters, daysUntil, n + 1);
    } else {
      assert grants[..n] == grants;
    }
  }

  /** Every grant that passes the checks is kept: with the ensures of
      `FilterGrants`, the output is exactly the passing grants, in order. */
  lemma {:induction false} FilterGrantsComplete(m: Matcher, grants: seq<Dict>, filters: Dict, daysUntil: string -> Option<int>, g: Dict)
    requires FilterGrants(m, grants, filters, daysUntil).Some?
    requires g in grants && Passes(m, g, filters, daysUntil) == Some(true)
    ensures g in FilterGrants(m, grants, filters, daysUntil).value
  {
    var init := grants[..|grants| - 1];
    if g != grants[|grants| - 1] {
      var k :| 0 <= k < |grants| && grants[k] == g;
      assert init[k] == g;
      FilterGrantsComplete(m, init, filters, daysUntil, g);
    }
  }

  /** A kept grant satisfies the agency filter (the requested agency, lower-
      cased, occurs in its agency) and the minimum-amount filter. */
  lemma KeptGrantMeetsFilters(m: Matcher, grants: seq<Dict>, filters: Dict, daysUntil: string -> Option<int>, g: Dict)
    requires FilterGrants(m, grants, filters, daysUntil).Some? && g in FilterGrants(m, grants, filters, daysUntil).value
    ensures var want := Get(filters, "agency", JNull);
            Truthy(want) && "agency" in g && Truthy(g["agency"]) ==>
              want.JStr? && g["agency"].JStr? && Contains(Lower(g["agency"].s), Lower(want.s))
    ensures Truthy(Get(filters, "amount_min", JNull)) &&
            ToFloat(filters["amount_min"]).Some? && NumberOf(GrantAmount(g)).Some? ==>
              NumberOf(GrantAmount(g)).value >= ToFloat(filters["amount_min"]).value
  {
    assert Passes(m, g, filters, daysUntil) == Some(true);
  }

  // ---------------------------------------------------------------- search

  /** What the grants table gives the search loop, and what the loop calls
      that the model does not compute: the freshness score of a grant (it
      reads the clock), the TF-IDF score of the query terms in a text (it
      uses logarithms), `round(x, 2)`, the `\b` word test and the deadline
      arithmetic. */
  datatype Env = Env(
    freshness: Dict -> real,
    tfIdf: (seq<string>, string) -> real,
    round2: real -> real,
    wordOccurs: (string, string) -> bool,
    daysUntil: string -> Option<int>)

  /** The browse-mode and search-mode weighted scores, or `None` when the
      keyword score raises. */
  function FinalScore(m: Matcher, grant: Dict, expanded: string, tt: seq<string>, fa: seq<string>,
                      browse: bool, env: Env): Option<real>
  {
    match m.keywordScore(expanded, grant, tt, fa, env.wordOccurs)
    case None => None
    case Some(keyword) =>
      if browse then
        Some(m.alignment(GrantText(grant), tt, fa) as real * 0.60 + keyword as real * 0.30 + env.freshness(grant) * 0.10)
      else
        Some(env.tfIdf(m.terms(Lower(expanded)), CombinedText(grant)) * 0.20 +
             m.semantic(GrantText(grant), tt, fa) as real * 0.45 +
             keyword as real * 0.30 + env.freshness(grant) * 0.05)
  }

  /** `2.0` in browse mode, `3.0` for a text search. */
  function Threshold(browse: bool): real
  {
    if browse then 2.0 else 3.0
  }

  /** The early data-type filter of the loop (`filters['data_type']`). */
  predicate DataTypeKeeps(grant: Dict, dataType: Json)
  {
    if dataType == JStr("awards") then DataType(grant) == JStr("award")
    else if dataType == JStr("solicitations") then DataType(grant) == JStr("solicitation")
    else if dataType == JStr("companies") then Truthy(Or(Get(grant, "company_name", JNull), Get(grant, "firm", JNull)))
    else true
  }

  /** The grant row with the three fields the loop adds. */
  function Annotated(grant: Dict, score: real, browse: bool): Dict
  {
    grant["relevance_score" := JFloat(score)]
         ["inferred_type" := DataType(grant)]
         ["search_mode" := JStr(if browse then "browse" else "search")]
  }

  /** The outcome of the loop body for one grant. */
  datatype Step = Dropped | Kept(row: Dict) | Raised

  /** The loop body: the data-type filter, the relevance gate, the weighted
      score and the threshold. */
  function ScoreStep(m: Matcher, grant: Dict, dataType: Json, expanded: string, tt: seq<string>, fa: seq<string>,
                     browse: bool, env: Env): Step
  {
    if !DataTypeKeeps(grant, dataType) || !m.relevant(CombinedText(grant), tt, fa) then Dropped
    else match FinalScore(m, grant, expanded, tt, fa, browse, env)
      case None => Raised
      case Some(x) => if x > Threshold(browse) then Kept(Annotated(grant, env.round2(x), browse)) else Dropped
  }

  /** The loop body as a function of the grant alone. */
  function StepOf(m: Matcher, dataType: Json, expanded: string, tt: seq<string>, fa: seq<string>,
                  browse: bool, env: Env): Dict -> Step
  {
    g => ScoreStep(m, g, dataType, expanded, tt, fa, browse, env)
  }

  /** The scored grants of the loop, in table order, or `None` once a score
      raises. */
  function ScoredGrants(grants: seq<Dict>, step: Dict -> Step): (r: Option<seq<Dict>>)
    ensures r.Some? ==> |r.value| <= |grants|
    ensures r.Some? ==> forall row :: row in r.value ==> exists g :: g in grants && step(g) == Kept(row)
  {
    if grants == [] then Some([])
    else
      var init := ScoredGrants(grants[..|grants| - 1], step);
      var g := grants[|grants| - 1];
      if init.None? then None
      else match step(g)
        case Raised => None
        case Dropped => Some(init.value)
        case Kept(row) => Some(init.value + [row])
  }

  /** The loop over two stretches of rows gives the rows of the first stretch
      followed by those of the second: the scored grants keep table order. */
  lemma {:induction false} ScoredGrantsAppend(a: seq<Dict>, b: seq<Dict>, step: Dict -> Step)
    requires ScoredGrants(a + b, step).Some?
    ensures ScoredGrants(a, step).Some? && ScoredGrants(b, step).Some?
    ensures ScoredGrants(a + b, step).value == ScoredGrants(a, step).value + ScoredGrants(b, step).value
    decreases |b|
  {
    if b == [] {
      assert a + b == a;
    } else {
      var init := b[..|b| - 1];
      assert (a + b)[..|a + b| - 1] == a + init;
      assert (a + b)[|a + b| - 1] == b[|b| - 1];
      ScoredGrantsAppend(a, init, step);
    }
  }

  /** Every grant the loop body keeps contributes its row. */
  lemma {:induction false} ScoredGrantsComplete(grants: seq<Dict>, step: Dict -> Step, g: Dict, row: Dict)
    requires ScoredGrants(grants, step).Some?
    requires g in grants && step(g) == Kept(row)
    ensures row in ScoredGrants(grants, step).value
    decreases |grants|
  {
    var init := grants[..|grants| - 1];
    assert grants == init + [grants[|grants| - 1]];
    if g != grants[|grants| - 1] {
      assert g in init;
      ScoredGrantsComplete(init, step, g, row);
    }
  }

  /** The sort key `x['relevance_score']`. */
  function ScoreKey(row: Dict): real
  {
    if "relevance_score" in row && row["relevance_score"].JFloat? then row["relevance_score"].r else 0.0
  }

  /** `rows[:limit]`: `None` where the limit is not a valid slice bound (a
      float), which raises inside the search's `try`. */
  function SliceLimit(rows: seq<Dict>, limit: Json): (r: Option<seq<Dict>>)
    ensures limit.JInt? && limit.i >= 0 ==> r.Some? && |r.value| <= limit.i
    ensures r.Some? ==> r.value <= rows
  {
    match limit
    case JInt(n) => Some(SliceHead(rows, n))
    case JBool(b) => Some(SliceHead(rows, if b then 1 else 0))
    case JNull => Some(rows)
    case _ => None
  }

  /** How a search ends: with its result list, or with an exception raised
      before its `try` (the warning takes `len()` of the selections, and the
      query builders iterate them). */
  datatype SearchResult = Results(grants: seq<Dict>) | Failed

  /** Whether the search is in browse mode. */
  predicate BrowseMode(query: string, filters: Dict)
  {
    Truthy(Get(filters, "browse_mode", JBool(false))) || Strip(query) == []
  }

  /** The query the scores are computed against. */
  function ExpandedFor(m: Matcher, query: string, tt: seq<string>, fa: seq<string>, browse: bool): string
  {
    if browse then m.taxonomyQuery(tt, fa) else m.expandedQuery(query, tt, fa)
  }

  /** The filtered grants sorted by descending score and cut at `limit`
      (nothing when the cut raises). */
  function Ranked(kept: seq<Dict>, limit: Json): (r: seq<Dict>)
    ensures SortedDesc(r, ScoreKey)
    ensures limit.JInt? && limit.i >= 0 ==> |r| <= limit.i
    ensures forall row :: row in r ==> row in kept
    ensures r <= SortDesc(kept, ScoreKey)
    ensures limit.JInt? && limit.i >= 0 ==>
      r == SortDesc(kept, ScoreKey)[..if |kept| < limit.i then |kept| else limit.i]
    ensures limit.JNull? ==> r == SortDesc(kept, ScoreKey)
  {
    var sorted := SortDesc(kept, ScoreKey);
    SortDescSorted(kept, ScoreKey);
    match SliceLimit(sorted, limit)
    case None => []
    case Some(top) =>
      SortedPrefix(sorted, ScoreKey, |top|);
      assert sorted[..|top|] == top;
      forall row | row in top ensures row in kept {
        SortDescMembers(kept, ScoreKey, row);
      }
      top
  }

  /** A kept row left out of the results scores no higher than any result:
      the results are the best-scored kept rows. */
  lemma RankedBest(kept: seq<Dict>, limit: Json, row: Dict)
    requires row in kept && row !in Ranked(kept, limit)
    ensures forall x :: x in Ranked(kept, limit) ==> ScoreKey(x) >= ScoreKey(row)
  {
    var sorted := SortDesc(kept, ScoreKey);
    var r := Ranked(kept, limit);
    SortDescSorted(kept, ScoreKey);
    SortDescMembers(kept, ScoreKey, row);
    var j :| 0 <= j < |sorted| && sorted[j] == row;
    assert forall i :: 0 <= i < |r| ==> r[i] == sorted[i];
    assert j >= |r|;
    forall x | x in r ensures ScoreKey(x) >= ScoreKey(row) {
      var i :| 0 <= i < |r| && r[i] == x;
      assert sorted[i] == x;
    }
  }

  /** With a limit of at least the number of kept rows (or none), every kept
      row is returned. */
  lemma RankedAll(kept: seq<Dict>, limit: Json, row: Dict)
    requires row in kept
    requires limit.JNull? || (limit.JInt? && limit.i >= |kept|)
    ensures row in Ranked(kept, limit)
  {
    SortDescMembers(kept, ScoreKey, row);
    assert SortDesc(kept, ScoreKey)[..|kept|] == SortDesc(kept, ScoreKey);
  }

  /** With no cut, the results keep the loop's order among rows of equal
      score, since `list.sort` is stable. */
  lemma RankedStable(kept: seq<Dict>, limit: Json, k: real)
    requires limit.JNull? || (limit.JInt? && limit.i >= |kept|)
    ensures KeyFilter(Ranked(kept, limit), ScoreKey, k) == KeyFilter(kept, ScoreKey, k)
  {
    assert SortDesc(kept, ScoreKey)[..|kept|] == SortDesc(kept, ScoreKey);
    SortDescStable(kept, ScoreKey, k);
  }

  /** The part of `search_grants` inside its `try`, once the loop body is
      known: score the rows, filter, sort and cut; an exception there gives
      the empty list. */
  function RankedFrom(m: Matcher, grants: seq<Dict>, step: Dict -> Step, filters: Dict, limit: Json,
                      daysUntil: string -> Option<int>): (r: seq<Dict>)
    ensures SortedDesc(r, ScoreKey)
    ensures limit.JInt? && limit.i >= 0 ==> |r| <= limit.i
    ensures forall row :: row in r ==> exists g :: g in grants && step(g) == Kept(row)
  {
    var scored := ScoredGrants(grants, step);
    if grants == [] || scored.None? then []
    else match ApplyFiltersResult(m, scored.value, filters, daysUntil)
      case None => []
      case Some(kept) =>
        forall row | row in kept ensures row in scored.value {
          if filters != map[] {
            SubsequenceMembers(kept, scored.value, row);
          }
        }
        Ranked(kept, limit)
  }

  /** When neither the loop nor the filters raise, the results are the
      ranked filtered rows. */
  lemma RankedFromRanks(m: Matcher, grants: seq<Dict>, step: Dict -> Step, filters: Dict, limit: Json,
                        daysUntil: string -> Option<int>)
    requires grants != [] && ScoredGrants(grants, step).Some?
    requires ApplyFiltersResult(m, ScoredGrants(grants, step).value, filters, daysUntil).Some?
    ensures RankedFrom(m, grants, step, filters, limit, daysUntil)
      == Ranked(ApplyFiltersResult(m, ScoredGrants(grants, step).value, filters, daysUntil).value, limit)
  {
  }

  /** A row the loop keeps that passes the filters is returned when the limit
      is at least the size of the table (or absent). */
  lemma RankedFromComplete(m: Matcher, grants: seq<Dict>, step: Dict -> Step, filters: Dict, limit: Json,
                           daysUntil: string -> Option<int>, g: Dict, row: Dict)
    requires g in grants && step(g) == Kept(row)
    requires ScoredGrants(grants, step).Some?
    requires ApplyFiltersResult(m, ScoredGrants(grants, step).value, filters, daysUntil).Some?
    requires filters == map[] || Passes(m, row, filters, daysUntil) == Some(true)
    requires limit.JNull? || (limit.JInt? && limit.i >= |grants|)
    ensures row in RankedFrom(m, grants, step, filters, limit, daysUntil)
  {
    var scored := ScoredGrants(grants, step).value;
    var kept := ApplyFiltersResult(m, scored, filters, daysUntil).value;
    ScoredGrantsComplete(grants, step, g, row);
    ApplyFiltersKeeps(m, scored, filters, daysUntil, row);
    assert |kept| <= |scored| <= |grants|;
    RankedFromRanks(m, grants, step, filters, limit, daysUntil);
    RankedAll(kept, limit, row);
  }

  /** A row the loop keeps that passes the filters but is not returned
      scores no higher than any result. */
  lemma RankedFromBest(m: Matcher, grants: seq<Dict>, step: Dict -> Step, filters: Dict, limit: Json,
                       daysUntil: string -> Option<int>, g: Dict, row: Dict)
    requires g in grants && step(g) == Kept(row)
    requires ScoredGrants(grants, step).Some?
    requires ApplyFiltersResult(m, ScoredGrants(grants, step).value, filters, daysUntil).Some?
    requires filters == map[] || Passes(m, row, filters, daysUntil) == Some(true)
    requires row !in RankedFrom(m, grants, step, filters, limit, daysUntil)
    ensures forall x :: x in RankedFrom(m, grants, step, filters, limit, daysUntil) ==> ScoreKey(x) >= ScoreKey(row)
  {
    var scored := ScoredGrants(grants, step).value;
    var kept := ApplyFiltersResult(m, scored, filters, daysUntil).value;
    ScoredGrantsComplete(grants, step, g, row);
    ApplyFiltersKeeps(m, scored, filters, daysUntil, row);
    RankedFromRanks(m, grants, step, filters, limit, daysUntil);
    RankedBest(kept, limit, row);
  }

  /** What `search_grants` returns, once the selections are known. */
  function RankedResults(m: Matcher, query: string, limit: Json, filters: Dict, grants: seq<Dict>,
                         tt: seq<string>, fa: seq<string>, env: Env): seq<Dict>
  {
    var browse := BrowseMode(query, filters);
    var step := StepOf(m, Get(filters, "data_type", JStr("all")), ExpandedFor(m, query, tt, fa, browse), tt, fa, browse, env);
    RankedFrom(m, grants, step, filters, limit, env.daysUntil)
  }

  /** What `search_grants` returns. */
  function SearchGrantsResult(m: Matcher, query: string, limit: Json, filters: Dict, grants: seq<Dict>, env: Env): SearchResult
  {
    var toolTypes := Get(filters, "tool_types", JList([]));
    var focusAreas := Get(filters, "focus_areas", JList([]));
    if !Truthy(toolTypes) || !Truthy(focusAreas) then
      if Len(toolTypes).None? || Len(focusAreas).None? then Failed else Results([])
    else match (Selection(toolTypes), Selection(focusAreas))
      case (Some(tt), Some(fa)) => Results(RankedResults(m, query, limit, filters, grants, tt, fa, env))
      case _ => Failed
  }

  /** The scoring loop over the rows of the grants table; `step` is the loop
      body. */
  method ScoreGrants(grants: seq<Dict>, step: Dict -> Step) returns (r: Option<seq<Dict>>)
    ensures r == ScoredGrants(grants, step)
  {
    var scored: seq<Dict> := [];
    var i := 0;
    while i < |grants|
      invariant 0 <= i <= |grants|
      invariant ScoredGrants(grants[..i], step) == Some(scored)
    {
      assert grants[..i + 1][..i] == grants[..i];
      match step(grants[i]) {
        case Raised =>
          ScoredRaisedStays(grants, step, i + 1);
          assert grants[..|grants|] == grants;
          return None;
        case Dropped =>
        case Kept(row) =>
          scored := scored + [row];
      }
      i := i + 1;
    }
    assert grants[..i] == grants;
    r := Some(scored);
  }

  /** Once a score raises on a prefix, the whole loop raises. */
  lemma {:induction false} ScoredRaisedStays(grants: seq<Dict>, step: Dict -> Step, n: nat)
    requires n <= |grants| && ScoredGrants(grants[..n], step).None?
    ensures ScoredGrants(grants, step).None?
    decreases |grants| - n
  {
    if n < |grants| {
      assert grants[..n + 1][..n] == grants[..n];
      ScoredRaisedStays(grants, step, n + 1);
    } else {
      assert grants[..n] == grants;
    }
  }

  /** The body of the `try`: the scoring loop, the filters, the sort and the
      cut. */
  method RankGrants(m: Matcher, grants: seq<Dict>, step: Dict -> Step, filters: Dict, limit: Json,
                    daysUntil: string -> Option<int>) returns (r: seq<Dict>)
    ensures r == RankedFrom(m, grants, step, filters, limit, daysUntil)
  {
    if grants == [] {
      return [];
    }
    var scored := ScoreGrants(grants, step);
    if scored.None? {
      return [];
    }
    var kept := ApplyFilters(m, scored.value, filters, daysUntil);
    if kept.None? {
      return [];
    }
    var sorted := SortDesc(kept.value, ScoreKey);
    var top := SliceLimit(sorted, limit);
    if top.None? {
      return [];
    }
    return top.value;
  }

  /** `search_grants` of the matcher `m` over the rows of the grants table. */
  method SearchGrants(m: Matcher, query: string, limit: Json, filters: Dict, grants: seq<Dict>, env: Env)
    returns (r: SearchResult)
    ensures r == SearchGrantsResult(m, query, limit, filters, grants, env)
  {
    var toolTypes := Get(filters, "tool_types", JList([]));
    var focusAreas := Get(filters, "focus_areas", JList([]));
    var browse := BrowseMode(query, filters);
    if !Truthy(toolTypes) || !Truthy(focusAreas) {
      if Len(toolTypes).None? || Len(focusAreas).None? {
        return Failed;
      }
      return Results([]);
    }
    var tt := Selection(toolTypes);
    var fa := Selection(focusAreas);
    if tt.None? || fa.None? {
      return Failed;
    }
    var expanded := if browse then m.taxonomyQuery(tt.value, fa.value) else m.expandedQuery(query, tt.value, fa.value);
    var step := StepOf(m, Get(filters, "data_type", JStr("all")), expanded, tt.value, fa.value, browse, env);
    var top := RankGrants(m, grants, step, filters, limit, env.daysUntil);
    return Results(top);
  }

  /** Without a tool type or a focus area the search returns nothing; it
      raises instead when a selection has no `len()` (`None`, a number), which
      the warning's f-string takes. */
  lemma SearchNeedsTaxonomy(m: Matcher, query: string, limit: Json, filters: Dict, grants: seq<Dict>, env: Env)
    requires !Truthy(Get(filters, "tool_types", JList([]))) || !Truthy(Get(filters, "focus_areas", JList([])))
    ensures Len(Get(filters, "tool_types", JList([]))).Some? && Len(Get(filters, "focus_areas", JList([]))).Some? ==>
      SearchGrantsResult(m, query, limit, filters, grants, env) == Results([])
    ensures Len(Get(filters, "tool_types", JList([]))).None? || Len(Get(filters, "focus_areas", JList([]))).None? ==>
      SearchGrantsResult(m, query, limit, filters, grants, env) == Failed
  {
  }

  /** The results are sorted by descending relevance score and are at most
      `limit` many. */
  lemma SearchResultsRanked(m: Matcher, query: string, limit: Json, filters: Dict, grants: seq<Dict>, env: Env)
    requires SearchGrantsResult(m, query, limit, filters, grants, env).Results?
    ensures SortedDesc(SearchGrantsResult(m, query, limit, filters, grants, env).grants, ScoreKey)
    ensures limit.JInt? && limit.i >= 0 ==> |SearchGrantsResult(m, query, limit, filters, grants, env).grants| <= limit.i
    ensures var tools := Get(filters, "tool_types", JList([])); var focus := Get(filters, "focus_areas", JList([]));
      Truthy(tools) && Truthy(focus) ==>
        (Selection(tools).Some? && Selection(focus).Some? &&
         SearchGrantsResult(m, query, limit, filters, grants, env).grants
           == RankedResults(m, query, limit, filters, grants, Selection(tools).value, Selection(focus).value, env))
  {
  }

  /** A grant the loop keeps passed the data-type filter and the "tool type
      AND focus area" gate, scored above the threshold of its mode, and comes
      out with its rounded score, its inferred type and the mode added. */
  lemma KeptStepMeans(m: Matcher, g: Dict, dataType: Json, expanded: string, tt: seq<string>, fa: seq<string>,
                      browse: bool, env: Env, row: Dict)
    requires ScoreStep(m, g, dataType, expanded, tt, fa, browse, env) == Kept(row)
    ensures DataTypeKeeps(g, dataType) && m.relevant(CombinedText(g), tt, fa)
    ensures FinalScore(m, g, expanded, tt, fa, browse, env).Some?
    ensures FinalScore(m, g, expanded, tt, fa, browse, env).value > Threshold(browse)
    ensures row == Annotated(g, env.round2(FinalScore(m, g, expanded, tt, fa, browse, env).value), browse)
  {
  }

  /** With the biotools matcher, a kept grant's text names one of the
      selected tool types and one of the selected focus areas. */
  lemma BiotoolsKeptMatchesBoth(g: Dict, dataType: Json, expanded: string, tt: seq<string>, fa: seq<string>,
                                browse: bool, env: Env, row: Dict)
    requires ScoreStep(BiotoolsMatcher, g, dataType, expanded, tt, fa, browse, env) == Kept(row)
    ensures SelectionMatches(ToolTypes, tt, Lower(CombinedText(g)))
    ensures SelectionMatches(FocusAreas, fa, Lower(CombinedText(g)))
  {
    KeptStepMeans(BiotoolsMatcher, g, dataType, expanded, tt, fa, browse, env, row);
  }

  /** Every result comes from a grant of the table that the loop kept. */
  lemma SearchResultsRelevant(m: Matcher, query: string, limit: Json, filters: Dict, grants: seq<Dict>,
                              tt: seq<string>, fa: seq<string>, env: Env, row: Dict)
    requires row in RankedResults(m, query, limit, filters, grants, tt, fa, env)
    ensures exists g :: g in grants && ScoreStep(m, g, Get(filters, "data_type", JStr("all")),
      ExpandedFor(m, query, tt, fa, BrowseMode(query, filters)), tt, fa, BrowseMode(query, filters), env) == Kept(row)
  {
    var browse := BrowseMode(query, filters);
    var step := StepOf(m, Get(filters, "data_type", JStr("all")), ExpandedFor(m, query, tt, fa, browse), tt, fa, browse, env);
    var g :| g in grants && step(g) == Kept(row);
  }

  /** A grant the loop keeps that passes the filters is among the results
      when the limit is at least the size of the table. */
  lemma SearchResultsComplete(m: Matcher, query: string, limit: Json, filters: Dict, grants: seq<Dict>,
                              tt: seq<string>, fa: seq<string>, env: Env, g: Dict, row: Dict)
    requires var browse := BrowseMode(query, filters);
      g in grants && ScoreStep(m, g, Get(filters, "data_type", JStr("all")),
        ExpandedFor(m, query, tt, fa, browse), tt, fa, browse, env) == Kept(row)
    requires var browse := BrowseMode(query, filters);
      var step := StepOf(m, Get(filters, "data_type", JStr("all")), ExpandedFor(m, query, tt, fa, browse), tt, fa, browse, env);
      ScoredGrants(grants, step).Some? &&
      ApplyFiltersResult(m, ScoredGrants(grants, step).value, filters, env.daysUntil).Some?
    requires filters == map[] || Passes(m, row, filters, env.daysUntil) == Some(true)
    requires limit.JNull? || (limit.JInt? && limit.i >= |grants|)
    ensures row in RankedResults(m, query, limit, filters, grants, tt, fa, env)
  {
    var browse := BrowseMode(query, filters);
    var step := StepOf(m, Get(filters, "data_type", JStr("all")), ExpandedFor(m, query, tt, fa, browse), tt, fa, browse, env);
    RankedFromComplete(m, grants, step, filters, limit, env.daysUntil, g, row);
  }

  /** A grant the loop keeps that passes the filters but is cut by the limit
      scores no higher than any result. */
  lemma SearchResultsBest(m: Matcher, query: string, limit: Json, filters: Dict, grants: seq<Dict>,
                          tt: seq<string>, fa: seq<string>, env: Env, g: Dict, row: Dict)
    requires var browse := BrowseMode(query, filters);
      g in grants && ScoreStep(m, g, Get(filters, "data_type", JStr("all")),
        ExpandedFor(m, query, tt, fa, browse), tt, fa, browse, env) == Kept(row)
    requires var browse := BrowseMode(query, filters);
      var step := StepOf(m, Get(filters, "data_type", JStr("all")), ExpandedFor(m, query, tt, fa, browse), tt, fa, browse, env);
      ScoredGrants(grants, step).Some? &&
      ApplyFiltersResult(m, ScoredGrants(grants, step).value, filters, env.daysUntil).Some?
    requires filters == map[] || Passes(m, row, filters, env.daysUntil) == Some(true)
    requires row !in RankedResults(m, query, limit, filters, grants, tt, fa, env)
    ensures forall x :: x in RankedResults(m, query, limit, filters, grants, tt, fa, env) ==> ScoreKey(x) >= ScoreKey(row)
  {
    var browse := BrowseMode(query, filters);
    var step := StepOf(m, Get(filters, "data_type", JStr("all")), ExpandedFor(m, query, tt, fa, browse), tt, fa, browse, env);
    RankedFromBest(m, grants, step, filters, limit, env.daysUntil, g, row);
  }
}
