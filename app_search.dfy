/** The simpler Flask backend (app.py): the relevance score of
    `GrantMatcher.calculate_relevance`, the parameterised SQL statement
    `GrantMatcher.search_grants` builds, the ranking of the rows it gets
    back, and the empty-query check of the `/api/search` handler. The
    database, the HTTP layer and the optional agent call are not modelled:
    the rows the statement selects are an input. */
module SimpleApp {
  import opened Options
  import opened Text
  import opened JsonValue
  import opened Sorting

  // ------------------------------------------------------------ relevance

  /** The text columns of a `grants` row that the score reads; SQL NULL is
      `None`. */
  datatype Listing = Listing(title: Option<string>, description: Option<string>, keywords: Option<string>)

  /** Python's truth value of a TEXT column: present and not empty. */
  predicate Present(v: Option<string>)
  {
    v.Some? && v.value != []
  }

  /** 10 when the title holds the whole lower-cased query. */
  function TitlePoints(q: string, grant: Listing): (p: nat)
    ensures p == 0 || p == 10
  {
    if Present(grant.title) && Contains(Lower(grant.title.value), q) then 10 else 0
  }

  /** 5 for every word of the query (repeats included) that the keywords hold. */
  function KeywordPoints(q: string, grant: Listing): (p: nat)
  {
    if Present(grant.keywords) then 5 * |Occurring(Split(q), Lower(grant.keywords.value))| else 0
  }

  /** 2 when the description holds the whole lower-cased query. */
  function DescriptionPoints(q: string, grant: Listing): (p: nat)
    ensures p == 0 || p == 2
  {
    if Present(grant.description) && Contains(Lower(grant.description.value), q) then 2 else 0
  }

  /** `calculate_relevance(query, grant)` without the bonus for rows updated
      in the last 30 days. Python adds the floats 10.0, 5.0 and 2.0, so the
      score is always a whole number. */
  function Relevance(query: string, grant: Listing): nat
  {
    Score(Lower(query), grant)
  }

  /** The score of a lower-cased query. */
  function Score(q: string, grant: Listing): nat
  {
    TitlePoints(q, grant) + KeywordPoints(q, grant) + DescriptionPoints(q, grant)
  }

  /** `calculate_relevance`: the query is lower-cased once, then scored. */
  method CalculateRelevance(query: string, grant: Listing) returns (score: nat)
    ensures score == Relevance(query, grant)
  {
    var q := Lower(query);
    score := ScoreQuery(q, grant);
  }

  /** The accumulator loop of `calculate_relevance` over the lower-cased
      query. */
  method ScoreQuery(q: string, grant: Listing) returns (score: nat)
    ensures score == Score(q, grant)
  {
    score := 0;
    if Present(grant.title) && Contains(Lower(grant.title.value), q) {
      score := score + 10;
    }
    if Present(grant.keywords) {
      var found := CountOccurring(Split(q), Lower(grant.keywords.value));
      score := score + 5 * found;
    }
    if Present(grant.description) && Contains(Lower(grant.description.value), q) {
      score := score + 2;
    }
  }

  /** Each word of the query earns at most 5. */
  lemma KeywordPointsBounded(q: string, grant: Listing)
    ensures KeywordPoints(q, grant) <= 5 * |Split(q)|
  {
    if Present(grant.keywords) {
      var found := Occurring(Split(q), Lower(grant.keywords.value));
      assert |found| <= |Split(q)|;
    }
  }

  /** The score is at most 10 + 2 plus 5 for each word of the query. */
  lemma RelevanceBounded(query: string, grant: Listing)
    ensures Relevance(query, grant) <= 12 + 5 * |SearchTerms(query)|
  {
    KeywordPointsBounded(Lower(query), grant);
  }

  /** The score does not depend on the case of the query. */
  lemma RelevanceIgnoresQueryCase(query: string, grant: Listing)
    ensures Relevance(Lower(query), grant) == Relevance(query, grant)
  {
    LowerIdempotent(query);
  }

  /** A title that holds the query, in any case, scores at least 10. */
  lemma TitleMatchScores(query: string, grant: Listing)
    ensures Present(grant.title) && Contains(Lower(grant.title.value), Lower(query)) ==> Relevance(query, grant) >= 10
  {
  }

  /** A row with no title, keywords or description scores 0. */
  lemma EmptyListingScoresZero(query: string)
    ensures Relevance(query, Listing(None, None, None)) == 0
  {
  }

  // ---------------------------------------------------------------- the SQL

  /** The literal fragments of the statements `search_grants` runs. */
  datatype Fragment =
    | TitleLike | DescriptionLike | KeywordsLike | CloseParen | AndWord
    | SelectWhere | OrderLimit | Closing | SelectAll

  /** The text of each fragment, line breaks and indentation included. */
  function FragmentText(f: Fragment): string
  {
    match f
    case TitleLike => "(LOWER(title) LIKE "
    case DescriptionLike => " OR LOWER(description) LIKE "
    case KeywordsLike => " OR LOWER(keywords) LIKE "
    case CloseParen => ")"
    case AndWord => " AND "
    case SelectWhere => "\n                SELECT * FROM grants \n                WHERE "
    case OrderLimit => "\n                ORDER BY updated_at DESC \n                LIMIT "
    case Closing => "\n            "
    case SelectAll => "SELECT * FROM grants ORDER BY updated_at DESC LIMIT "
  }

  /** A piece of an SQL statement: literal text or a `?` placeholder. */
  datatype Piece = Text(f: Fragment) | Slot

  /** A value bound to a placeholder: a LIKE pattern or the row limit. */
  datatype Param = Pattern(s: string) | Limit(v: Json)

  /** The statement's text. */
  function RenderSql(pieces: seq<Piece>): string
  {
    if pieces == [] then []
    else
      RenderSql(pieces[..|pieces| - 1]) + match pieces[|pieces| - 1] case Text(f) => FragmentText(f) case Slot => "?"
  }

  /** The number of placeholders. */
  function Slots(pieces: seq<Piece>): nat
  {
    multiset(pieces)[Slot]
  }

  /** The condition each search term adds. */
  const TermCondition: seq<Piece> :=
    [Text(TitleLike), Slot, Text(DescriptionLike), Slot, Text(KeywordsLike), Slot, Text(CloseParen)]

  const And: seq<Piece> := [Text(AndWord)]

  /** The f-string around the conditions. */
  const Head: seq<Piece> := [Text(SelectWhere)]

  const Tail: seq<Piece> := [Text(OrderLimit), Slot, Text(Closing)]

  /** The statement for a query without terms. */
  const Unconditioned: seq<Piece> := [Text(SelectAll), Slot]

  /** `sep.join(parts)` on statements. */
  function JoinPieces(parts: seq<seq<Piece>>, sep: seq<Piece>): seq<Piece>
  {
    if parts == [] then []
    else if |parts| == 1 then parts[0]
    else JoinPieces(parts[..|parts| - 1], sep) + sep + parts[|parts| - 1]
  }

  /** One condition per term. */
  function Conditions(n: nat): seq<seq<Piece>>
  {
    seq(n, _ => TermCondition)
  }

  /** The statement `search_grants` runs for `n` terms. */
  function SearchStatement(n: nat): seq<Piece>
  {
    if n == 0 then Unconditioned else Head + JoinPieces(Conditions(n), And) + Tail
  }

  /** The three patterns of each term, in term order. */
  function Patterns(terms: seq<string>): seq<Param>
  {
    if terms == [] then []
    else
      var p := Pattern("%" + terms[|terms| - 1] + "%");
      Patterns(terms[..|terms| - 1]) + [p, p, p]
  }

  /** The parameters `search_grants` binds: the patterns, then the limit. */
  function SearchParams(terms: seq<string>, limit: Json): seq<Param>
  {
    Patterns(terms) + [Limit(limit)]
  }

  /** The terms of a query: its lower-cased words. */
  function SearchTerms(query: string): seq<string>
  {
    Split(Lower(query))
  }

  /** The loop that builds the conditions and the parameters, and the
      statement around them. The statement depends on the number of terms
      only, so no text of the query reaches the SQL. */
  method BuildSearch(query: string, limit: Json) returns (statement: seq<Piece>, params: seq<Param>)
    ensures statement == SearchStatement(|SearchTerms(query)|)
    ensures params == SearchParams(SearchTerms(query), limit)
  {
    var terms := Split(Lower(query));
    statement, params := BuildStatement(terms, limit);
  }

  /** The loop of `search_grants` over the terms. */
  method BuildStatement(terms: seq<string>, limit: Json) returns (statement: seq<Piece>, params: seq<Param>)
    ensures statement == SearchStatement(|terms|)
    ensures params == SearchParams(terms, limit)
  {
    var conditions: seq<seq<Piece>> := [];
    params := [];
    for i := 0 to |terms|
      invariant conditions == Conditions(i)
      invariant params == Patterns(terms[..i])
    {
      assert terms[..i + 1][..i] == terms[..i];
      assert Conditions(i + 1) == Conditions(i) + [TermCondition];
      conditions := conditions + [TermCondition];
      var p := Pattern("%" + terms[i] + "%");
      params := params + [p, p, p];
    }
    assert terms[..|terms|] == terms;
    if conditions != [] {
      statement := Head + JoinPieces(conditions, And) + Tail;
      params := params + [Limit(limit)];
    } else {
      statement := Unconditioned;
      params := [Limit(limit)];
    }
  }

  lemma ConditionSlots()
    ensures Slots(TermCondition) == 3 && Slots(And) == 0 && Slots(Head) == 0 && Slots(Tail) == 1
    ensures Slots(Unconditioned) == 1
  {
  }

  /** `n` conditions joined by AND hold three placeholders each. */
  lemma {:induction false} WhereSlots(n: nat)
    requires n > 0
    ensures Slots(JoinPieces(Conditions(n), And)) == 3 * n
  {
    ConditionSlots();
    if n > 1 {
      assert Conditions(n)[..n - 1] == Conditions(n - 1);
      WhereSlots(n - 1);
    }
  }

  lemma {:induction false} PatternsLength(terms: seq<string>)
    ensures |Patterns(terms)| == 3 * |terms|
  {
    if terms != [] {
      PatternsLength(terms[..|terms| - 1]);
    }
  }

  /** The statement has exactly one placeholder per parameter. */
  lemma PlaceholdersMatchParams(query: string, limit: Json)
    ensures Slots(SearchStatement(|SearchTerms(query)|)) == |SearchParams(SearchTerms(query), limit)|
  {
    var terms := SearchTerms(query);
    ConditionSlots();
    PatternsLength(terms);
    if terms != [] {
      WhereSlots(|terms|);
    }
  }

  /** The three parameters of term `k` are its `%term%` pattern, and the
      limit comes last. */
  lemma {:induction false} PatternsOfTerm(terms: seq<string>, k: nat, j: nat)
    requires k < |terms| && j < 3
    ensures |Patterns(terms)| == 3 * |terms|
    ensures Patterns(terms)[3 * k + j] == Pattern("%" + terms[k] + "%")
  {
    PatternsLength(terms);
    var init := terms[..|terms| - 1];
    PatternsLength(init);
    if k < |terms| - 1 {
      assert init[k] == terms[k];
      PatternsOfTerm(init, k, j);
    }
  }

  /** A blank query has no terms. */
  lemma BlankQueryNoTerms(query: string)
    requires forall i :: 0 <= i < |query| ==> IsSpace(query[i])
    ensures SearchTerms(query) == []
  {
    var q := Lower(query);
    forall i | 0 <= i < |q|
      ensures IsSpace(q[i])
    {
      assert q[i] == LowerChar(query[i]);
    }
    SplitAllSpace(q);
  }

  /** A query without terms runs the unconditioned statement with the limit
      alone. */
  lemma NoTermsUnconditioned(query: string, limit: Json)
    requires forall i :: 0 <= i < |query| ==> IsSpace(query[i])
    ensures RenderSql(SearchStatement(|SearchTerms(query)|)) == FragmentText(SelectAll) + "?"
    ensures SearchParams(SearchTerms(query), limit) == [Limit(limit)]
  {
    BlankQueryNoTerms(query);
    UnconditionedRendered();
  }

  lemma UnconditionedRendered()
    ensures RenderSql(Unconditioned) == FragmentText(SelectAll) + "?"
  {
    assert Unconditioned[..1] == [Text(SelectAll)];
  }

  // ------------------------------------------------------------- the ranking

  /** A row with its relevance score. */
  datatype Scored = Scored(grant: Listing, relevance: nat)

  function ScoreKey(s: Scored): real
  {
    s.relevance as real
  }

  /** Every row with its score, in the order the database returned them. */
  function ScoreAll(query: string, rows: seq<Listing>): (r: seq<Scored>)
    ensures |r| == |rows|
    ensures forall i :: 0 <= i < |rows| ==> r[i] == Scored(rows[i], Relevance(query, rows[i]))
  {
    if rows == [] then []
    else ScoreAll(query, rows[..|rows| - 1]) + [Scored(rows[|rows| - 1], Relevance(query, rows[|rows| - 1]))]
  }

  /** `search_grants` after the query: the statement and its parameters,
      then every returned row scored and the list sorted by score, largest
      first, rows with equal scores kept in database order. */
  method SearchGrants(query: string, limit: Json, rows: seq<Listing>)
    returns (statement: seq<Piece>, params: seq<Param>, results: seq<Scored>)
    ensures statement == SearchStatement(|SearchTerms(query)|)
    ensures params == SearchParams(SearchTerms(query), limit)
    ensures results == SortDesc(ScoreAll(query, rows), ScoreKey)
    ensures SortedDesc(results, ScoreKey) && multiset(results) == multiset(ScoreAll(query, rows))
    ensures forall k :: KeyFilter(results, ScoreKey, k) == KeyFilter(ScoreAll(query, rows), ScoreKey, k)
  {
    statement, params := BuildSearch(query, limit);
    var scored: seq<Scored> := [];
    for i := 0 to |rows|
      invariant scored == ScoreAll(query, rows[..i])
    {
      assert rows[..i + 1][..i] == rows[..i];
      var score := CalculateRelevance(query, rows[i]);
      scored := scored + [Scored(rows[i], score)];
    }
    assert rows[..|rows|] == rows;
    results := SortDesc(scored, ScoreKey);
    SortDescSorted(scored, ScoreKey);
    forall k ensures KeyFilter(results, ScoreKey, k) == KeyFilter(scored, ScoreKey, k) {
      SortDescStable(scored, ScoreKey, k);
    }
  }

  // ------------------------------------------------------------ the handler

  /** What the `/api/search` handler does with a request body: a 400 for a
      missing or blank query, a 500 when reading the body raises, else the
      search with the stripped query and the limit (20 by default). */
  datatype SearchReply = Rejected(status: nat, error: string) | Failed | Accepted(query: string, limit: Json)

  function SearchRequest(data: Json): (r: SearchReply)
    ensures r.Accepted? <==>
      data.JObject? && Get(data.fields, "query", JStr("")).JStr? && Strip(Get(data.fields, "query", JStr("")).s) != []
    ensures r.Accepted? ==>
      r.query == Strip(data.fields["query"].s) && r.query != []
      && !IsSpace(r.query[0]) && !IsSpace(r.query[|r.query| - 1])
      && r.limit == Get(data.fields, "limit", JInt(20))
    ensures r.Failed? <==> !data.JObject? || !Get(data.fields, "query", JStr("")).JStr?
  {
    if !data.JObject? then Failed
    else
      var query := Get(data.fields, "query", JStr(""));
      if !query.JStr? then Failed
      else if Strip(query.s) == [] then Rejected(400, "Query is required")
      else Accepted(Strip(query.s), Get(data.fields, "limit", JInt(20)))
  }

  /** An empty or whitespace-only query is rejected with 400. */
  lemma BlankQueryRejected(data: Dict)
    requires "query" in data && data["query"].JStr?
    requires forall i :: 0 <= i < |data["query"].s| ==> IsSpace(data["query"].s[i])
    ensures SearchRequest(JObject(data)) == Rejected(400, "Query is required")
  {
    var s := data["query"].s;
  }
}
