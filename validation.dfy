/** The request checks of the search backend's HTTP handlers (main.py
    `/api/search` and `/api/feedback`). The JSON body is the input; the
    outcome is the 400 answer with its message, the 500 answer that an
    exception inside the handler produces, or the accepted request. */
module ApiValidation {
  import opened Options
  import opened Text
  import opened JsonValue

  // ---------------------------------------------------------------- search

  /** The substrings that mark a query as an injection attempt. */
  const SuspiciousPatterns: seq<string> := ["union", "select", "drop", "delete", "insert", "--", "/*", "*/", ";"]

  /** What the search handler does with a request body. */
  datatype SearchOutcome =
    | SearchRejected(message: string)
    | SearchFailed
    | SearchAccepted(query: string, limit: Json, filters: Dict, browse: bool)

  /** `min(v, 50)`: `50` when it is smaller than `v`, else `v`; `None` where
      the comparison raises. */
  function CapLimit(v: Json): (r: Option<Json>)
    ensures r.Some? ==> NumberOf(r.value).Some? && NumberOf(r.value).value <= 50.0
    ensures r.Some? <==> NumberOf(v).Some?
    ensures r.Some? && NumberOf(v).value <= 50.0 ==> r.value == v
  {
    match NumberOf(v)
    case None => None
    case Some(x) => if 50.0 < x then Some(JInt(50)) else Some(v)
  }

  /** The lower-cased query holds a suspicious pattern. */
  predicate Suspicious(query: string)
  {
    AnyIn(SuspiciousPatterns, Lower(query))
  }

  /** The search handler's checks, in the handler's order: first the reads
      of `query`, `limit` and `filters`, which raise on a body of the wrong
      shape, then the checks that answer 400. */
  function ValidateSearch(data: Json): SearchOutcome
  {
    if !Truthy(data) then SearchRejected("No JSON data provided")
    else if !data.JObject? then SearchFailed
    else
      var q := Get(data.fields, "query", JStr(""));
      var limit := CapLimit(Get(data.fields, "limit", JInt(20)));
      var filters := Get(data.fields, "filters", JObject(map[]));
      if !q.JStr? || limit.None? || !filters.JObject? then SearchFailed
      else CheckSearch(Strip(q.s), limit.value, filters.fields)
  }

  /** The checks that answer 400, on the stripped query, the capped limit and
      the filters. */
  function CheckSearch(query: string, limit: Json, filters: Dict): SearchOutcome
  {
    var browse := Truthy(Get(filters, "browse_mode", JBool(false))) || |query| == 0;
    if !Truthy(Get(filters, "tool_types", JList([]))) || !Truthy(Get(filters, "focus_areas", JList([]))) then
      SearchRejected("Biotools taxonomy validation failed")
    else if !browse && |query| < 2 then SearchRejected("Query too short (minimum 2 characters)")
    else if query != [] && Suspicious(query) then SearchRejected("Invalid query format")
    else SearchAccepted(query, limit, filters, browse)
  }

  /** An accepted search has a tool type and a focus area, a limit of at most
      50, a query of at least two characters unless it browses, and no
      suspicious pattern in its query. */
  lemma AcceptedSearchIsValid(data: Json)
    requires ValidateSearch(data).SearchAccepted?
    ensures var a := ValidateSearch(data);
      Truthy(Get(a.filters, "tool_types", JList([]))) && Truthy(Get(a.filters, "focus_areas", JList([]))) &&
      NumberOf(a.limit).Some? && NumberOf(a.limit).value <= 50.0 &&
      (a.browse || |a.query| >= 2) &&
      !Suspicious(a.query)
  {
    var q := Get(data.fields, "query", JStr(""));
    var limit := CapLimit(Get(data.fields, "limit", JInt(20)));
    var filters := Get(data.fields, "filters", JObject(map[]));
    CheckAccepted(Strip(q.s), limit.value, filters.fields);
  }

  /** What the 400 checks let through. */
  lemma CheckAccepted(query: string, limit: Json, filters: Dict)
    requires CheckSearch(query, limit, filters).SearchAccepted?
    ensures var a := CheckSearch(query, limit, filters);
      a.query == query && a.limit == limit && a.filters == filters &&
      Truthy(Get(filters, "tool_types", JList([]))) && Truthy(Get(filters, "focus_areas", JList([]))) &&
      (a.browse || |query| >= 2) && !Suspicious(query)
  {
    if query == [] {
      forall t | t in SuspiciousPatterns ensures !Contains(Lower(query), t) {
        NotContainsLonger(Lower(query), t);
      }
    }
  }

  /** A body without a tool type or without a focus area is rejected with 400. */
  lemma MissingTaxonomyRejected(fields: Dict)
    requires "query" !in fields || fields["query"].JStr?
    requires "limit" !in fields || fields["limit"].JInt?
    requires "filters" !in fields || fields["filters"].JObject?
    requires var f := Get(fields, "filters", JObject(map[])).fields;
      "tool_types" !in f || "focus_areas" !in f
    ensures ValidateSearch(JObject(fields)).SearchRejected?
  {
    var f := Get(fields, "filters", JObject(map[])).fields;
    assert !Truthy(Get(f, "tool_types", JList([]))) || !Truthy(Get(f, "focus_areas", JList([])));
  }

  /** A body that names a taxonomy, with a string query and no limit or an
      integer one. */
  predicate WellFormed(fields: Dict)
  {
    "query" in fields && fields["query"].JStr? &&
    ("limit" !in fields || fields["limit"].JInt?) &&
    "filters" in fields && fields["filters"].JObject? &&
    Truthy(Get(fields["filters"].fields, "tool_types", JList([]))) &&
    Truthy(Get(fields["filters"].fields, "focus_areas", JList([])))
  }

  /** A well-formed body reaches the 400 checks. */
  lemma WellFormedChecked(fields: Dict)
    requires WellFormed(fields)
    ensures CapLimit(Get(fields, "limit", JInt(20))).Some?
    ensures ValidateSearch(JObject(fields)) ==
      CheckSearch(Strip(fields["query"].s), CapLimit(Get(fields, "limit", JInt(20))).value, fields["filters"].fields)
  {
    assert Truthy(JObject(fields)) by { assert "query" in fields.Keys; }
  }

  /** Outside browse mode, a well-formed body whose stripped query has fewer
      than two characters is rejected. */
  lemma ShortQueryRejected(fields: Dict)
    requires WellFormed(fields)
    requires !Truthy(Get(fields["filters"].fields, "browse_mode", JBool(false)))
    requires |Strip(fields["query"].s)| == 1
    ensures ValidateSearch(JObject(fields)) == SearchRejected("Query too short (minimum 2 characters)")
  {
    WellFormedChecked(fields);
  }

  /** A well-formed body whose query holds a suspicious pattern in any case
      is rejected. */
  lemma SuspiciousQueryRejected(fields: Dict, k: nat)
    requires WellFormed(fields)
    requires k < |SuspiciousPatterns| && Contains(Lower(Strip(fields["query"].s)), SuspiciousPatterns[k])
    ensures ValidateSearch(JObject(fields)).SearchRejected?
  {
    WellFormedChecked(fields);
    var query := Strip(fields["query"].s);
    assert SuspiciousPatterns[k] in SuspiciousPatterns;
    if query != [] {
      CheckSuspicious(query, CapLimit(Get(fields, "limit", JInt(20))).value, fields["filters"].fields);
    }
  }

  /** The 400 checks turn away a suspicious query. */
  lemma CheckSuspicious(query: string, limit: Json, filters: Dict)
    requires Truthy(Get(filters, "tool_types", JList([]))) && Truthy(Get(filters, "focus_areas", JList([])))
    requires query != [] && Suspicious(query)
    ensures CheckSearch(query, limit, filters).SearchRejected?
  {
  }

  /** The limit is capped at 50. */
  lemma LimitCapped(fields: Dict, n: int)
    requires WellFormed(fields) && "limit" in fields && fields["limit"] == JInt(n)
    requires ValidateSearch(JObject(fields)).SearchAccepted?
    ensures ValidateSearch(JObject(fields)).limit == JInt(if n > 50 then 50 else n)
  {
    WellFormedChecked(fields);
  }

  /** An empty query with a taxonomy is accepted in browse mode: the handler
      has no rule against it. */
  lemma EmptyQueryBrowses(filters: Dict)
    requires Truthy(Get(filters, "tool_types", JList([]))) && Truthy(Get(filters, "focus_areas", JList([])))
    ensures ValidateSearch(JObject(map["query" := JStr(""), "filters" := JObject(filters)]))
         == SearchAccepted("", JInt(20), filters, true)
  {
    var fields := map["query" := JStr(""), "filters" := JObject(filters)];
    assert fields["query"] == JStr("") && fields["filters"] == JObject(filters) && "limit" !in fields;
    assert WellFormed(fields);
    WellFormedChecked(fields);
    assert Strip("") == "";
    assert CapLimit(JInt(20)) == Some(JInt(20));
    CheckEmptyBrowses(JInt(20), filters);
  }

  /** The 400 checks let an empty query with a taxonomy through, browsing. */
  lemma CheckEmptyBrowses(limit: Json, filters: Dict)
    requires Truthy(Get(filters, "tool_types", JList([]))) && Truthy(Get(filters, "focus_areas", JList([])))
    ensures CheckSearch("", limit, filters) == SearchAccepted("", limit, filters, true)
  {
  }

  /** A well-formed body whose stripped query has at least two characters
      and none of the suspicious patterns is accepted with that query,
      however long it is: the handler sets no upper bound. */
  lemma CleanQueryAccepted(fields: Dict)
    requires WellFormed(fields)
    requires |Strip(fields["query"].s)| >= 2
    requires forall t :: t in SuspiciousPatterns ==> !Contains(Lower(Strip(fields["query"].s)), t)
    ensures ValidateSearch(JObject(fields)).SearchAccepted?
    ensures ValidateSearch(JObject(fields)).query == Strip(fields["query"].s)
  {
    WellFormedChecked(fields);
  }

  // -------------------------------------------------------------- feedback

  const FeedbackTypes: seq<string> := ["helpful", "not_helpful", "applied", "bookmarked"]

  /** What the feedback handler does with a request body. */
  datatype FeedbackOutcome =
    | FeedbackRejected(message: string)
    | FeedbackFailed
    | FeedbackRecorded(grantId: int, feedbackType: string, notes: string, searchQuery: string)

  /** Python's `field not in data or not data[field]` on a body that is not a
      dict: a string is searched for the name, a list for an equal element
      (then `data[field]` raises), and any other value raises at once. */
  function MissingInNonDict(data: Json, field: string): Option<bool>
  {
    match data
    case JStr(s) => if Contains(s, field) then None else Some(true)
    case JList(items) => if JStr(field) in items then None else Some(true)
    case _ => None
  }

  /** `isinstance(grant_id, int) and grant_id > 0`, with `True` an int. */
  function PositiveId(v: Json): (r: Option<int>)
    ensures r.Some? ==> r.value > 0
  {
    match v
    case JInt(i) => if i > 0 then Some(i) else None
    case JBool(b) => if b then Some(1) else None
    case _ => None
  }

  /** The feedback handler's checks, in the handler's order. A `notes` or
      `search_query` that has a length but is not a string passes the length
      check and then fails when it is bound as an SQL parameter. */
  function ValidateFeedback(data: Json): FeedbackOutcome
  {
    if !Truthy(data) then FeedbackRejected("No JSON data provided")
    else if !data.JObject? then
      match MissingInNonDict(data, "grant_id")
      case None => FeedbackFailed
      case Some(_) => FeedbackRejected("Missing required field: grant_id")
    else
      var d := data.fields;
      if !("grant_id" in d && Truthy(d["grant_id"])) then FeedbackRejected("Missing required field: grant_id")
      else if !("feedback_type" in d && Truthy(d["feedback_type"])) then FeedbackRejected("Missing required field: feedback_type")
      else if !(d["feedback_type"].JStr? && d["feedback_type"].s in FeedbackTypes) then FeedbackRejected("Invalid feedback type")
      else match PositiveId(d["grant_id"])
        case None => FeedbackRejected("Invalid grant ID")
        case Some(id) =>
          var notes := Get(d, "notes", JStr(""));
          var searchQuery := Get(d, "search_query", JStr(""));
          match (Len(notes), Len(searchQuery))
          case (None, _) => FeedbackFailed
          case (Some(n), _) =>
            if n > 500 then FeedbackRejected("Notes too long (maximum 500 characters)")
            else match Len(searchQuery)
              case None => FeedbackFailed
              case Some(m) =>
                if m > 200 then FeedbackRejected("Search query too long (maximum 200 characters)")
                else if !notes.JStr? || !searchQuery.JStr? then FeedbackFailed
                else FeedbackRecorded(id, d["feedback_type"].s, notes.s, searchQuery.s)
  }

  /** Recorded feedback has a known type, a positive grant id, notes of at
      most 500 characters and a search query of at most 200, and it comes
      from a body that names both required fields. */
  lemma RecordedFeedbackIsValid(data: Json)
    requires ValidateFeedback(data).FeedbackRecorded?
    ensures var f := ValidateFeedback(data);
      f.feedbackType in FeedbackTypes && f.grantId > 0 && |f.notes| <= 500 && |f.searchQuery| <= 200
    ensures data.JObject? && "grant_id" in data.fields && "feedback_type" in data.fields
    ensures ValidateFeedback(data).feedbackType == data.fields["feedback_type"].s
  {
    var d := data.fields;
    var notes := Get(d, "notes", JStr(""));
    var searchQuery := Get(d, "search_query", JStr(""));
    assert Len(notes) == Some(|notes.s|) && Len(searchQuery) == Some(|searchQuery.s|);
  }

  /** Every body that lacks `feedback_type` is refused. */
  lemma MissingFeedbackTypeRefused(fields: map<string, Json>)
    requires "feedback_type" !in fields
    ensures !ValidateFeedback(JObject(fields)).FeedbackRecorded?
  {
  }

  /** A body with a grant id but no `feedback_type` is rejected with 400. */
  lemma FeedbackWithoutTypeRejected(fields: Dict)
    requires "grant_id" in fields && Truthy(fields["grant_id"])
    requires "feedback_type" !in fields
    ensures ValidateFeedback(JObject(fields)) == FeedbackRejected("Missing required field: feedback_type")
  {
    assert Truthy(JObject(fields)) by { assert "grant_id" in fields.Keys; }
  }

  /** A feedback type outside the four known ones is rejected with 400. */
  lemma UnknownFeedbackTypeRejected(fields: Dict)
    requires "grant_id" in fields && Truthy(fields["grant_id"])
    requires "feedback_type" in fields && Truthy(fields["feedback_type"])
    requires !fields["feedback_type"].JStr? || fields["feedback_type"].s !in FeedbackTypes
    ensures ValidateFeedback(JObject(fields)) == FeedbackRejected("Invalid feedback type")
  {
    assert Truthy(JObject(fields)) by { assert "grant_id" in fields.Keys; }
  }

  /** A known feedback type with a grant id that is not a positive int (a
      negative number, a string, a float) is rejected with 400. */
  lemma BadGrantIdRejected(fields: Dict)
    requires "grant_id" in fields && Truthy(fields["grant_id"]) && PositiveId(fields["grant_id"]).None?
    requires "feedback_type" in fields && fields["feedback_type"].JStr? && fields["feedback_type"].s in FeedbackTypes
    ensures ValidateFeedback(JObject(fields)) == FeedbackRejected("Invalid grant ID")
  {
    assert Truthy(JObject(fields)) by { assert "grant_id" in fields.Keys; }
    assert Truthy(fields["feedback_type"]) by { assert fields["feedback_type"].s != []; }
  }

  /** Otherwise valid feedback whose notes exceed 500 characters is rejected
      with 400. */
  lemma LongNotesRejected(fields: Dict)
    requires "grant_id" in fields && PositiveId(fields["grant_id"]).Some?
    requires "feedback_type" in fields && fields["feedback_type"].JStr? && fields["feedback_type"].s in FeedbackTypes
    requires "notes" in fields && fields["notes"].JStr? && |fields["notes"].s| > 500
    ensures ValidateFeedback(JObject(fields)) == FeedbackRejected("Notes too long (maximum 500 characters)")
  {
    assert Truthy(JObject(fields)) by { assert "grant_id" in fields.Keys; }
    assert Truthy(fields["feedback_type"]) by { assert fields["feedback_type"].s != []; }
  }

  /** A body with a known type, a positive grant id (or `true`, which is the
      int 1 in Python), string notes of at most 500 characters and a string
      search query of at most 200 is recorded as given, a missing notes or
      search query being recorded as empty. */
  lemma ValidFeedbackRecorded(fields: Dict)
    requires "grant_id" in fields && PositiveId(fields["grant_id"]).Some?
    requires "feedback_type" in fields && fields["feedback_type"].JStr? && fields["feedback_type"].s in FeedbackTypes
    requires "notes" !in fields || (fields["notes"].JStr? && |fields["notes"].s| <= 500)
    requires "search_query" !in fields || (fields["search_query"].JStr? && |fields["search_query"].s| <= 200)
    ensures ValidateFeedback(JObject(fields)) ==
      FeedbackRecorded(PositiveId(fields["grant_id"]).value, fields["feedback_type"].s,
                       Get(fields, "notes", JStr("")).s, Get(fields, "search_query", JStr("")).s)
  {
    assert Truthy(JObject(fields)) by { assert "grant_id" in fields.Keys; }
    assert Truthy(fields["feedback_type"]) by { assert fields["feedback_type"].s != []; }
  }
}
