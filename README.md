# Biotools grant matcher: a verified model of its core

The grant matcher finds SBIR awards and solicitations that fit a biology
tool ("biotools"). A scraper pulls records from the SBIR API, classifies
them against a taxonomy of tool types and focus areas, and stores them as
rows of a `grants` table. A Flask backend ranks the stored grants against
a query and a taxonomy selection. An older scraper and a simpler backend
sit beside them. This project models the deterministic core of those
programs in Dafny and proves what each part promises.

Modules, by source file:

- `main.py`, the search backend:
  - `Cache`: `SimpleCache` as a class with two maps that are updated in
    place. It has a time-to-live, a size bound and oldest-first eviction.
    The clock is a parameter.
  - `Taxonomy`: the taxonomy tables of `EnhancedBiotoolsMatcher` and the
    relevance predicates built on them.
  - `MatcherTerms`: term extraction.
  - `MatcherQuery`: the query builders for browse mode and search mode.
  - `MatcherKeyword`: the keyword score.
  - `MatcherScores`: the taxonomy-alignment and semantic scores.
  - `MatcherSearch`: record typing, the result filters and the
    scoring/threshold/sort/limit loop of `search_grants`. The grants table
    is the input.
  - `ApiValidation`: the checks of the `/api/search` and `/api/feedback`
    handlers.
- `app/scraper.py`, the SBIR scraper:
  - `ScraperRelevance`: the compound-keyword classifier, the suggestions,
    the agency alignment, the program pre-filter and the per-batch award
    filter.
  - `ScraperTables`: the suggestion finding applied to the scraper's own
    tables.
  - `ScraperRecords`: solicitation de-duplication.
  - `ScraperRows`: the row dicts built by `save_awards` and
    `save_solicitations`.
- `app/scraper_backup_20250616_124216.py`, the older scraper:
  `LegacyScraper`, holding its relevance test, keyword extractor, NSF
  response unwrapping and the NSF and NIH parsers.
- `app.py`, the simpler backend: `SimpleApp`, holding
  `calculate_relevance`, the SQL statement and parameters, the ranking and
  the empty-query check.
- `biotools_filter_debug.py`: `FilterDebug`, holding its keyword test and
  capped score.
- Shared modules:
  - `Text`: Python's string operations on ASCII text.
  - `JsonValue`: JSON values with Python truthiness and slicing, and
    `str()`, `int()` and `float()` on the plain decimal text and the whole
    numbers the records hold (see "Left out" for the rest).
  - `Sorting`: a stable descending sort by key.
  - `Options`: the Option type.

Python exceptions are modelled as `None` or as an explicit outcome. An
exception the code catches becomes `Skipped` or a 500 answer. One that
escapes the award loop of `app/scraper.py` becomes `Crash`, and the
whole fetch of that agency's awards fails.

Scores keep the source's values, with two exceptions:
- The scores of `app/scraper.py` move in steps of 1.5, 4.0 and 2.0.
  They are kept as natural numbers that are twice the Python value.
- The filter diagnostic's capped score and the weighted sums of
  `search_grants` are reals.

Loops in the source are methods with loop invariants. Each is proved to
compute a specification function, and the lemmas about that function
carry the properties.

Four behaviours of the code worth knowing, each stated as a lemma:
- `Taxonomy.InstrumentGenomicsNeedsSequencer`: the instrument/genomics
  cross-domain combination of `main.py` lists "PCR" and "DNA analyzer",
  which never occur in the lower-cased text it is compared with.
- `LegacyScraper.NihAmountOfDecimal`: the older NIH parser reads "1.5" as
  0, where the NSF parser reads it as 1.
- `SimpleApp.BuildSearch`: the terms reach the SQL only as bound
  parameters.
- `LegacyScraper.RelevantIffMatched`: the older relevance test runs on
  `title + " " + abstract`. So a term that spans the joining space makes a
  record relevant: "cell analysis" matches a title ending in "cell" and an
  abstract starting with "analysis".

## Model

| member | source | states |
|---|---|---|
| Sorting.InsertDesc | main.py:703 | inserting one element gives a list one longer holding the same elements plus that one |
| Sorting.SortDesc | app.py:73 | `sort(key=..., reverse=True)` returns a list of the same length that is a permutation of the input |
| Sorting.InsertSorted | main.py:703 | inserting into a list sorted by key, largest first, keeps it sorted |
| Sorting.SortDescSorted | app.py:73 | the sorted list has non-increasing keys |
| Sorting.SortDescMembers | app.py:73 | an element is in the sorted list exactly when it is in the input |
| Sorting.SortedPrefix | main.py:703-706 | the first `n` results of a sorted list are still sorted |
| Sorting.KeyFilter | main.py:703 | the elements of one key, in list order, are elements of the list with that key |
| Sorting.InsertFilter | main.py:703 | inserting into a sorted list puts the new element behind every element of equal key |
| Sorting.SortDescStable | app.py:73 | the sort is stable: the elements of any one key keep their list order |
| JsonValue.AmountOf | app/scraper.py:800-806 | `int(float(str(v)))` with the exception turned into 0: an int stays itself and `None`, a list or a dict gives 0 |
| JsonValue.ToInt | main.py:577 | `int(v)` keeps an int and raises on `None`, a list or a dict |
| JsonValue.Len | main.py:1286 | `len(v)` of a string is its length; `None`, numbers and booleans have none |
| JsonValue.Slice | app/scraper.py:793 | `v[:n]` of a string is its first `n` characters, and only strings and lists can be sliced |
| Cache.SimpleCache.constructor | main.py:68-72 | a new cache has empty `cache` and `timestamps` maps and keeps the given size bound and time-to-live |
| Cache.SimpleCache.Get | main.py:74-81 | a fresh entry (age below the TTL) is returned and nothing changes; an expired entry is deleted from both maps and `None` is returned; a missing key gives `None` and no change; both maps keep the same keys |
| Cache.SimpleCache.OldestKey | main.py:85-86 | the key picked by `min(timestamps, key=...)` has a timestamp no larger than any other |
| Cache.SimpleCache.Set | main.py:83-91 | below the bound the entry is added or replaced; at the bound the entry with the oldest timestamp is removed first and then the new one added, so the size never exceeds `max_size`; the write fails, changing nothing, only where `min` raises on a full cache with no timestamps |
| Cache.SimpleCache.Clear | main.py:93-95 | both maps become empty |
| ApiValidation.CapLimit | main.py:1055 | `min(limit, 50)` exists exactly when the limit is a number, is at most 50, and is the limit itself when that is at most 50 |
| ApiValidation.AcceptedSearchIsValid | main.py:1044-1088 | an accepted search body has a non-empty tool type list and focus area list, a limit of at most 50, a stripped query, and a query of at least two characters unless browsing, with no suspicious pattern in it |
| ApiValidation.CheckAccepted | main.py:1064-1083 | whatever passes the 400 checks has both taxonomy lists, is browsing or has a query of two or more characters, and is free of every suspicious pattern |
| ApiValidation.MissingTaxonomyRejected | main.py:1064-1072 | a body without tool types or without focus areas is answered 400 |
| ApiValidation.WellFormedChecked | main.py:1053-1061 | a body with a string query, a dictionary of filters and an int limit or none reaches the taxonomy, length and pattern checks with the stripped query and the capped limit |
| ApiValidation.ShortQueryRejected | main.py:1075-1076 | outside browse mode a stripped query shorter than two characters gives "Query too short (minimum 2 characters)" |
| ApiValidation.SuspiciousQueryRejected | main.py:1079-1083 | a query holding `union`, `select`, `drop`, `delete`, `insert`, `--`, `/*`, `*/` or `;` in any letter case is answered 400 |
| ApiValidation.CheckSuspicious | main.py:1079-1083 | the 400 checks turn away a non-empty query whose lower-cased form holds a suspicious pattern |
| ApiValidation.LimitCapped | main.py:1055 | an int limit `n` becomes `50` when `n > 50` and stays `n` otherwise |
| ApiValidation.EmptyQueryBrowses | main.py:1054-1061 | an empty query with both taxonomy lists is accepted, in browse mode, with the default limit 20 |
| ApiValidation.CheckEmptyBrowses | main.py:1061-1078 | the 400 checks accept an empty query with both taxonomy lists as a browse request |
| ApiValidation.CleanQueryAccepted | main.py:1053-1086 | a well-formed body with both taxonomy lists and a stripped query of two or more characters holding no suspicious pattern is accepted with that stripped query |
| ApiValidation.PositiveId | main.py:1282-1284 | a grant id passes only as a positive int (`True` counting as the int 1) |
| ApiValidation.RecordedFeedbackIsValid | main.py:1262-1292 | recorded feedback has a known feedback type, a positive grant id, notes of at most 500 characters and a search query of at most 200 |
| ApiValidation.MissingFeedbackTypeRefused | main.py:1271-1274 | a body without `feedback_type` is never recorded |
| ApiValidation.FeedbackWithoutTypeRejected | main.py:1271-1274 | a body with a truthy grant id and no `feedback_type` gets "Missing required field: feedback_type" |
| ApiValidation.UnknownFeedbackTypeRejected | main.py:1276-1279 | a feedback type other than `helpful`, `not_helpful`, `applied` or `bookmarked` gets "Invalid feedback type" |
| ApiValidation.BadGrantIdRejected | main.py:1281-1283 | with a known type, a grant id that is not a positive int gets "Invalid grant ID" |
| ApiValidation.LongNotesRejected | main.py:1286-1288 | otherwise valid feedback whose notes exceed 500 characters gets "Notes too long (maximum 500 characters)" |
| ApiValidation.ValidFeedbackRecorded | main.py:1262-1292 | a body with a known type, a positive grant id, short string notes and a short search query is recorded with exactly those values |
| FilterDebug.RelevanceScore | biotools_filter_debug.py:34-60 | the score lies between 0 and the cap 10; it is the uncapped sum when that is at most 10 and 10 otherwise (`min(score, 10.0)`), the sum being 3 per high-value term, 1.5 per medium-value term and 1 per keyword occurring in the lower-cased `title description keywords` |
| FilterDebug.CalculateBiotoolsRelevanceScore | biotools_filter_debug.py:34-60 | the three accumulator loops and the `min` cap compute `RelevanceScore` |
| FilterDebug.EmptyNotRelevant | biotools_filter_debug.py:28-30 | `is_biotools_relevant("")` is false |
| FilterDebug.ValueTermsAreKeywords | biotools_filter_debug.py:12-26 | every high-value and every medium-value term is also one of `biotools_keywords` |
| FilterDebug.NothingFoundScoresZero | biotools_filter_debug.py:34-60 | when no term of the three lists occurs, the score is 0 |
| FilterDebug.PositiveIffRelevant | biotools_filter_debug.py:28-60 | the score is positive if and only if the joined text passes `is_biotools_relevant` |
| FilterDebug.TitleTermCombined | biotools_filter_debug.py:36 | a term of the lower-cased title is a term of the lower-cased joined text |
| FilterDebug.HighValueFound | biotools_filter_debug.py:48-58 | a high-value term found earns at least 4 points before the cap (its 3 and the 1 of the same keyword) |
| FilterDebug.HighValueTitleScores | biotools_filter_debug.py:34-60 | a high-value term anywhere in the title, in any letter case, gives a score of at least 4 |
| SimpleApp.TitlePoints | app.py:83-84 | the title earns either nothing or exactly 10 |
| SimpleApp.DescriptionPoints | app.py:94-95 | the description earns either nothing or exactly 2 |
| SimpleApp.CalculateRelevance | app.py:77-96 | `calculate_relevance` lower-cases the query once and computes `Relevance`: 10 for a title holding the query, 5 per query word found in the keywords, 2 for a description holding the query |
| SimpleApp.ScoreQuery | app.py:79-96 | the accumulator steps over the lower-cased query compute `Score` |
| SimpleApp.KeywordPointsBounded | app.py:87-91 | the keywords earn at most 5 per word of the query |
| SimpleApp.RelevanceBounded | app.py:77-96 | the score is at most 12 plus 5 per search term |
| SimpleApp.RelevanceIgnoresQueryCase | app.py:80 | lower-casing the query first does not change the score |
| SimpleApp.TitleMatchScores | app.py:83-84 | a title holding the query, in any letter case, gives a score of at least 10 |
| SimpleApp.EmptyListingScoresZero | app.py:83-95 | a row whose title, keywords and description are all NULL scores 0 |
| SimpleApp.BuildSearch | app.py:36-58 | the statement is fixed by the number of lower-cased query words alone (no query text reaches the SQL) and the parameters are three `%term%` patterns per term, then the limit |
| SimpleApp.BuildStatement | app.py:39-58 | the loop over the terms builds the statement for that many terms and the parameters `SearchParams(terms, limit)` |
| SimpleApp.ConditionSlots | app.py:43-57 | each term condition holds three placeholders, the joining `AND` none, the tail and the unconditioned statement one each |
| SimpleApp.WhereSlots | app.py:48 | `n` conditions joined by `AND` hold `3 n` placeholders |
| SimpleApp.PatternsLength | app.py:45 | the patterns are three per term |
| SimpleApp.PlaceholdersMatchParams | app.py:36-58 | for every query the statement has exactly as many placeholders as parameters are bound |
| SimpleApp.PatternsOfTerm | app.py:45 | the three parameters of term `k` sit at positions `3k`, `3k+1` and `3k+2` and are its `%term%` pattern |
| SimpleApp.BlankQueryNoTerms | app.py:36 | a query made only of whitespace has no terms |
| SimpleApp.NoTermsUnconditioned | app.py:56-58 | a query without terms runs `SELECT * FROM grants ORDER BY updated_at DESC LIMIT ?` with the limit alone |
| SimpleApp.UnconditionedRendered | app.py:57 | the statement without conditions renders as that text and one placeholder |
| SimpleApp.ScoreAll | app.py:65-70 | every returned row is kept, in database order, with its own relevance score |
| SimpleApp.SearchGrants | app.py:29-75 | the statement and parameters are those of `BuildSearch`; the rows come back sorted by score, largest first, are a permutation of the scored rows, and rows of any one score keep database order |
| SimpleApp.SearchRequest | app.py:133-141 | a body is searched exactly when it is a dict whose query is a string that is not blank once stripped, and then with the stripped query and the given limit or 20; reading a body that is not a dict, or a query that is not a string, raises (500) |
| SimpleApp.BlankQueryRejected | app.py:134-138 | an empty or whitespace-only query gets 400 "Query is required" |
| Taxonomy.ExcludedTerms | main.py:847-850 | every term of every excluded domain is among the terms the semantic score checks |
| Taxonomy.Find | main.py:357-358 | `table[name]` is found only when some category has that name, and is then that category; when it is not found no category has the name |
| Taxonomy.SelectionHasMatch | main.py:357-373 | the loop over the selected names and their keywords, stopping at the first hit, answers exactly whether some selected, known category has a keyword in the text |
| Taxonomy.HasBiotoolsRelevance | main.py:350-377 | `_has_biotools_relevance` holds exactly when the lower-cased text holds a keyword of a selected tool type and a keyword of a selected focus area |
| Taxonomy.IsBiotoolsTermCaseless | main.py:324-348 | `_is_biotools_term` gives the same answer for a term and its lower-cased form |
| Taxonomy.CompoundFragmentHeld | main.py:337-346 | every fragment of a compound term of a table, lower-cased, is held by that table's compounds |
| Taxonomy.CompoundFragmentIsTerm | main.py:324-348 | every fragment of a tool-type or focus-area compound term passes `_is_biotools_term`, because the test is a substring test |
| Taxonomy.PhraseRelevanceCaseless | main.py:464-482 | `_is_phrase_biotools_relevant` gives the same answer for a phrase and its lower-cased form |
| Taxonomy.PhraseOfSelectedCompound | main.py:467-473 | a phrase that spells out, in any letter case, a compound term of a selected tool type is relevant |
| Taxonomy.CombinationTerms | main.py:860-870 | the terms are found only for a `(tool_type, focus_area)` key of the combination table, and none are found when no entry has that key |
| Taxonomy.InstrumentGenomicsNeedsSequencer | main.py:857-873 | on lower-cased text the instrument/genomics combination holds exactly when "sequencer" occurs: "PCR" and "DNA analyzer" hold upper-case letters and never match |
| MatcherTerms.Depunctuate | main.py:300 | `re.sub(r'[^\w\s]', ' ', text)` keeps the length, keeps every word character and whitespace, and turns every other character into a space |
| MatcherTerms.KeptBy | main.py:314-320 | the kept words pass the filter, come from the word list, and keep their order |
| MatcherTerms.KeepWords | main.py:314-320 | the loop over the words keeps exactly `KeptBy(keep, words)` |
| MatcherTerms.ExtractBiotoolsTerms | main.py:295-322 | `_extract_biotools_terms` computes `BiotoolsTerms`: nothing for an empty text, else the filtered words of the depunctuated text |
| MatcherTerms.ExtractedTermsAreKept | main.py:295-322 | every extracted term is a whitespace-free word of the depunctuated text, longer than two characters, not a stop word in any letter case, and a biotools term |
| MatcherTerms.KeptByComplete | main.py:314-320 | every word that passes the filter is kept |
| MatcherTerms.ExtractedTermsComplete | main.py:295-322 | every word of the depunctuated text that passes the filter is extracted |
| MatcherTerms.NoTermsFromPunctuation | main.py:300-301 | a text of whitespace and punctuation only gives no term |
| MatcherQuery.HeadKeywords | main.py:720-727 | the leading keywords of the selections number at most three per selected name |
| MatcherQuery.ExtendHeadKeywords | main.py:720-727 | the loop over one taxonomy's selections appends, to the terms so far, the first three keywords of each selected, known category in selection order |
| MatcherQuery.CreateTaxonomyQuery | main.py:715-729 | `_create_taxonomy_query` computes `TaxonomyQuery`: the first ten of those keywords, tool types first, joined by spaces |
| MatcherQuery.CollectQueryTerms | main.py:717-727 | both loops give the tool-type keywords followed by the focus-area keywords |
| MatcherQuery.HeadKeywordsFromSelection | main.py:720-727 | every collected term is one of the first three keywords of some selected, known category |
| MatcherQuery.TaxonomyQueryTermsFromSelection | main.py:715-729 | the browse query has at most ten terms, and each is a leading keyword of a selected tool type or focus area |
| MatcherQuery.RelevantCompounds | main.py:739-742 | the relevant compounds are compounds of the category, each sharing a word of its own (as written, not lower-cased) with the lower-cased query |
| MatcherQuery.ExpansionTerms | main.py:736-754 | the expansion adds at most two compounds per selected name |
| MatcherQuery.ExpansionIn | main.py:733-754 | the expansion of both taxonomies adds at most two terms per selected tool type and focus area |
| MatcherQuery.CollectRelevantCompounds | main.py:739-742 | the inner loop keeps, in table order, exactly the relevant compounds |
| MatcherQuery.ExtendExpansion | main.py:736-744 | the loop over one taxonomy's selections appends the first two relevant compounds of each selected, known category |
| MatcherQuery.ExpandBiotoolsQuery | main.py:731-756 | `_expand_biotools_query` computes `ExpandedQuery`: the query, then the tool-type expansion, then the focus-area expansion, joined by spaces |
| MatcherQuery.CollectExpansion | main.py:733-754 | both loops give the query followed by the expansion terms of both tables |
| MatcherQuery.ExpansionTermsRelevant | main.py:736-754 | every expansion term is a compound of a selected, known category that shares a word with the query |
| MatcherQuery.ExpandedQueryStartsWithQuery | main.py:733 | the expanded query starts with the query itself |
| MatcherKeyword.LowerField | main.py:395-396 | a field is skipped exactly when it is falsy, is lower-cased when it is a string, and raises exactly when it is truthy but not a string |
| MatcherKeyword.LongWords | main.py:387 | the query words kept are words of the query longer than three characters |
| MatcherKeyword.AgencyBonus | main.py:453-460 | the agency bonus is 0 or 3 |
| MatcherKeyword.ScoreField | main.py:395-407 | one field block (phrase test, then the loop over the query words) computes `FieldTally`: the phrase points when the whole query occurs and passes the gate, plus the word points per word that passes the word test and occurs as a whole word |
| MatcherKeyword.ScoreAgency | main.py:453-460 | the agency loop, stopping at the first named agency whose programs occur in the description, computes `AgencyBonus`, raising on a description that is not a string |
| MatcherKeyword.KeywordScoreOf | main.py:379-462 | `_calculate_biotools_keyword_score` computes `KeywordScore`, with the phrase relevance of the lower-cased query, the biotools term test and the agency table of the matcher |
| MatcherKeyword.ScoreQuery | main.py:382-462 | the steps of the keyword score compute `QueryScore`: 0 for a blank query or one without long words, else the field blocks and the agency bonus |
| MatcherKeyword.QueryWords | main.py:387 | the list comprehension keeps exactly `LongWords` of the split query |
| MatcherKeyword.ScoreWords | main.py:389-462 | once the words are known, the score is the four field tallies finished by `Finish`, and `None` when a field raises |
| MatcherKeyword.FinishScore | main.py:452-462 | the end of the score is 0 without a match, else the points plus the agency bonus when the grant names an agency |
| MatcherKeyword.ScoreFields | main.py:394-450 | the title (25/12), keywords (10/6), description (8/3) and company (15/8) blocks run in that order, the company block without the relevance tests, and the first that raises ends the score |
| MatcherKeyword.WordPointsOfHit | main.py:404-407 | a word hit earns at least the word increment |
| MatcherKeyword.FieldTallyOfMatch | main.py:395-450 | a field that matched earned at least the smaller of its two increments |
| MatcherKeyword.FieldsTallyOfMatch | main.py:394-450 | a match in any of the four fields means at least 3 points |
| MatcherKeyword.WordsScoreNeedsMatch | main.py:452-462 | the score is 0 or at least 3, so the agency bonus never stands alone |
| MatcherKeyword.KeywordScoreNeedsMatch | main.py:379-462 | the keyword score, when it does not raise, is 0 or at least 3 |
| MatcherKeyword.QueryScoreNeedsMatch | main.py:382-462 | for any phrase relevance, term test and agency table the score is 0 or at least 3 |
| MatcherKeyword.LongWordsNone | main.py:387 | words of at most three characters leave no query word |
| MatcherKeyword.KeywordScoreOfShortWords | main.py:387-390 | a query whose words all have at most three characters scores 0 |
| MatcherKeyword.QueryScoreOfShortWords | main.py:387-390 | the same for any phrase relevance, term test and agency table |
| MatcherKeyword.TitleNotStringRaises | main.py:395-396 | a truthy title that is not a string makes the score raise |
| MatcherKeyword.NullDescriptionRaises | main.py:453-458 | a grant whose agency names NIH and whose description is NULL makes the agency bonus raise: `grant.get('description', '')` returns `None` |
| MatcherScores.Semantic | main.py:844-855 | the final semantic step is at most 25, is at least the capped raw score when there is no penalty, and is 0 once the penalty reaches the raw score plus the largest cross-domain bonus |
| MatcherScores.AddTermPoints | main.py:770-777 | the inner loop adds `pts` for each term occurring in the text, as `TermPoints` |
| MatcherScores.AddSelectionPoints | main.py:765-792 | the loop over one taxonomy's selections adds the keyword and compound points of each selected, known category, as `SelectionPoints` |
| MatcherScores.TaxonomyAlignmentScore | main.py:758-798 | `_calculate_taxonomy_alignment_score` computes `AlignmentScore` on the lower-cased combined text and is at most 20 |
| MatcherScores.AlignmentLoops | main.py:761-798 | 2 per keyword and 4 per compound of each selection, 3 more for several tool types and several focus areas, capped at 20, over any pair of tables |
| MatcherScores.CrossDomainBonus | main.py:838-842 | the nested loop adds 2 for each (tool type, focus area) pair with cross-domain relevance, as `CrossBonus` |
| MatcherScores.BiotoolsSemanticScore | main.py:800-855 | `_calculate_biotools_semantic_score` computes `SemanticScore` on the lower-cased combined text and is at most 25 |
| MatcherScores.SemanticLoops | main.py:803-855 | 3 per keyword and 5 per compound of each selection, the cross-domain bonus capped at 10, 5 off per excluded-domain term found, floored at 0 and capped at 25, over any tables |
| MatcherScores.TermPointsOfOccurrence | main.py:770-772 | a term that occurs earns its points |
| MatcherScores.TermPointsNone | main.py:848-851 | when no term occurs there are no points (in particular no contamination penalty) |
| MatcherScores.SelectionPointsOfMatch | main.py:765-772 | a selection whose keyword occurs contributes at least the keyword increment |
| MatcherScores.SelectionPointsOfMatches | main.py:765-792 | selections with a matching keyword earn at least the keyword increment |
| MatcherScores.SelectionPointsUnknown | main.py:766 | selections that are not in the table earn nothing |
| MatcherScores.AlignmentOfRelevantGrant | main.py:758-798 | a grant that passes `_has_biotools_relevance` has an alignment score of at least 4 |
| MatcherScores.AlignmentOfMatches | main.py:761-798 | against any tables, a keyword match in both selections gives an alignment of at least 4 |
| MatcherScores.AlignmentOfUnknownSelections | main.py:765-798 | when no selection is in the taxonomy, alignment is 3 with several tool types and several focus areas, else 0 |
| MatcherScores.AlignmentOfUnknown | main.py:765-798 | the same over any pair of tables |
| MatcherScores.SemanticOfRelevantText | main.py:800-855 | a text holding a keyword of a selected tool type and of a selected focus area and no excluded-domain term has a semantic score of at least 6 |
| MatcherScores.SemanticOfCleanMatches | main.py:803-855 | the same over any tables and excluded terms |
| MatcherScores.SemanticOfMatches | main.py:803-855 | keyword matches in both selections and a zero penalty give a semantic score of at least 6 |
| MatcherSearch.DataTypeOrder | main.py:540-550 | a non-empty `grant_type` is returned unchanged; otherwise the record is a solicitation exactly when it has a solicitation number, an `open` or `active` status or a close date, and an award exactly when it has none of them |
| MatcherSearch.CloseDateMeansSolicitation | main.py:545-548 | without a `grant_type`, a record with a close date is a solicitation whatever else it holds |
| MatcherSearch.Selection | main.py:606-607 | a string selection is iterated character by character, a list selection gives one name per element; any other selection (including a dict) raises |
| MatcherSearch.SelectionItems | main.py:606-607 | a list selection keeps one name per element, each string element standing for itself |
| MatcherSearch.FilterGrants | main.py:557-598 | the filtered grants are no more than the input, keep their order, come from the input, and each passes every filter |
| MatcherSearch.ApplyFiltersResult | main.py:552-598 | `_apply_filters` never returns more grants than it is given |
| MatcherSearch.ApplyFiltersKeeps | main.py:552-598 | a grant that passes the filters, or any grant when there are no filters, survives `_apply_filters` |
| MatcherSearch.ApplyFilters | main.py:552-598 | `_apply_filters` computes `ApplyFiltersResult`, and returns the grants unchanged when there are no filters |
| MatcherSearch.FilterRaisedStays | main.py:559-596 | once a filter raises on one grant, the whole call raises |
| MatcherSearch.FilterGrantsComplete | main.py:557-598 | every grant that passes the filters is kept |
| MatcherSearch.KeptGrantMeetsFilters | main.py:561-572 | a kept grant with an agency holds the requested agency in any letter case, and a kept grant whose amount is a number has at least the requested minimum amount |
| MatcherSearch.ScoredGrants | main.py:638-696 | the scored grants are no more than the rows, and each is the row of a grant that the loop body kept |
| MatcherSearch.ScoredGrantsAppend | main.py:638-696 | the rows scored from two stretches of the table are those of the first stretch followed by those of the second: table order is kept |
| MatcherSearch.ScoredGrantsComplete | main.py:638-696 | every grant that the loop body keeps contributes its row |
| MatcherSearch.SliceLimit | main.py:707 | `rows[:limit]` is a prefix of the rows, at most `limit` long for a non-negative int limit |
| MatcherSearch.Ranked | main.py:702-707 | the results are exactly the first `limit` rows of the kept rows sorted by descending score (all of them without a limit): sorted, at most `limit` many, each a kept row |
| MatcherSearch.RankedBest | main.py:702-707 | a kept row cut by the limit scores no higher than any result |
| MatcherSearch.RankedAll | main.py:702-707 | with a limit of at least the number of kept rows, or none, every kept row is returned |
| MatcherSearch.RankedStable | main.py:703 | without a cut, rows of equal score keep the loop's order |
| MatcherSearch.RankedFrom | main.py:631-711 | inside the `try`, the results are sorted by descending score, at most `limit` many, and each is the row of a grant of the table that the loop kept; `RankedFromComplete` and `RankedFromBest` add that a kept grant is returned when the limit is absent or at least the table size, and that a dropped one scores no higher than any returned |
| MatcherSearch.RankedFromComplete | main.py:631-711 | a row the loop keeps that passes the filters is returned when the limit is at least the table size or absent |
| MatcherSearch.RankedFromBest | main.py:631-711 | a row the loop keeps that passes the filters but is not returned scores no higher than any result |
| MatcherSearch.ScoreGrants | main.py:638-696 | the scoring loop computes `ScoredGrants` |
| MatcherSearch.ScoredRaisedStays | main.py:640-696 | once a score raises on one row, the whole loop raises |
| MatcherSearch.RankGrants | main.py:631-711 | the body of the `try` (scoring loop, filters, sort, cut, and the empty list on an exception) computes `RankedFrom` |
| MatcherSearch.SearchGrants | main.py:600-711 | `search_grants` computes `SearchGrantsResult` for any matcher, including the `len()` of the warning raising on a falsy selection that has no length |
| MatcherSearch.SearchNeedsTaxonomy | main.py:610-613 | without a tool type or a focus area the search returns no result when both selections have a length (`[]`, `""`), and raises when one has none (`None`, `0`, `False`) |
| MatcherSearch.SearchResultsRanked | main.py:600-711 | the results are sorted by descending relevance score, at most `limit` many, and, with both selections given, are those of `RankedResults` on the iterated selections |
| MatcherSearch.KeptStepMeans | main.py:643-696 | a grant the loop keeps passed the data-type filter and the relevance gate, scored above 2 in browse mode or 3 in search mode, and comes out with its rounded score, its inferred type and the mode added |
| MatcherSearch.BiotoolsKeptMatchesBoth | main.py:652-656 | with the source's matcher, a kept grant's lower-cased text holds a keyword of a selected tool type and a keyword of a selected focus area |
| MatcherSearch.SearchResultsRelevant | main.py:600-711 | every result is the row of a grant of the table that the loop body kept; the converse, when the limit is absent or at least the table size, is `SearchResultsComplete`, and `SearchResultsBest` says a dropped kept row scores no higher than any returned |
| MatcherSearch.SearchResultsComplete | main.py:600-711 | a grant the loop keeps that passes the filters is among the results when the limit is at least the table size or absent |
| MatcherSearch.SearchResultsBest | main.py:600-711 | a grant the loop keeps that passes the filters but is left out scores no higher than any result |
| ScraperRecords.KeyOf | app/scraper.py:664-670 | a value can be a dict key exactly when it is not a list or a dict; equal numbers, `True` and `1` among them, make one key |
| ScraperRecords.Dedup | app/scraper.py:661-672 | the unique solicitations come from the collected ones, and each has a hashable key seen among them |
| ScraperRecords.DedupDistinct | app/scraper.py:669-672 | the kept solicitations have pairwise distinct keys |
| ScraperRecords.DedupInOrder | app/scraper.py:672 | the kept solicitations keep their collection order |
| ScraperRecords.DedupKeepsFirst | app/scraper.py:669-670 | the first solicitation with a given key is kept |
| ScraperRecords.DedupFails | app/scraper.py:669 | de-duplication raises exactly when some solicitation's key is a list or a dict |
| ScraperRecords.DedupSolicitations | app/scraper.py:661-672 | the loop computes `Dedup` with the key `solicitation_number`, else `solicitation_id`, else `id`, else `"{agency}_{solicitation_title}"`, rendered with placeholders for lists, dicts and fractional floats |
| ScraperRecords.DedupBy | app/scraper.py:661-672 | the loop, with the dict modelled by its key set and its values in insertion order, computes `Dedup` for any key function |
| ScraperRecords.DedupFailsLater | app/scraper.py:662-670 | once a prefix raises, the whole loop raises |
| ScraperRelevance.MatchedTerms | app/scraper.py:342-345 | the matched compounds are no more than the list, and each is a compound of the list occurring, lower-cased, in the text |
| ScraperRelevance.MatchedTermsComplete | app/scraper.py:343-345 | every compound that occurs, lower-cased, in the text is matched |
| ScraperRelevance.MatchedTermsInOrder | app/scraper.py:342-345 | the matched compounds keep the order of the list |
| ScraperRelevance.DomainHits | app/scraper.py:355-357 | each hit of one domain pairs the domain's name with one of its terms that occurs in the text |
| ScraperRelevance.ExcludedHits | app/scraper.py:353-357 | each excluded hit pairs a domain of the table with one of its terms that occurs in the text |
| ScraperRelevance.DomainHitsComplete | app/scraper.py:355-357 | every term of a domain that occurs is a hit of that domain |
| ScraperRelevance.ExcludedHitsComplete | app/scraper.py:353-357 | every excluded term that occurs is reported with its domain |
| ScraperRelevance.Boost | app/scraper.py:369-372 | the confidence boost counts at most the five specific terms |
| ScraperRelevance.Suggestions | app/scraper.py:409-416 | no matched keyword means no suggestion |
| ScraperRelevance.SuggestionsDistinct | app/scraper.py:413-414 | a suggestion list never names an entry twice |
| ScraperRelevance.SuggestionsMembers | app/scraper.py:409-416 | a name is suggested exactly when an entry of that name has an indicator held by a matched keyword |
| ScraperRelevance.SuggestionsInOrder | app/scraper.py:410 | the suggestions follow the mapping's order |
| ScraperRelevance.UpperIndicatorNeverFires | app/scraper.py:412 | as written, an indicator holding a capital letter is never found in the lower-cased keyword |
| ScraperRelevance.LoweredIndicatorFires | app/scraper.py:409-416 | with the indicators lower-cased, an entry is suggested for every matched keyword that holds one of its indicators in any letter case |
| ScraperRelevance.SuggestionsAreNames | app/scraper.py:409-416 | every suggestion is a name of the mapping |
| ScraperTables.CapitalIndicatorsAsWritten | app/scraper.py:399-430 | the tables' indicators `DNA`, `CRISPR` (genomics), `16S` (microbiome), `PCR` and `ELISA` (assay) fire for no keyword |
| ScraperTables.RealTimePcrAsWritten | app/scraper.py:92-148 | the compound keyword `real-time PCR` is in the list, and with the tables as written it does not suggest `assay` |
| ScraperTables.RealTimePcrLowered | app/scraper.py:399-416 | with the indicators lower-cased, as in the corrected vocabulary `Scraper`, `real-time PCR` suggests `assay` |
| ScraperTables.AssayIndicatorsMissed | app/scraper.py:399-400 | a keyword lacking the letters y, s, d, u, b and w fires no `assay` indicator as written |
| ScraperTables.AssayNotSuggested | app/scraper.py:409-416 | such a keyword, matched alone, does not suggest `assay` as written |
| ScraperRelevance.AssessMatched | app/scraper.py:341-350 | the matched keywords keep the list order and are exactly the compounds that occur, lower-cased, in the lower-cased `title description keywords` |
| ScraperRelevance.AssessExcluded | app/scraper.py:352-361 | the excluded hits are exactly the excluded terms that occur, each with its domain, and the penalty is 4.0 per hit |
| ScraperRelevance.AssessScore | app/scraper.py:352-376 | the penalty is 4.0 per excluded hit and the final score is exactly the compound points less the penalty, floored at 0; without a match the score and the confidence are 0, nothing is suggested and the record is not relevant |
| ScraperRelevance.AssessConfidence | app/scraper.py:363-372 | with a match the confidence is exactly `min(2 * matches, 10)` plus 2.0 per specific term some matched compound holds (so at most 2.0 per specific term); without a match it is 0 |
| ScraperRelevance.RelevantMeans | app/scraper.py:378-384 | an accepted record has at most one excluded hit, compound points above the penalty by more than 3.0, and two matches or one match holding a specific term |
| ScraperRelevance.SingleShortMatchRejected | app/scraper.py:378-384 | a single matched compound of at most two words is never accepted |
| ScraperRelevance.MatchCompounds | app/scraper.py:342-348 | the compound loop computes `MatchedTerms` and 1.5 per word of each match |
| ScraperRelevance.FindExcluded | app/scraper.py:353-359 | the excluded-domain loops compute `ExcludedHits` and 4.0 per hit |
| ScraperRelevance.ScoreConfidence | app/scraper.py:363-372 | the confidence step computes `Confidence` |
| ScraperRelevance.Suggest | app/scraper.py:392-442 | `_suggest_tool_types` and `_suggest_focus_areas` compute `Suggestions` on their mapping |
| ScraperRelevance.IsBiotoolsRelevant | app/scraper.py:326-390 | `is_biotools_relevant` computes `Assess`: relevant when something matched, the score is above 3.0, there is at most one excluded hit and the confidence is above 2.0 |
| ScraperRelevance.AgencyAlignment | app/scraper.py:1761-1800 | the alignment exists exactly when the program, title and abstract can be lower-cased; an agency in neither table scores 0; no award scores more than 2 per expected program plus 1 per indicator |
| ScraperRelevance.MatchedTermsNone | app/scraper.py:1781-1783 | when no term occurs nothing is matched |
| ScraperRelevance.AlignmentWithoutExclusions | app/scraper.py:1775-1800 | without an excluded program in the text the floor never applies: the score is 2 per expected program plus 1 per indicator found |
| ScraperRelevance.MatchedCountStep | app/scraper.py:1776-1783 | one more program adds one more match exactly when it occurs, lower-cased, in the text |
| ScraperRelevance.OccurringCountStep | app/scraper.py:1795-1797 | one more indicator adds one more hit exactly when it occurs in the text |
| ScraperRelevance.AddPrograms | app/scraper.py:1776-1778 | the expected-program loop adds 2 for every expected program found, lower-cased, in the text |
| ScraperRelevance.SubtractExcluded | app/scraper.py:1781-1783 | the excluded-program loop takes off 3 for every excluded program found, lower-cased, in the text |
| ScraperRelevance.AddOccurring | app/scraper.py:1795-1797 | the indicator loop adds 1 for every indicator found in the text |
| ScraperRelevance.AlignmentLoops | app/scraper.py:1775-1798 | the three scoring loops compute `AlignmentPoints` |
| ScraperRelevance.CalculateAgencyAlignment | app/scraper.py:1761-1800 | `_calculate_agency_alignment` computes `AgencyAlignment` |
| ScraperRelevance.ProgramAligned | app/scraper.py:543-557 | an award without a program passes; with a program the test raises exactly when the program is not a string; an agency outside the table lets no award with a program through |
| ScraperRelevance.IsProgramAligned | app/scraper.py:546-554 | the pre-filter loop, stopping at the first expected program, computes `ProgramAligned` |
| ScraperRelevance.Annotate | app/scraper.py:566-574 | the kept award gains exactly the nine biotools fields, keeps every other field, and is marked `biotools_validated` |
| ScraperRelevance.SelectAwards | app/scraper.py:539-577 | a batch contributes no more awards than it holds, and each is one the loop body kept |
| ScraperRelevance.SelectAwardsAppend | app/scraper.py:539-577 | the awards of two stretches of a batch are those of the first followed by those of the second: batch order is kept |
| ScraperRelevance.SelectAwardsComplete | app/scraper.py:539-577 | every award the loop body keeps is contributed when the batch does not fail |
| ScraperRelevance.KeptAwardMeans | app/scraper.py:545-576 | a kept award passed the program pre-filter and the relevance rule and carries the biotools fields over its own |
| ScraperRelevance.SelectAwardsFails | app/scraper.py:539-577 | the batch fails exactly when one of its awards raises |
| ScraperRelevance.ProcessAward | app/scraper.py:540-576 | the loop body for one award computes `StepAward` |
| ScraperRelevance.FilterAwardBatch | app/scraper.py:539-577 | the award loop over one batch computes `SelectAwards` with that body |
| ScraperRelevance.SelectAwardsPrefix | app/scraper.py:539-577 | once a prefix of the batch fails, the whole batch fails |
| LegacyScraper.RelevantIffMatched | app/scraper_backup_20250616_124216.py:253-268 | `is_biotools_relevant` holds exactly when some term matched the lower-cased `title abstract` |
| LegacyScraper.RelevantByTitle | app/scraper_backup_20250616_124216.py:255-268 | a term in the title, in any letter case, makes the record relevant |
| LegacyScraper.RelevantByAbstract | app/scraper_backup_20250616_124216.py:255-268 | a term in the abstract, in any letter case, makes the record relevant |
| LegacyScraper.BlankNotRelevant | app/scraper_backup_20250616_124216.py:253-268 | an empty title and abstract are never relevant |
| LegacyScraper.KeywordListDistinct | app/scraper_backup_20250616_124216.py:345-349 | the keyword list has no repeats |
| LegacyScraper.ExtractKeywords | app/scraper_backup_20250616_124216.py:340-357 | `extract_keywords` computes `ExtractedKeywords`: nothing for an empty text, else the first eight keywords found in the lower-cased text, joined by ", " |
| LegacyScraper.CollectKeywords | app/scraper_backup_20250616_124216.py:351-355 | the loop over a list without repeats finds exactly the keywords occurring in the text, in list order (its `not in found` test never fails) |
| LegacyScraper.FoundKeywordsExactly | app/scraper_backup_20250616_124216.py:351-355 | a keyword is found exactly when it occurs in the text, in any letter case |
| LegacyScraper.FoundKeywordsOrdered | app/scraper_backup_20250616_124216.py:351-355 | the found keywords keep the list's order and have no repeats |
| LegacyScraper.ExtractedKeywordsList | app/scraper_backup_20250616_124216.py:357 | each of the first eight found keywords appears in the reported text |
| LegacyScraper.KeywordsAreTerms | app/scraper_backup_20250616_124216.py:258-266 | every keyword is also a relevance term |
| LegacyScraper.KeywordsImplyRelevant | app/scraper_backup_20250616_124216.py:253-357 | a title and abstract that report any keyword pass the relevance test |
| LegacyScraper.ExtractNsfAwards | app/scraper_backup_20250616_124216.py:128-145 | awards come out only from a dict whose `response` is a dict holding `award`, and they are that list, or that single dict wrapped in a list |
| LegacyScraper.ExtractNsfAwardList | app/scraper_backup_20250616_124216.py:136-139 | a response around a list of awards gives that list back |
| LegacyScraper.ExtractNsfAwardSingle | app/scraper_backup_20250616_124216.py:140-141 | a response around one award dict gives that award alone |
| LegacyScraper.Eligibility | app/scraper_backup_20250616_124216.py:284-286 | the eligibility is "Research Institution" when there is no organisation dict or it has no name, and is never longer than 200 characters |
| LegacyScraper.ParseRecord | app/scraper_backup_20250616_124216.py:270-338 | parsing succeeds exactly when the title and abstract are strings and the organisation name can be sliced; the record number is the prefix and the id, the agency is fixed, the minimum amount is 0 and the maximum is the converted amount |
| LegacyScraper.ParsedTitle | app/scraper_backup_20250616_124216.py:290 | a parsed title is the record's title cut to 250 characters, or "NSF Award {id}" / "NIH Project {id}" when the title is empty |
| LegacyScraper.ParsedDescription | app/scraper_backup_20250616_124216.py:292 | a parsed description is a prefix of the abstract of at most 1000 characters, the whole abstract when it fits |
| LegacyScraper.ParsedKeywords | app/scraper_backup_20250616_124216.py:295 | a parsed record's keywords are those extracted from its title and abstract, and a record with keywords passes the relevance test |
| LegacyScraper.NsfAmountOfInt | app/scraper_backup_20250616_124216.py:277-282 | the NSF amount of an int, or of the decimal string of an int, is that int (with floats as exact reals) |
| LegacyScraper.NsfAmountDefault | app/scraper_backup_20250616_124216.py:277-282 | the NSF amount is 0 when the field is missing, a list or a dict |
| LegacyScraper.NihAmountOfInt | app/scraper_backup_20250616_124216.py:312-317 | the NIH amount of an int, or of the decimal string of an int, is that int |
| LegacyScraper.NihAmountDefault | app/scraper_backup_20250616_124216.py:312-317 | the NIH amount is 0 when the field is missing, a list or a dict |
| LegacyScraper.DecimalBody | app/scraper_backup_20250616_124216.py:280 | the string "1.5" has no surrounding whitespace and no sign |
| LegacyScraper.IntRejectsDecimal | app/scraper_backup_20250616_124216.py:315 | `int("1.5")` raises |
| LegacyScraper.FloatReadsDecimal | app/scraper_backup_20250616_124216.py:280 | `float("1.5")` is 1.5 |
| LegacyScraper.AmountOfDecimal | app/scraper_backup_20250616_124216.py:280 | `int(float(str("1.5")))` is 1 |
| LegacyScraper.NihAmountOfDecimal | app/scraper_backup_20250616_124216.py:277-317 | the amount "1.5" gives 1 for NSF and 0 for NIH, because NIH's `int()` cannot read a decimal string |
| LegacyScraper.ParsedEligibility | app/scraper_backup_20250616_124216.py:284-296 | a parsed record's eligibility is "Research Institution" without an organisation dict and is never longer than 200 characters |
| ScraperRows.FirstSourceFrom | app/scraper.py:853-858 | the chosen source is usable and every earlier one is not; none is chosen only when no source is usable |
| ScraperRows.FindSource | app/scraper.py:855-858 | the loop over a column's candidate fields stops at the first one the record has (`break`), as `FirstSource` states |
| ScraperRows.CopyFieldsWrites | app/scraper.py:851-861 | a mapped column the table has holds the value of the first field the record gives for it |
| ScraperRows.CopyFieldsLeaves | app/scraper.py:823-861 | a column no mapping names is left as it was |
| ScraperRows.CopyTwiceLeaves | app/scraper.py:823-861 | the biotools and the standard copies together leave a column neither names |
| ScraperRows.CopyLoop | app/scraper.py:851-861 | the copy loop computes `CopyFields`: each mapped column the table has gets its first usable field |
| ScraperRows.BoolOfCaseless | app/scraper.py:873-874 | a string flag reads the same whatever its letter case |
| ScraperRows.BoolFieldsWrites | app/scraper.py:870-876 | a boolean column the table has and the record gives holds the record's value read as a boolean |
| ScraperRows.BoolFieldsLeaves | app/scraper.py:870-876 | the boolean stage leaves every other column alone |
| ScraperRows.BoolLoop | app/scraper.py:870-876 | the boolean loop computes `BoolFields` |
| ScraperRows.DateFieldsLeaves | app/scraper.py:884-896 | the date stage leaves every other column alone |
| ScraperRows.DateLoop | app/scraper.py:884-896 | the date loop computes `DateFields`: a truthy date with a `T` goes through the ISO reader and falls back to `str()` when that raises; any other truthy date is `str()` of it |
| ScraperRows.SetFieldsWrites | app/scraper.py:907-909 | a fixed column the table has holds its fixed value |
| ScraperRows.SetFieldsLeaves | app/scraper.py:907-909 | the fixed-value stage leaves every other column alone |
| ScraperRows.SetLoop | app/scraper.py:907-909 | the metadata loop computes `SetFields` |
| ScraperRows.MetadataWrites | app/scraper.py:899-909 | the metadata stage sets `data_source` to "SBIR" and `grant_type` to the record kind, when the table has those columns |
| ScraperRows.MetadataLeaves | app/scraper.py:899-909 | the metadata stage leaves every non-metadata column alone |
| ScraperRows.FlagStagesLeave | app/scraper.py:863-909 | the boolean, date and metadata stages leave a column none of them names |
| ScraperRows.FlagStagesFlag | app/scraper.py:863-909 | a boolean column keeps the record's value read as a boolean through the date and metadata stages |
| ScraperRows.Store | app/scraper.py:911-927 | a saved row binds only columns the table has, never None, never an unbindable value, each with the built value, and drops no column the table has whose value is not None; a row with nothing left is skipped |
| ScraperRows.StoreRow | app/scraper.py:911-927 | the INSERT step computes `Store` |
| ScraperRows.AmountValue | app/scraper.py:800-805 | a truthy amount becomes a whole number |
| ScraperRows.BuildAwardBasics | app/scraper.py:788-808 | the basic columns of an award are `AwardBasics`: none when the title or abstract cannot be sliced |
| ScraperRows.AwardBasicsShape | app/scraper.py:791-808 | the basic columns are the `SBIR-<agency>-<contract>` key, the title cut to 250, the abstract cut to 2000 (empty when falsy) and the converted amount |
| ScraperRows.AwardStagesKeepBasics | app/scraper.py:810-909 | the table-driven stages never overwrite a basic award column |
| ScraperRows.SavedAwardBasic | app/scraper.py:788-927 | a saved award's basic column that is not None holds what the basic step computed |
| ScraperRows.AwardTitleCut | app/scraper.py:793 | a saved award's title is its `award_title` string cut to 250 characters; a non-string title gets the award skipped |
| ScraperRows.AwardDescriptionCut | app/scraper.py:795 | a saved award's description is its abstract cut to 2000 characters, or empty when the abstract is falsy |
| ScraperRows.AwardNumberNamesContract | app/scraper.py:791-792 | a saved award's key starts `SBIR-<agency>-` and ends with `contract` when truthy, else with `contract_number` |
| ScraperRows.AwardAmountWhole | app/scraper.py:800-808 | a saved award's truthy amount is stored as `int(float(str(v)))` with floats as exact reals and plain decimal strings, an int unchanged |
| ScraperRows.AwardStandardDistinct | app/scraper.py:828-849 | the standard mapping names each column once |
| ScraperRows.AwardStagesStandard | app/scraper.py:851-909 | after all stages a standard column holds the value of its first field the award has |
| ScraperRows.AwardStandardCopied | app/scraper.py:851-927 | a saved award's standard column holds the value of its first field the award has, when that is not None |
| ScraperRows.AwardFirmNamesCompany | app/scraper.py:839 | `firm` wins over `company_name` |
| ScraperRows.AwardStagesFlag | app/scraper.py:870-909 | after all stages a boolean column holds the award's value read as a boolean |
| ScraperRows.AwardFlagRead | app/scraper.py:870-927 | a saved award's boolean column holds the value read as a boolean: Y, YES, TRUE or 1 in any case for a string |
| ScraperRows.AwardMarked | app/scraper.py:899-909 | a saved award has `grant_type` "award" and `data_source` "SBIR" |
| ScraperRows.BuildAwardRow | app/scraper.py:786-927 | the loop body for one award computes `AwardRow` |
| ScraperRows.SavedRows | app/scraper.py:911-927 | the saved rows are no more than the outcomes, and each comes from a saved outcome |
| ScraperRows.SavedRowsComplete | app/scraper.py:911-927 | every saved outcome is among the saved rows |
| ScraperRows.SavedRowsStep | app/scraper.py:786-927 | one more record adds its row exactly when it is saved |
| ScraperRows.Outcomes | app/scraper.py:786-932 | one outcome per record, in order, each what the row function gives that record |
| ScraperRows.SaveRows | app/scraper.py:772-938 | the record loop saves exactly the rows of the records that are saved, in order, and counts them; never more than the records |
| ScraperRows.SaveAwards | app/scraper.py:770-938 | `save_awards` saves exactly the rows of the awards that are saved, in order, and returns their count |
| ScraperRows.SolicitationIdentifier | app/scraper.py:960-963 | the number is a truthy `solicitation_number`, or `SOL-<agency>-<epoch>` when no identifier is truthy |
| ScraperRows.DirectParts | app/scraper.py:979-981 | at most one part per description field, each truthy |
| ScraperRows.CollectDirectParts | app/scraper.py:979-981 | the loop over the description fields computes `DirectParts` |
| ScraperRows.TopicParts | app/scraper.py:986-992 | at most one part per topic |
| ScraperRows.CollectTopicParts | app/scraper.py:987-992 | the loop over the topics computes `TopicParts` |
| ScraperRows.Texts | app/scraper.py:996 | the parts as strings, one for one |
| ScraperRows.BuildDescription | app/scraper.py:976-996 | the description step computes `SolicitationDescription`: none when a description field is not a string |
| ScraperRows.SolicitationBasicsShape | app/scraper.py:960-996 | the basic columns are the `SOL-` key, the title cut to 250 and the description |
| ScraperRows.SolicitationStagesKeepBasics | app/scraper.py:998-1058 | the table-driven stages never overwrite a basic solicitation column |
| ScraperRows.SavedSolicitationBasic | app/scraper.py:957-1076 | a saved solicitation's basic column that is not None holds what the basic step computed |
| ScraperRows.SolicitationKeyed | app/scraper.py:960-965 | a saved solicitation's key is `SOL-` and its number, so one without an identifier gets `SOL-SOL-<agency>-<epoch>` |
| ScraperRows.SolicitationTitleCut | app/scraper.py:966-968 | a saved solicitation's title is its first truthy title string cut to 250 characters |
| ScraperRows.SavedTitle | app/scraper.py:966-968 | the saved title is the cut title and can be bound |
| ScraperRows.UntitledSolicitation | app/scraper.py:966-968 | without a truthy title field the title is "Untitled Solicitation" |
| ScraperRows.SolicitationUntitled | app/scraper.py:966-968 | a saved solicitation without a truthy title field is titled "Untitled Solicitation" |
| ScraperRows.SolicitationDescriptionCut | app/scraper.py:996 | a saved description is a prefix of the parts joined by spaces, at most 2000 long, holding every part when they fit |
| ScraperRows.SbirFieldsApart | app/scraper.py:1014-1023 | the SBIR mapping names each column once, and neither the topics nor the metadata stage writes one |
| ScraperRows.SolicitationStagesSbir | app/scraper.py:1025-1058 | after all stages an SBIR column holds its first truthy field |
| ScraperRows.SolicitationSbirCopied | app/scraper.py:1025-1076 | a saved solicitation's SBIR column holds the first truthy of its fields |
| ScraperRows.StagesStoreTopics | app/scraper.py:1037-1058 | after all stages the topics column holds `json.dumps` or `str()` of the topics |
| ScraperRows.SolicitationTopicsStored | app/scraper.py:1037-1045 | saved topics are JSON text for a list or dict, and the string itself for a string |
| ScraperRows.SolicitationMarked | app/scraper.py:1048-1058 | a saved solicitation has `grant_type` "solicitation" |
| ScraperRows.BuildSolicitationRow | app/scraper.py:955-1076 | the loop body for one solicitation computes `SolicitationRow` |
| ScraperRows.SaveSolicitations | app/scraper.py:940-1087 | `save_solicitations` saves exactly the rows of the solicitations that are saved, in order, and returns their count |
| JsonValue.Get | app/scraper.py:791 | `d.get(k, default)` is the value under `k`, or the default when `k` is missing |
| JsonValue.Or | app/scraper.py:791 | `a or b` is `a` when it is truthy and `b` otherwise |
| JsonValue.FirstTruthy | app/scraper.py:960-963 | a chain of `or` over fields gives a truthy field's value, or the last operand when no field is truthy |
| JsonValue.ParseIntOfRendered | app/scraper_backup_20250616_124216.py:312-317 | `int(str(i))` is `i` |
| JsonValue.ParseDecimalOfRendered | app/scraper_backup_20250616_124216.py:277-282 | `float(str(i))`, read as an exact real, is `i` (Python agrees up to 2\*\*53) |
| Sorting.InsertMembers | main.py:703 | every element of the list after one insertion is the inserted one or was already there |
| Text.Strip | main.py:382 | `strip()` gives a slice of its input with no whitespace at either end, everything before and after it being whitespace |
| Text.StripUnchanged | main.py:382 | `strip()` leaves a string without whitespace at its ends as it is |
| Text.Split | main.py:301 | `split()` gives words: non-empty and free of whitespace |
| Text.SplitAllSpace | main.py:301 | `split()` of whitespace alone gives no words |
| Text.SplitEmptyIff | main.py:301 | `split()` gives no words if and only if the text is whitespace alone |
| Text.SplitJoin | main.py:301 | splitting words joined by one whitespace character gives back exactly those words, in order |
| Text.JoinContainsParts | app/scraper.py:996 | each part occurs in the parts joined by a separator |
| Text.ContainsLowered | main.py:352 | a substring stays a substring when both are lower-cased |
| Text.MissingCharExcludes | app/scraper.py:412 | a text holding a character in neither case does not contain, once lower-cased, a pattern holding it |

## Left out
- `app/scraper.py` does not parse as written. Line 587 holds an
  `except Exception` with no matching `try` in the award loop (lines
  516-586). Line 1753 reads `main() Respectful delay`. Lines 1754-1826
  follow the `if __name__ == "__main__":` block, and the file stops
  mid-statement at line 1826. The model reads the file as follows:
  - Lines 1754-1760 are the end of `fetch_biotools_awards_by_agency`.
  - Lines 1761-1800 are the method `_calculate_agency_alignment`.
  - The stray `except` belongs to the solicitation fetch, so there is
    no `try` around the award loop. An award that raises ends the whole
    fetch (`StepAward` gives `Crash`, `SelectAwards` gives `None`).

- Database work is not modelled. This covers `setup_database`, the
  INSERT in `save_awards` / `save_solicitations`, the statistics queries,
  the IDF cache queries, and the SELECT in `app.py`. The table's column
  names and the selected rows are inputs.
- Network I/O is not modelled: the API requests with their retries and
  sleeps, the `fetch_*` methods apart from the fragments named above, the
  agent enhancement in `app.py`, and the API call in
  `biotools_filter_debug.py`.
- Flask routing, CORS, rate limiting, security headers, templates,
  logging and printing are not modelled.
- The freshness score, the TF-IDF score, `round(x, 2)`, the `\b` word
  test and the deadline-day arithmetic of `main.py` are parameters
  (`MatcherSearch.Env`, `wordOccurs`). They read the clock, use
  logarithms, or use the `re` engine.
- `_calculate_biotools_relevance` in `main.py` is not modelled, because it
  divides by a text length. The averages and percentages of
  `run_comprehensive_biotools_scraping` are left out too.
- The clock is a parameter:
  - the cache's `time.time()`;
  - the epoch seconds of the generated solicitation number;
  - the scrape time written to `updated_at`;
  - the ISO date parser of the award date columns.
- `json.dumps` of the solicitation topics is a parameter.
- `_filter_recent_solicitations` and the `updated_at` bonus of
  `app.py`'s `calculate_relevance` are not modelled, because both read the
  clock.
- The in-place annotation of award dicts in the fetch path of
  `app/scraper.py` is modelled on values: an annotated copy replaces the
  dict. No other reference to the dict sees the change.
- SQL `LIKE` matching in `app.py` is not modelled. The selected rows,
  already cut to `LIMIT` before scoring, are an input.
- `test_security.py` expects some search payloads to be rejected that
  `main.py` accepts. An empty query is browse mode. There is no maximum
  query length. The validation follows `main.py`.
- Text is ASCII in this model. Python's Unicode `lower()`, `upper()`,
  `strip()` and `split()` on other characters are not modelled.
- `None` arguments to the two helpers of `biotools_filter_debug.py` are
  not modelled: they are called with strings.
- Selection (MatcherSearch): a dict given as `tool_types` or
  `focus_areas` is not modelled. Python iterates its keys in insertion
  order, but `JObject` is an unordered map, so the model's search raises
  (`Failed`) for it.
- SearchGrants (MatcherSearch), and `SearchGrantsResult` beside it:
  a dict selection fails in the model, as under `Selection` above, where
  Python searches by the dict's keys.
- AmountOf (JsonValue): `float()` of exponent text ("1e5"), of digits
  with underscores ("1_000"), and of "inf" or "nan" is not modelled. The
  model reads these as unparseable, so the amount is 0 where Python may
  give a number or raise.
- ToInt / ToFloat (JsonValue): `int()` and `float()` of a string read
  only plain decimal text (`ParseInt`, `ParseDecimal`), so exponent,
  underscore, "inf" and "nan" text gives `None` where Python reads a
  number. At `float(filters['amount_min'])` (main.py:567) the amount
  filter then keeps every grant: for "1e5" Python compares against
  100000, and for "inf" it drops every grant. At
  `int(filters['deadline'])` (main.py:576) the deadline filter keeps
  every grant where Python filters by "1_000" days. At
  `int(project['total_cost_amount'])`
  (app/scraper_backup_20250616_124216.py:315) the NIH amount becomes 0
  where Python reads 1000.
- AmountValue (ScraperRows): a truthy exponent or underscore amount
  string is stored as 0, as under `AmountOf` above, where Python stores
  its value.
- ParseDecimalOfRendered (JsonValue): Python floats are modelled as
  exact reals. For integers beyond 2\*\*53, `float(str(i))` rounds in
  Python, so the identity holds there only in the model.
- AwardAmountWhole (ScraperRows): the stored amount is the model's
  exact `int(float(str(v)))`. It differs from Python's for ints beyond
  2\*\*53 and for exponent or underscore strings, as above.
- NsfAmountOfInt (LegacyScraper): the amount equals the int only in the
  model for ints beyond 2\*\*53, where Python's `float` rounds.
- Render (JsonValue): `str()` of a list, of a dict and of a float that is
  not a whole number below 10\*\*16 is a fixed placeholder ("<list>",
  "<dict>", "<float>"), not Python's text. Two such values render alike
  where Python's text differs.
- DedupSolicitations (ScraperRecords): the fallback key
  `"{agency}_{solicitation_title}"` is built with `Render`, so two
  solicitations whose agency or title are different lists, dicts or
  fractional floats share a key in the model. The model then drops one
  that Python keeps.
- IsWordChar (MatcherTerms): Python's `\w` leaves out non-ASCII
  punctuation and symbols (such as "—"). The model counts every non-ASCII
  character that is not whitespace as a word character, so such a
  character is not turned into a space.
- The search loop is stated for any matcher, whose score functions are a
  record of functions. The lemma `MatcherSearch.BiotoolsKeptMatchesBoth`
  instantiates it with the source's taxonomy.

## Findings

| source | as written | input that shows it | evidently intended | confidence | as-written member | corrected member |
|---|---|---|---|---|---|---|
| app/scraper.py:392-442 | `_suggest_tool_types` and `_suggest_focus_areas` test `indicator in keyword.lower()`, but the indicators DNA, CRISPR, PCR, ELISA and 16S hold capital letters, so they never fire | the compound keyword "real-time PCR" of the scraper's own list gets no `assay` suggestion, although `assay` lists "PCR" (`ScraperTables.RealTimePcrAsWritten`, and `ScraperTables.RealTimePcrLowered` for the corrected tables); likewise "CRISPR technology" is not tied to `genomics` by "CRISPR" | compare lower-cased indicators with the lower-cased keyword, as the rest of the classifier does | high (not executed) | ScraperRelevance.UpperIndicatorNeverFires | ScraperRelevance.LoweredIndicatorFires |
