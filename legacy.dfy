/** The older scraper kept beside the current one
    (app/scraper_backup_20250616_124216.py): its relevance test, its keyword
    extractor, the unwrapping of an NSF response, and the two parsers that
    turn an NSF award or an NIH project into a grant record. The HTTP calls
    around them and the INSERT after them are not modelled. */
module LegacyScraper {
  import opened Options
  import opened Text
  import opened JsonValue

  // ----------------------------------------------------------- relevance

  /** The life-science tool terms `is_biotools_relevant` looks for. */
  const BiotoolsTerms: seq<string> := [
    "laboratory", "instrumentation", "microscopy", "spectrometry",
    "biotechnology", "bioengineering", "analytical", "diagnostic",
    "protein analysis", "dna analysis", "cell analysis", "genomics",
    "proteomics", "bioinformatics", "molecular biology", "chromatography",
    "electrophoresis", "mass spectrometry", "imaging", "automation",
    "high throughput", "assay", "biosensor", "lab equipment",
    "research tool", "scientific instrument"]

  /** The text the relevance test reads: `(title + ' ' + abstract).lower()`. */
  function RelevanceText(title: string, summary: string): string
  {
    Lower(title + " " + summary)
  }

  /** `is_biotools_relevant(title, abstract)`: some term occurs in the text. */
  predicate IsBiotoolsRelevant(title: string, summary: string)
  {
    AnyIn(BiotoolsTerms, RelevanceText(title, summary))
  }

  /** The terms that make a title and abstract relevant, in list order. */
  function MatchedTerms(title: string, summary: string): seq<string>
  {
    Occurring(BiotoolsTerms, RelevanceText(title, summary))
  }

  /** Relevant exactly when some term matched. */
  lemma RelevantIffMatched(title: string, summary: string)
    ensures IsBiotoolsRelevant(title, summary) <==> MatchedTerms(title, summary) != []
  {
    OccurringNonEmpty(BiotoolsTerms, RelevanceText(title, summary));
  }

  /** A term in the title, in any case, makes the record relevant. */
  lemma RelevantByTitle(title: string, summary: string, t: string)
    requires t in BiotoolsTerms && Contains(Lower(title), t)
    ensures IsBiotoolsRelevant(title, summary)
  {
    LowerConcat(title, " " + summary);
    assert title + " " + summary == title + (" " + summary);
    ContainsInConcat(Lower(title), Lower(" " + summary), t);
  }

  /** A term in the abstract, in any case, makes the record relevant. */
  lemma RelevantByAbstract(title: string, summary: string, t: string)
    requires t in BiotoolsTerms && Contains(Lower(summary), t)
    ensures IsBiotoolsRelevant(title, summary)
  {
    LowerConcat(title + " ", summary);
    ContainsInConcat(Lower(title + " "), Lower(summary), t);
  }

  /** An empty title and abstract are never relevant: the text is a single
      space and every term is longer. */
  lemma BlankNotRelevant()
    ensures !IsBiotoolsRelevant("", "")
  {
    var text := RelevanceText("", "");
    assert |text| == 1;
    forall t | t in BiotoolsTerms
      ensures !Contains(text, t)
    {
      NotContainsLonger(text, t);
    }
  }

  // ------------------------------------------------------------- keywords

  /** The keywords `extract_keywords` reports. */
  const KeywordList: seq<string> := [
    "microscopy", "spectrometry", "chromatography", "biotechnology",
    "proteomics", "genomics", "bioinformatics", "analytical",
    "instrumentation", "automation", "imaging", "laboratory"]

  /** At most this many keywords are reported. */
  const MaxKeywords: nat := 8

  /** The keywords that occur in the lower-cased text, in list order. */
  function FoundKeywords(text: string): seq<string>
  {
    Occurring(KeywordList, Lower(text))
  }

  /** `extract_keywords(text)`: nothing for an empty text, else the first
      keywords found, joined by a comma and a space. */
  function ExtractedKeywords(text: string): string
  {
    if text == [] then [] else Join(Take(FoundKeywords(text), MaxKeywords), ", ")
  }

  /** The keyword list has no repeats. */
  lemma KeywordListDistinct()
    ensures Distinct(KeywordList)
  {
    forall i, j | 0 <= i < j < |KeywordList|
      ensures KeywordList[i] != KeywordList[j]
    {
      if i == 0 {
      } else if i == 1 {
      } else if i == 2 {
      } else if i == 3 {
      } else if i == 4 {
      } else if i == 5 {
      } else if i == 6 {
      } else if i == 7 {
      } else if i == 8 {
      } else if i == 9 {
      }
    }
  }

  /** `extract_keywords(text)`. */
  method ExtractKeywords(text: string) returns (r: string)
    ensures r == ExtractedKeywords(text)
  {
    if text == [] {
      return [];
    }
    KeywordListDistinct();
    var found := CollectKeywords(KeywordList, Lower(text));
    r := Join(Take(found, MaxKeywords), ", ");
  }

  /** The loop of `extract_keywords` over a keyword list; its `not in found`
      test never fails when the list has no repeats. */
  method CollectKeywords(keywords: seq<string>, lower: string) returns (found: seq<string>)
    requires Distinct(keywords)
    ensures found == Occurring(keywords, lower)
  {
    found := [];
    for i := 0 to |keywords|
      invariant found == Occurring(keywords[..i], lower)
    {
      assert keywords[..i + 1][..i] == keywords[..i];
      var keyword := keywords[i];
      assert keyword !in keywords[..i] by {
        forall j | 0 <= j < i
          ensures keywords[..i][j] != keyword
        {
          assert keywords[..i][j] == keywords[j];
        }
      }
      if Contains(lower, keyword) && keyword !in found {
        found := found + [keyword];
      }
    }
    assert keywords[..|keywords|] == keywords;
  }

  /** A keyword is found exactly when it occurs in the text, in any case. */
  lemma FoundKeywordsExactly(text: string, k: string)
    ensures k in FoundKeywords(text) <==> k in KeywordList && Contains(Lower(text), k)
  {
    if k in KeywordList && Contains(Lower(text), k) {
      OccurringComplete(KeywordList, Lower(text), k);
    }
  }

  /** The found keywords keep the list's order and have no repeats. */
  lemma FoundKeywordsOrdered(text: string)
    ensures IsSubsequence(FoundKeywords(text), KeywordList)
    ensures Distinct(FoundKeywords(text))
  {
    OccurringInOrder(KeywordList, Lower(text));
    KeywordListDistinct();
    OccurringDistinct(KeywordList, Lower(text));
  }

  /** Each of the first eight found keywords is in the reported text. */
  lemma ExtractedKeywordsList(text: string, k: nat)
    requires text != [] && k < |FoundKeywords(text)| && k < MaxKeywords
    ensures Contains(ExtractedKeywords(text), FoundKeywords(text)[k])
  {
    var parts := Take(FoundKeywords(text), MaxKeywords);
    assert parts[k] == FoundKeywords(text)[k];
    JoinContainsParts(parts, ", ", k);
  }

  /** Every keyword is also a relevance term. */
  lemma KeywordsAreTerms(k: string)
    requires k in KeywordList
    ensures k in BiotoolsTerms
  {
    var t := BiotoolsTerms;
    assert KeywordList == [t[2], t[3], t[15], t[4], t[12], t[11], t[13], t[6], t[1], t[19], t[18], t[0]];
  }

  /** A record that reports any keyword passes the relevance test. */
  lemma KeywordsImplyRelevant(title: string, summary: string)
    requires ExtractedKeywords(title + " " + summary) != []
    ensures IsBiotoolsRelevant(title, summary)
  {
    var found := FoundKeywords(title + " " + summary);
    assert found != [];
    KeywordsAreTerms(found[0]);
  }

  // ----------------------------------------------------------- NSF response

  /** `extract_nsf_awards(data)`: `data['response']['award']` as a list of
      awards; a single award is wrapped, anything else gives none. */
  function ExtractNsfAwards(data: Json): (awards: seq<Json>)
    ensures awards != [] ==>
      data.JObject? && "response" in data.fields && data.fields["response"].JObject?
      && "award" in data.fields["response"].fields
      && (data.fields["response"].fields["award"] == JList(awards)
          || (data.fields["response"].fields["award"].JObject? && awards == [data.fields["response"].fields["award"]]))
  {
    if data.JObject? && "response" in data.fields && data.fields["response"].JObject?
       && "award" in data.fields["response"].fields
    then
      match data.fields["response"].fields["award"]
      case JList(items) => items
      case JObject(_) => [data.fields["response"].fields["award"]]
      case _ => []
    else []
  }

  /** A response built around a list of awards gives that list back. */
  lemma ExtractNsfAwardList(data: Dict, response: Dict, awards: seq<Json>)
    ensures ExtractNsfAwards(JObject(data["response" := JObject(response["award" := JList(awards)])])) == awards
  {
  }

  /** A response built around one award gives that award alone. */
  lemma ExtractNsfAwardSingle(data: Dict, response: Dict, award: Dict)
    ensures ExtractNsfAwards(JObject(data["response" := JObject(response["award" := JObject(award)])]))
         == [JObject(award)]
  {
  }

  // ------------------------------------------------------------ the parsers

  /** Where the NSF and NIH parsers read their fields and what they put in
      the fixed ones. `amountViaFloat` is `int(float(str(v)))` for NSF,
      `int(v)` for NIH. */
  datatype Layout = Layout(
    prefix: string,
    idKey: string,
    titleKey: string,
    abstractKey: string,
    amountKey: string,
    amountViaFloat: bool,
    orgKey: string,
    orgNameKey: string,
    titleFallback: string,
    agency: string,
    urlPrefix: string,
    category: string)

  /** `parse_nsf_award`'s fields. */
  const Nsf: Layout := Layout(
    "NSF-", "id", "title", "abstractText", "fundsObligatedAmt", true, "awardee", "name",
    "NSF Award ", "NSF", "https://www.nsf.gov/awardsearch/showAward?AWD_ID=", "nsf_research")

  /** `parse_nih_project`'s fields. */
  const Nih: Layout := Layout(
    "NIH-", "appl_id", "project_title", "abstract_text", "total_cost_amount", false, "organization", "org_name",
    "NIH Project ", "NIH", "https://reporter.nih.gov/project-details/", "nih_research")

  /** The eligibility every parsed record falls back to. */
  const DefaultOrg: string := "Research Institution"

  /** A parsed grant record. Its deadline is always `None` and is left out. */
  datatype Grant = Grant(
    number: string,
    title: Json,
    agency: string,
    description: Json,
    amountMin: int,
    amountMax: int,
    keywords: string,
    eligibility: Json,
    url: string,
    category: string)

  /** The amount: the converted field when present, 0 when it is missing or
      its conversion raises. */
  function Amount(rec: Dict, layout: Layout): int
  {
    if layout.amountKey !in rec then 0
    else if layout.amountViaFloat then AmountOf(rec[layout.amountKey])
    else match ToInt(rec[layout.amountKey])
      case Some(n) => n
      case None => 0
  }

  /** The organisation's name cut to 200, or the default when the record has
      no organisation dict; `None` when the name cannot be sliced. */
  function Eligibility(rec: Dict, layout: Layout): (r: Option<Json>)
    ensures !(layout.orgKey in rec && rec[layout.orgKey].JObject?) ==> r == Some(JStr(DefaultOrg))
    ensures layout.orgKey in rec && rec[layout.orgKey].JObject? && layout.orgNameKey !in rec[layout.orgKey].fields
            ==> r == Some(JStr(DefaultOrg))
    ensures r.Some? && r.value.JStr? ==> |r.value.s| <= 200
  {
    if layout.orgKey in rec && rec[layout.orgKey].JObject? then
      Slice(Get(rec[layout.orgKey].fields, layout.orgNameKey, JStr(DefaultOrg)), 200)
    else Some(JStr(DefaultOrg))
  }

  /** The shared body of `parse_nsf_award` and `parse_nih_project`; `None`
      where the Python raises and returns `None`: a title or abstract that is
      not a string (the keyword text concatenates them), or an organisation
      name that cannot be sliced. */
  function ParseRecord(rec: Dict, layout: Layout): (g: Option<Grant>)
    ensures g.Some? <==> Get(rec, layout.titleKey, JStr("")).JStr? && Get(rec, layout.abstractKey, JStr("")).JStr?
                         && Eligibility(rec, layout).Some?
    ensures g.Some? ==> g.value.number == layout.prefix + Render(Get(rec, layout.idKey, JStr("")))
                        && g.value.agency == layout.agency && g.value.amountMin == 0
                        && g.value.amountMax == Amount(rec, layout)
  {
    var id := Get(rec, layout.idKey, JStr(""));
    var title := Get(rec, layout.titleKey, JStr(""));
    var summary := Get(rec, layout.abstractKey, JStr(""));
    var eligibility := Eligibility(rec, layout);
    if !title.JStr? || !summary.JStr? || eligibility.None? then None
    else
      Some(Grant(
        layout.prefix + Render(id),
        if title.s != [] then JStr(Take(title.s, 250)) else JStr(layout.titleFallback + Render(id)),
        layout.agency,
        if summary.s != [] then JStr(Take(summary.s, 1000)) else JStr(""),
        0,
        Amount(rec, layout),
        ExtractedKeywords(title.s + " " + summary.s),
        eligibility.value,
        layout.urlPrefix + Render(id),
        layout.category))
  }

  /** `parse_nsf_award(award)`. */
  function ParseNsfAward(award: Dict): Option<Grant>
  {
    ParseRecord(award, Nsf)
  }

  /** `parse_nih_project(project)`. */
  function ParseNihProject(project: Dict): Option<Grant>
  {
    ParseRecord(project, Nih)
  }

  /** A parsed title is the record's title cut to 250 characters, or the
      fallback naming the id when the title is empty. */
  lemma ParsedTitle(rec: Dict, layout: Layout)
    requires ParseRecord(rec, layout).Some?
    ensures var t := Get(rec, layout.titleKey, JStr("")).s; var g := ParseRecord(rec, layout).value;
      g.title.JStr?
      && (t != [] ==> g.title.s <= t && |g.title.s| <= 250 && (|t| <= 250 ==> g.title.s == t))
      && (t == [] ==> g.title.s == layout.titleFallback + Render(Get(rec, layout.idKey, JStr(""))))
  {
  }

  /** A parsed description is a prefix of the abstract of at most 1000
      characters, the whole abstract when it fits. */
  lemma ParsedDescription(rec: Dict, layout: Layout)
    requires ParseRecord(rec, layout).Some?
    ensures var a := Get(rec, layout.abstractKey, JStr("")).s; var g := ParseRecord(rec, layout).value;
      g.description.JStr? && g.description.s <= a && |g.description.s| <= 1000
      && (|a| <= 1000 ==> g.description.s == a)
  {
  }

  /** A parsed record's keywords are found in its title and abstract, and
      a record with keywords passes the relevance test. */
  lemma ParsedKeywords(rec: Dict, layout: Layout)
    requires ParseRecord(rec, layout).Some?
    ensures var t := Get(rec, layout.titleKey, JStr("")).s; var a := Get(rec, layout.abstractKey, JStr("")).s;
      var g := ParseRecord(rec, layout).value;
      g.keywords == ExtractedKeywords(t + " " + a)
      && (g.keywords != [] ==> IsBiotoolsRelevant(t, a))
  {
    var t := Get(rec, layout.titleKey, JStr("")).s;
    var a := Get(rec, layout.abstractKey, JStr("")).s;
    if ExtractedKeywords(t + " " + a) != [] {
      KeywordsImplyRelevant(t, a);
    }
  }

  /** The NSF amount of an int, or of the string of an int read through
      `float`, is that int. */
  lemma NsfAmountOfInt(award: Dict, i: int)
    requires Get(award, "fundsObligatedAmt", JNull) in {JInt(i), JStr(IntToString(i))}
    ensures Amount(award, Nsf) == i
  {
    var v := award["fundsObligatedAmt"];
    assert Amount(award, Nsf) == AmountOf(v);
    if v != JInt(i) {
      ParseDecimalOfRendered(i);
      assert AmountOf(v) == TruncReal(i as real);
    }
  }

  /** The NSF amount is 0 when the field is missing or cannot be read. */
  lemma NsfAmountDefault(award: Dict)
    requires var v := Get(award, "fundsObligatedAmt", JNull); v.JNull? || v.JList? || v.JObject?
    ensures Amount(award, Nsf) == 0
  {
  }

  /** The NIH amount of an int, or of the string of an int, is that int. */
  lemma NihAmountOfInt(project: Dict, i: int)
    requires Get(project, "total_cost_amount", JNull) in {JInt(i), JStr(IntToString(i))}
    ensures Amount(project, Nih) == i
  {
    ParseIntOfRendered(i);
  }

  /** The NIH amount is 0 when the field is missing or cannot be read by
      `int()`. */
  lemma NihAmountDefault(project: Dict)
    requires var v := Get(project, "total_cost_amount", JNull); v.JNull? || v.JList? || v.JObject?
    ensures Amount(project, Nih) == 0
  {
  }

  /** "1.5" has no surrounding whitespace and no sign. */
  lemma DecimalBody()
    ensures SignOf(Strip("1.5")) == (false, "1.5")
  {
    StripUnchanged("1.5");
  }

  /** `int("1.5")` raises. */
  lemma IntRejectsDecimal()
    ensures ParseInt("1.5") == None
  {
    DecimalBody();
    assert !IsDigit("1.5"[1]);
  }

  /** `float("1.5")` is 1.5. */
  lemma FloatReadsDecimal()
    ensures UnsignedDecimal("1.5") == Some(1.5)
  {
    var s := "1.5";
    assert DotIndex(s) == 1;
    assert s[..1] == "1" && s[2..] == "5";
    assert DigitsValue("1") == 1 && DigitsValue("5") == 5 && Pow10(1) == 10;
  }

  /** `int(float(str("1.5")))` is 1. */
  lemma AmountOfDecimal()
    ensures AmountOf(JStr("1.5")) == 1
  {
    DecimalBody();
    FloatReadsDecimal();
    assert ParseDecimal("1.5") == Some(1.5);
  }

  /** Unlike NSF's `int(float(str(v)))`, NIH's `int()` cannot read a decimal
      string: "1.5" gives 0 where NSF gives 1. */
  lemma NihAmountOfDecimal(rec: Dict)
    requires Get(rec, "total_cost_amount", JNull) == JStr("1.5") && Get(rec, "fundsObligatedAmt", JNull) == JStr("1.5")
    ensures Amount(rec, Nih) == 0 && Amount(rec, Nsf) == 1
  {
    IntRejectsDecimal();
    AmountOfDecimal();
    assert ToInt(JStr("1.5")) == None;
  }

  /** A parsed record's eligibility: the organisation's name cut to 200,
      or the default when there is no organisation or it has no name. */
  lemma ParsedEligibility(rec: Dict, layout: Layout)
    requires ParseRecord(rec, layout).Some?
    ensures var g := ParseRecord(rec, layout).value;
      (!(layout.orgKey in rec && rec[layout.orgKey].JObject?) ==> g.eligibility == JStr(DefaultOrg))
      && (g.eligibility.JStr? ==> |g.eligibility.s| <= 200)
  {
  }
}
