/** The row dicts that the SBIR scraper's `save_awards` and
    `save_solicitations` (app/scraper.py) build from API records before the
    INSERT. The table's column names, the current time, the ISO date reader
    and `json.dumps` are inputs; the INSERT itself is not modelled. */
module ScraperRows {
  import opened Options
  import opened Text
  import opened JsonValue

  /** A column of the `grants` table, by its SQL name. A column the code
      does not know is never written, so the table's other columns play no
      part. */
  type Column = string

  /** The values bound to one INSERT, by column. */
  type Row = map<Column, Json>

  /** What happens to one record: the columns and values bound to the INSERT,
      or nothing, when the record raises, or when no column is left. */
  datatype RowOutcome = Saved(row: Row) | Skipped

  // ------------------------------------------------------- field mappings

  /** A column and the record fields it may be read from, in order of
      preference. A mapping to a single field has one source. */
  datatype FieldMap = FieldMap(column: Column, sources: seq<string>)

  /** A column read from one record field, for the boolean and date columns. */
  datatype Field = Field(column: Column, name: string)

  /** A source the record can give: present, and truthy too where the code
      also tests `d[f]`. */
  predicate Usable(d: Dict, f: string, needTruthy: bool)
  {
    f in d && (!needTruthy || Truthy(d[f]))
  }

  /** The index of the first usable source from `i` on. */
  function FirstSourceFrom(d: Dict, sources: seq<string>, needTruthy: bool, i: nat): (r: Option<nat>)
    requires i <= |sources|
    ensures r.Some? ==> i <= r.value < |sources| && Usable(d, sources[r.value], needTruthy)
    ensures r.Some? ==> forall j :: i <= j < r.value ==> !Usable(d, sources[j], needTruthy)
    ensures r.None? ==> forall j :: i <= j < |sources| ==> !Usable(d, sources[j], needTruthy)
    decreases |sources| - i
  {
    if i == |sources| then None
    else if Usable(d, sources[i], needTruthy) then Some(i)
    else FirstSourceFrom(d, sources, needTruthy, i + 1)
  }

  /** The index of the first usable source: the loop that stops at the
      first field found. */
  function FirstSource(d: Dict, sources: seq<string>, needTruthy: bool): Option<nat>
  {
    FirstSourceFrom(d, sources, needTruthy, 0)
  }

  /** For each mapping whose column the table has, the value of its first
      usable source, in mapping order. */
  function CopyFields(row: Row, d: Dict, columns: set<Column>, maps: seq<FieldMap>, needTruthy: bool): Row
  {
    if maps == [] then row
    else
      var r := CopyFields(row, d, columns, maps[..|maps| - 1], needTruthy);
      var m := maps[|maps| - 1];
      if m.column !in columns then r
      else match FirstSource(d, m.sources, needTruthy)
        case None => r
        case Some(k) => r[m.column := d[m.sources[k]]]
  }

  /** The columns of a list of mappings are distinct. */
  predicate DistinctColumns(maps: seq<FieldMap>)
  {
    forall i, j :: 0 <= i < j < |maps| ==> maps[i].column != maps[j].column
  }

  /** A mapping's column, when the table has it and a source is usable,
      holds that source's value. */
  lemma {:induction false} CopyFieldsWrites(row: Row, d: Dict, columns: set<Column>, maps: seq<FieldMap>,
                                            needTruthy: bool, i: nat, k: nat)
    requires DistinctColumns(maps) && i < |maps| && maps[i].column in columns
    requires FirstSource(d, maps[i].sources, needTruthy) == Some(k)
    ensures var r := CopyFields(row, d, columns, maps, needTruthy);
      maps[i].column in r && r[maps[i].column] == d[maps[i].sources[k]]
  {
    var init := maps[..|maps| - 1];
    if i < |maps| - 1 {
      assert init[i] == maps[i];
      assert DistinctColumns(init) by {
        forall a, b | 0 <= a < b < |init| ensures init[a].column != init[b].column {
          assert init[a] == maps[a] && init[b] == maps[b];
        }
      }
      CopyFieldsWrites(row, d, columns, init, needTruthy, i, k);
    }
  }

  /** A column that no mapping names is left as it was. */
  lemma {:induction false} CopyFieldsLeaves(row: Row, d: Dict, columns: set<Column>, maps: seq<FieldMap>,
                                            needTruthy: bool, c: Column)
    requires forall j :: 0 <= j < |maps| ==> maps[j].column != c
    ensures var r := CopyFields(row, d, columns, maps, needTruthy);
      (c in r <==> c in row) && (c in row ==> r[c] == row[c])
  {
    if maps != [] {
      CopyFieldsLeaves(row, d, columns, maps[..|maps| - 1], needTruthy, c);
    }
  }

  // --------------------------------------------------- booleans and dates

  /** The strings that read as true, after `upper()`. */
  const TrueWords: seq<string> := ["Y", "YES", "TRUE", "1"]

  /** A boolean column's value: a string is true when its upper-case form is
      a true word; anything else by its truth value. */
  function BoolOf(v: Json): Json
  {
    match v
    case JStr(s) => JBool(Upper(s) in TrueWords)
    case _ => JBool(Truthy(v))
  }

  /** `upper()` forgets the case: a string reads the same in any case. */
  lemma BoolOfCaseless(s: string, t: string)
    requires |s| == |t| && forall i :: 0 <= i < |s| ==> UpperChar(s[i]) == UpperChar(t[i])
    ensures BoolOf(JStr(s)) == BoolOf(JStr(t))
  {
    assert Upper(s) == Upper(t);
  }

  /** For each boolean column the table has and the record gives, its value
      read as a boolean. */
  function BoolFields(row: Row, d: Dict, columns: set<Column>, fields: seq<Field>): Row
  {
    if fields == [] then row
    else
      var r := BoolFields(row, d, columns, fields[..|fields| - 1]);
      var f := fields[|fields| - 1];
      if f.column in columns && f.name in d then r[f.column := BoolOf(d[f.name])] else r
  }

  /** A date column's value: `str(v)`, passed through the ISO reader when it
      holds a `T`, and kept as it is when the reader refuses it. */
  function DateOf(v: Json, isoDate: string -> Option<string>): Json
  {
    var t := Render(v);
    if Contains(t, "T") then
      match isoDate(t)
      case Some(x) => JStr(x)
      case None => JStr(t)
    else JStr(t)
  }

  /** For each date column the table has and the record gives a truthy value
      for, that value as a date string. */
  function DateFields(row: Row, d: Dict, columns: set<Column>, fields: seq<Field>, isoDate: string -> Option<string>): Row
  {
    if fields == [] then row
    else
      var r := DateFields(row, d, columns, fields[..|fields| - 1], isoDate);
      var f := fields[|fields| - 1];
      if f.column in columns && f.name in d && Truthy(d[f.name]) then r[f.column := DateOf(d[f.name], isoDate)] else r
  }

  /** The fixed values written to the columns the table has. */
  function SetFields(row: Row, columns: set<Column>, pairs: seq<(Column, Json)>): Row
  {
    if pairs == [] then row
    else
      var r := SetFields(row, columns, pairs[..|pairs| - 1]);
      var p := pairs[|pairs| - 1];
      if p.0 in columns then r[p.0 := p.1] else r
  }

  /** A column of a later stage that is not one of its names keeps its value. */
  lemma {:induction false} BoolFieldsLeaves(row: Row, d: Dict, columns: set<Column>, fields: seq<Field>, c: Column)
    requires forall j :: 0 <= j < |fields| ==> fields[j].column != c
    ensures var r := BoolFields(row, d, columns, fields);
      (c in r <==> c in row) && (c in row ==> r[c] == row[c])
  {
    if fields != [] {
      BoolFieldsLeaves(row, d, columns, fields[..|fields| - 1], c);
    }
  }

  lemma {:induction false} DateFieldsLeaves(row: Row, d: Dict, columns: set<Column>, fields: seq<Field>,
                                            isoDate: string -> Option<string>, c: Column)
    requires forall j :: 0 <= j < |fields| ==> fields[j].column != c
    ensures var r := DateFields(row, d, columns, fields, isoDate);
      (c in r <==> c in row) && (c in row ==> r[c] == row[c])
  {
    if fields != [] {
      DateFieldsLeaves(row, d, columns, fields[..|fields| - 1], isoDate, c);
    }
  }

  lemma {:induction false} SetFieldsLeaves(row: Row, columns: set<Column>, pairs: seq<(Column, Json)>, c: Column)
    requires forall j :: 0 <= j < |pairs| ==> pairs[j].0 != c
    ensures var r := SetFields(row, columns, pairs);
      (c in r <==> c in row) && (c in row ==> r[c] == row[c])
  {
    if pairs != [] {
      SetFieldsLeaves(row, columns, pairs[..|pairs| - 1], c);
    }
  }

  /** A boolean column the table has and the record gives holds the record's
      value read as a boolean. */
  lemma {:induction false} BoolFieldsWrites(row: Row, d: Dict, columns: set<Column>, fields: seq<Field>, i: nat)
    requires i < |fields| && fields[i].column in columns && fields[i].name in d
    requires forall j :: i < j < |fields| ==> fields[j].column != fields[i].column
    ensures var r := BoolFields(row, d, columns, fields);
      fields[i].column in r && r[fields[i].column] == BoolOf(d[fields[i].name])
  {
    if i < |fields| - 1 {
      var init := fields[..|fields| - 1];
      assert init[i] == fields[i];
      BoolFieldsWrites(row, d, columns, init, i);
    }
  }

  /** A fixed column the table has holds its fixed value (the last one given). */
  lemma {:induction false} SetFieldsWrites(row: Row, columns: set<Column>, pairs: seq<(Column, Json)>, i: nat)
    requires i < |pairs| && pairs[i].0 in columns
    requires forall j :: i < j < |pairs| ==> pairs[j].0 != pairs[i].0
    ensures var r := SetFields(row, columns, pairs); pairs[i].0 in r && r[pairs[i].0] == pairs[i].1
  {
    if i < |pairs| - 1 {
      var init := pairs[..|pairs| - 1];
      assert init[i] == pairs[i];
      SetFieldsWrites(row, columns, init, i);
    }
  }

  // ------------------------------------------------------------ the INSERT

  /** A value SQLite can bind: no list or dict, and an int within 64 bits. */
  predicate Bindable(v: Json)
  {
    match v
    case JList(_) => false
    case JObject(_) => false
    case JInt(i) => -0x8000_0000_0000_0000 <= i < 0x8000_0000_0000_0000
    case _ => true
  }

  /** `available_fields`: the fields the table has whose value is not None;
      skipped when none is left, or when a value cannot be bound and the
      INSERT raises. */
  function Store(row: Row, columns: set<Column>): (r: RowOutcome)
    ensures r.Saved? ==> r.row.Keys <= columns && r.row != map[]
    ensures r.Saved? ==> forall k :: k in r.row ==> r.row[k] != JNull && Bindable(r.row[k])
    ensures r.Saved? ==> forall k :: k in r.row ==> k in row && r.row[k] == row[k]
    ensures forall k :: k in row && k in columns && row[k] != JNull ==> r.Saved? ==> k in r.row
  {
    var available := map k | k in row && k in columns && row[k] != JNull :: row[k];
    if available == map[] then Skipped
    else if exists k :: k in available && !Bindable(available[k]) then Skipped
    else Saved(available)
  }

  /** The metadata columns, with the record kind and the scrape time. */
  function Metadata(kind: string, now: string): seq<(Column, Json)>
  {
    [("data_source", JStr("SBIR")), ("grant_type", JStr(kind)), ("biotools_category", JStr("biotools")),
     ("updated_at", JStr(now)), ("last_scraped_at", JStr(now))]
  }

  predicate MetadataColumn(c: Column)
  {
    c == "data_source" || c == "grant_type" || c == "biotools_category" || c == "updated_at" || c == "last_scraped_at"
  }

  lemma MetadataShape(kind: string, now: string)
    ensures |Metadata(kind, now)| == 5
    ensures forall j :: 0 <= j < 5 ==> MetadataColumn(Metadata(kind, now)[j].0)
    ensures Metadata(kind, now)[0] == ("data_source", JStr("SBIR")) && Metadata(kind, now)[1] == ("grant_type", JStr(kind))
    ensures forall j :: 1 < j < 5 ==> Metadata(kind, now)[j].0 != "data_source" && Metadata(kind, now)[j].0 != "grant_type"
  {
  }

  /** The metadata stage leaves the other columns alone. */
  lemma MetadataLeaves(row: Row, columns: set<Column>, kind: string, now: string, c: Column)
    requires !MetadataColumn(c)
    ensures var r := SetFields(row, columns, Metadata(kind, now));
      (c in r <==> c in row) && (c in row ==> r[c] == row[c])
  {
    MetadataShape(kind, now);
    SetFieldsLeaves(row, columns, Metadata(kind, now), c);
  }

  /** The metadata stage names the source and the record kind. */
  lemma MetadataWrites(row: Row, columns: set<Column>, kind: string, now: string)
    ensures var r := SetFields(row, columns, Metadata(kind, now));
      ("data_source" in columns ==> "data_source" in r && r["data_source"] == JStr("SBIR"))
      && ("grant_type" in columns ==> "grant_type" in r && r["grant_type"] == JStr(kind))
  {
    MetadataShape(kind, now);
    if "data_source" in columns {
      SetFieldsWrites(row, columns, Metadata(kind, now), 0);
    }
    if "grant_type" in columns {
      SetFieldsWrites(row, columns, Metadata(kind, now), 1);
    }
  }

  /** The stages after the copies: booleans, dates, then the metadata. */
  function FlagStages(row: Row, d: Dict, columns: set<Column>, bools: seq<Field>, dates: seq<Field>,
                      isoDate: string -> Option<string>, kind: string, now: string): Row
  {
    SetFields(DateFields(BoolFields(row, d, columns, bools), d, columns, dates, isoDate), columns, Metadata(kind, now))
  }

  /** A column none of the later stages names keeps its value through them. */
  lemma FlagStagesLeave(row: Row, d: Dict, columns: set<Column>, bools: seq<Field>, dates: seq<Field>,
                        isoDate: string -> Option<string>, kind: string, now: string, c: Column)
    requires forall j :: 0 <= j < |bools| ==> bools[j].column != c
    requires forall j :: 0 <= j < |dates| ==> dates[j].column != c
    requires !MetadataColumn(c)
    ensures var r := FlagStages(row, d, columns, bools, dates, isoDate, kind, now);
      (c in r <==> c in row) && (c in row ==> r[c] == row[c])
  {
    var r3 := BoolFields(row, d, columns, bools);
    BoolFieldsLeaves(row, d, columns, bools, c);
    DateFieldsLeaves(r3, d, columns, dates, isoDate, c);
    MetadataLeaves(DateFields(r3, d, columns, dates, isoDate), columns, kind, now, c);
  }

  /** A boolean column no date or metadata names ends with the record's value
      read as a boolean. */
  lemma FlagStagesFlag(row: Row, d: Dict, columns: set<Column>, bools: seq<Field>, dates: seq<Field>,
                       isoDate: string -> Option<string>, kind: string, now: string, i: nat)
    requires i < |bools| && bools[i].column in columns && bools[i].name in d
    requires forall j :: i < j < |bools| ==> bools[j].column != bools[i].column
    requires forall j :: 0 <= j < |dates| ==> dates[j].column != bools[i].column
    requires !MetadataColumn(bools[i].column)
    ensures var r := FlagStages(row, d, columns, bools, dates, isoDate, kind, now);
      bools[i].column in r && r[bools[i].column] == BoolOf(d[bools[i].name])
  {
    var r3 := BoolFields(row, d, columns, bools);
    BoolFieldsWrites(row, d, columns, bools, i);
    DateFieldsLeaves(r3, d, columns, dates, isoDate, bools[i].column);
    MetadataLeaves(DateFields(r3, d, columns, dates, isoDate), columns, kind, now, bools[i].column);
  }

  /** Two copy stages in a row leave a column neither table names. */
  lemma CopyTwiceLeaves(row: Row, d: Dict, columns: set<Column>, first: seq<FieldMap>, firstTruthy: bool,
                        second: seq<FieldMap>, secondTruthy: bool, c: Column)
    requires forall j :: 0 <= j < |first| ==> first[j].column != c
    requires forall j :: 0 <= j < |second| ==> second[j].column != c
    ensures var r := CopyFields(CopyFields(row, d, columns, first, firstTruthy), d, columns, second, secondTruthy);
      (c in r <==> c in row) && (c in row ==> r[c] == row[c])
  {
    CopyFieldsLeaves(row, d, columns, first, firstTruthy, c);
    CopyFieldsLeaves(CopyFields(row, d, columns, first, firstTruthy), d, columns, second, secondTruthy, c);
  }

  // ------------------------------------------------------------ the loops

  /** The loop over one mapping's sources that stops at the first usable one. */
  method FindSource(d: Dict, sources: seq<string>, needTruthy: bool) returns (k: Option<nat>)
    ensures k == FirstSource(d, sources, needTruthy)
  {
    var j := 0;
    while j < |sources|
      invariant 0 <= j <= |sources|
      invariant FirstSourceFrom(d, sources, needTruthy, j) == FirstSource(d, sources, needTruthy)
    {
      if sources[j] in d && (!needTruthy || Truthy(d[sources[j]])) {
        return Some(j);
      }
      j := j + 1;
    }
    return None;
  }

  /** The loop over a field mapping table. */
  method CopyLoop(row: Row, d: Dict, columns: set<Column>, maps: seq<FieldMap>, needTruthy: bool) returns (r: Row)
    ensures r == CopyFields(row, d, columns, maps, needTruthy)
  {
    r := row;
    var i := 0;
    while i < |maps|
      invariant 0 <= i <= |maps|
      invariant r == CopyFields(row, d, columns, maps[..i], needTruthy)
    {
      assert maps[..i + 1][..i] == maps[..i];
      var m := maps[i];
      if m.column in columns {
        var k := FindSource(d, m.sources, needTruthy);
        if k.Some? {
          r := r[m.column := d[m.sources[k.value]]];
        }
      }
      i := i + 1;
    }
    assert maps[..|maps|] == maps;
  }

  /** The loop over the boolean columns. */
  method BoolLoop(row: Row, d: Dict, columns: set<Column>, fields: seq<Field>) returns (r: Row)
    ensures r == BoolFields(row, d, columns, fields)
  {
    r := row;
    for i := 0 to |fields|
      invariant r == BoolFields(row, d, columns, fields[..i])
    {
      assert fields[..i + 1][..i] == fields[..i];
      var f := fields[i];
      if f.column in columns && f.name in d {
        var value := d[f.name];
        if value.JStr? {
          r := r[f.column := JBool(Upper(value.s) in TrueWords)];
        } else {
          r := r[f.column := JBool(Truthy(value))];
        }
      }
    }
    assert fields[..|fields|] == fields;
  }

  /** The loop over the date columns. */
  method DateLoop(row: Row, d: Dict, columns: set<Column>, fields: seq<Field>,
                  isoDate: string -> Option<string>) returns (r: Row)
    ensures r == DateFields(row, d, columns, fields, isoDate)
  {
    r := row;
    for i := 0 to |fields|
      invariant r == DateFields(row, d, columns, fields[..i], isoDate)
    {
      assert fields[..i + 1][..i] == fields[..i];
      var f := fields[i];
      if f.column in columns && f.name in d && Truthy(d[f.name]) {
        var text := Render(d[f.name]);
        var value := JStr(text);
        if Contains(text, "T") {
          var parsed := isoDate(text);
          if parsed.Some? {
            value := JStr(parsed.value);
          }
        }
        r := r[f.column := value];
      }
    }
    assert fields[..|fields|] == fields;
  }

  /** The loop over the metadata columns. */
  method SetLoop(row: Row, columns: set<Column>, pairs: seq<(Column, Json)>) returns (r: Row)
    ensures r == SetFields(row, columns, pairs)
  {
    r := row;
    for i := 0 to |pairs|
      invariant r == SetFields(row, columns, pairs[..i])
    {
      assert pairs[..i + 1][..i] == pairs[..i];
      if pairs[i].0 in columns {
        r := r[pairs[i].0 := pairs[i].1];
      }
    }
    assert pairs[..|pairs|] == pairs;
  }

  /** The INSERT of one row: the available fields, or nothing. */
  method StoreRow(row: Row, columns: set<Column>) returns (r: RowOutcome)
    ensures r == Store(row, columns)
  {
    var available := map k | k in row && k in columns && row[k] != JNull :: row[k];
    if available == map[] {
      return Skipped;
    }
    if exists k :: k in available && !Bindable(available[k]) {
      return Skipped;
    }
    return Saved(available);
  }

  // ---------------------------------------------------------------- awards

  /** Award fields copied under their own name when the table has them. */
  const AwardBiotoolsFields: seq<FieldMap> := [
    FieldMap("biotools_relevance_score", ["biotools_relevance_score"]),
    FieldMap("biotools_validated", ["biotools_validated"]),
    FieldMap("compound_keyword_matches", ["compound_keyword_matches"]),
    FieldMap("biotools_tool_type", ["biotools_tool_type"]),
    FieldMap("biotools_focus_area", ["biotools_focus_area"]),
    FieldMap("excluded_domain_flags", ["excluded_domain_flags"]),
    FieldMap("negative_filter_score", ["negative_filter_score"]),
    FieldMap("agency_biotools_alignment", ["agency_biotools_alignment"]),
    FieldMap("biotools_confidence_score", ["biotools_confidence_score"])
  ]

  /** The SBIR award fields, with the API's alternative names in order. */
  const AwardStandardFields: seq<FieldMap> := [
    FieldMap("branch", ["branch"]),
    FieldMap("phase", ["phase"]),
    FieldMap("program", ["program"]),
    FieldMap("award_year", ["award_year"]),
    FieldMap("award_amount", ["award_amount"]),
    FieldMap("contract_number", ["contract", "contract_number"]),
    FieldMap("agency_tracking_number", ["agency_tracking_number"]),
    FieldMap("topic_code", ["topic_code"]),
    FieldMap("solicitation_number", ["solicitation_number"]),
    FieldMap("solicitation_year", ["solicitation_year"]),
    FieldMap("company_name", ["firm", "company_name"]),
    FieldMap("company_city", ["city", "company_city"]),
    FieldMap("company_state", ["state", "company_state"]),
    FieldMap("company_uei", ["uei", "company_uei"]),
    FieldMap("company_duns", ["duns", "company_duns"]),
    FieldMap("company_address", ["address1", "company_address", "address"]),
    FieldMap("company_zip", ["zip", "company_zip", "zipcode"]),
    FieldMap("poc_name", ["poc_name"]),
    FieldMap("pi_name", ["pi_name"]),
    FieldMap("ri_name", ["ri_name"])
  ]

  const AwardBooleanFields: seq<Field> := [
    Field("hubzone_owned", "hubzone_owned"),
    Field("socially_economically_disadvantaged", "socially_economically_disadvantaged"),
    Field("women_owned", "women_owned")
  ]

  const AwardDateFields: seq<Field> := [Field("proposal_award_date", "proposal_award_date"), Field("contract_end_date", "contract_end_date")]

  /** `contract or contract_number`, both read with default ''. */
  function ContractId(award: Dict): Json
  {
    Or(Get(award, "contract", JStr("")), Get(award, "contract_number", JStr("")))
  }

  /** The award's row key: `SBIR-<agency>-<contract id>`. */
  function AwardNumber(award: Dict): string
  {
    "SBIR-" + Render(Get(award, "agency", JStr(""))) + "-" + Render(ContractId(award))
  }

  /** The amount: a truthy value through `int(float(str(v)))`, 0 when that
      raises; a falsy value as it is. */
  function AmountValue(award: Dict): (v: Json)
    ensures Truthy(Get(award, "award_amount", JInt(0))) ==> v.JInt?
  {
    var amount := Get(award, "award_amount", JInt(0));
    if Truthy(amount) then JInt(AmountOf(amount)) else amount
  }

  /** The columns written before any table is consulted; `None` when slicing
      the title or the abstract raises. */
  function AwardBasics(award: Dict): Option<Row>
  {
    var summary := Get(award, "abstract", JStr(""));
    var title := Slice(Get(award, "award_title", JStr("")), 250);
    var description := if Truthy(summary) then Slice(summary, 2000) else Some(JStr(""));
    if title.None? || description.None? then None
    else Some(map[
      "funding_opportunity_number" := JStr(AwardNumber(award)),
      "title" := title.value,
      "agency" := Get(award, "agency", JStr("")),
      "description" := description.value,
      "keywords" := Get(award, "research_area_keywords", JStr("")),
      "url" := Get(award, "award_link", JStr("")),
      "amount_min" := JInt(0),
      "amount_max" := AmountValue(award)])
  }

  /** The table-driven stages, in the order the code runs them. */
  function AwardStages(basic: Row, award: Dict, columns: set<Column>, now: string,
                       isoDate: string -> Option<string>): Row
  {
    var copied := CopyFields(CopyFields(basic, award, columns, AwardBiotoolsFields, false),
                             award, columns, AwardStandardFields, false);
    FlagStages(copied, award, columns, AwardBooleanFields, AwardDateFields, isoDate, "award", now)
  }

  function AwardRow(award: Dict, columns: set<Column>, now: string, isoDate: string -> Option<string>): RowOutcome
  {
    match AwardBasics(award)
    case None => Skipped
    case Some(basic) => Store(AwardStages(basic, award, columns, now, isoDate), columns)
  }

  /** The basic columns are none of the table-driven ones. */
  predicate AwardBasicColumn(c: Column)
  {
    c == "funding_opportunity_number" || c == "title" || c == "agency" || c == "description" || c == "keywords"
    || c == "url" || c == "amount_min" || c == "amount_max"
  }

  /** No award table names a basic column. */
  lemma AwardBiotoolsApart(c: Column)
    requires AwardBasicColumn(c)
    ensures forall j :: 0 <= j < |AwardBiotoolsFields| ==> AwardBiotoolsFields[j].column != c
  {
  }

  lemma AwardStandardApart(c: Column)
    requires AwardBasicColumn(c)
    ensures forall j :: 0 <= j < |AwardStandardFields| ==> AwardStandardFields[j].column != c
  {
  }

  lemma AwardFlagsApart(c: Column)
    requires AwardBasicColumn(c)
    ensures forall j :: 0 <= j < |AwardBooleanFields| ==> AwardBooleanFields[j].column != c
    ensures forall j :: 0 <= j < |AwardDateFields| ==> AwardDateFields[j].column != c
  {
  }

  /** The table-driven stages leave the basic columns alone. */
  lemma AwardStagesKeepBasics(basic: Row, award: Dict, columns: set<Column>, now: string,
                              isoDate: string -> Option<string>, c: Column)
    requires AwardBasicColumn(c) && c in basic
    ensures var r := AwardStages(basic, award, columns, now, isoDate); c in r && r[c] == basic[c]
  {
    AwardBiotoolsApart(c);
    AwardStandardApart(c);
    AwardFlagsApart(c);
    CopyTwiceLeaves(basic, award, columns, AwardBiotoolsFields, false, AwardStandardFields, false, c);
    var copied := CopyFields(CopyFields(basic, award, columns, AwardBiotoolsFields, false),
                             award, columns, AwardStandardFields, false);
    FlagStagesLeave(copied, award, columns, AwardBooleanFields, AwardDateFields, isoDate, "award", now, c);
  }

  /** The basic columns of an award that can be sliced, one by one. */
  lemma AwardBasicsShape(award: Dict)
    requires AwardBasics(award).Some?
    ensures var b := AwardBasics(award).value;
      "funding_opportunity_number" in b && b["funding_opportunity_number"] == JStr(AwardNumber(award))
      && "title" in b && b["title"] == Slice(Get(award, "award_title", JStr("")), 250).value
      && "description" in b
      && b["description"] == (if Truthy(Get(award, "abstract", JStr(""))) then Slice(Get(award, "abstract", JStr("")), 2000).value else JStr(""))
      && "amount_max" in b && b["amount_max"] == AmountValue(award)
  {
  }

  /** A saved award's basic column holds what the code computed for it. */
  lemma SavedAwardBasic(award: Dict, columns: set<Column>, now: string, isoDate: string -> Option<string>, c: Column)
    requires AwardRow(award, columns, now, isoDate).Saved? && AwardBasicColumn(c) && c in columns
    ensures AwardBasics(award).Some? && c in AwardBasics(award).value
    ensures var v := AwardBasics(award).value[c];
      v != JNull ==> c in AwardRow(award, columns, now, isoDate).row && AwardRow(award, columns, now, isoDate).row[c] == v
  {
    var basic := AwardBasics(award).value;
    AwardStagesKeepBasics(basic, award, columns, now, isoDate, c);
  }

  /** A saved award's title is its `award_title` cut to 250 characters; a
      title that is not a string (a list, a number, None) gets the award
      skipped. */
  lemma AwardTitleCut(award: Dict, columns: set<Column>, now: string, isoDate: string -> Option<string>)
    requires AwardRow(award, columns, now, isoDate).Saved? && "title" in columns
    ensures "title" in AwardRow(award, columns, now, isoDate).row
    ensures var t := Get(award, "award_title", JStr(""));
      t.JStr? && AwardRow(award, columns, now, isoDate).row["title"] == JStr(Take(t.s, 250))
    ensures |AwardRow(award, columns, now, isoDate).row["title"].s| <= 250
  {
    AwardBasicsShape(award);
    SavedAwardBasic(award, columns, now, isoDate, "title");
  }

  /** A saved award's description is its abstract cut to 2000 characters,
      or empty when the abstract is missing or falsy. */
  lemma AwardDescriptionCut(award: Dict, columns: set<Column>, now: string, isoDate: string -> Option<string>)
    requires AwardRow(award, columns, now, isoDate).Saved? && "description" in columns
    ensures "description" in AwardRow(award, columns, now, isoDate).row
    ensures var a := Get(award, "abstract", JStr(""));
      var d := AwardRow(award, columns, now, isoDate).row["description"];
      (Truthy(a) ==> a.JStr? && d == JStr(Take(a.s, 2000))) && (!Truthy(a) ==> d == JStr(""))
  {
    AwardBasicsShape(award);
    SavedAwardBasic(award, columns, now, isoDate, "description");
  }

  /** A saved award's row key names the agency and the contract, whichever
      of `contract` and `contract_number` is truthy first. */
  lemma AwardNumberNamesContract(award: Dict, columns: set<Column>, now: string, isoDate: string -> Option<string>)
    requires AwardRow(award, columns, now, isoDate).Saved? && "funding_opportunity_number" in columns
    ensures "funding_opportunity_number" in AwardRow(award, columns, now, isoDate).row
    ensures var n := AwardRow(award, columns, now, isoDate).row["funding_opportunity_number"];
      n.JStr? && "SBIR-" + Render(Get(award, "agency", JStr(""))) + "-" <= n.s
    ensures "contract" in award && Truthy(award["contract"]) ==>
      AwardRow(award, columns, now, isoDate).row["funding_opportunity_number"]
        == JStr("SBIR-" + Render(Get(award, "agency", JStr(""))) + "-" + Render(award["contract"]))
    ensures !Truthy(Get(award, "contract", JStr(""))) ==>
      AwardRow(award, columns, now, isoDate).row["funding_opportunity_number"]
        == JStr("SBIR-" + Render(Get(award, "agency", JStr(""))) + "-" + Render(Get(award, "contract_number", JStr(""))))
  {
    AwardBasicsShape(award);
    SavedAwardBasic(award, columns, now, isoDate, "funding_opportunity_number");
  }

  /** A saved award with a truthy amount stores it as a whole number:
      unchanged when it is an int. */
  lemma AwardAmountWhole(award: Dict, columns: set<Column>, now: string, isoDate: string -> Option<string>)
    requires AwardRow(award, columns, now, isoDate).Saved? && "amount_max" in columns
    requires Truthy(Get(award, "award_amount", JInt(0)))
    ensures "amount_max" in AwardRow(award, columns, now, isoDate).row
    ensures AwardRow(award, columns, now, isoDate).row["amount_max"] == JInt(AmountOf(award["award_amount"]))
    ensures award["award_amount"].JInt? ==> AwardRow(award, columns, now, isoDate).row["amount_max"] == award["award_amount"]
  {
    AwardBasicsShape(award);
    SavedAwardBasic(award, columns, now, isoDate, "amount_max");
  }

  lemma AwardStandardDistinctFront()
    ensures forall i, j :: 0 <= i < 10 && i < j < |AwardStandardFields| ==>
      AwardStandardFields[i].column != AwardStandardFields[j].column
  {
    // One index at a time, so that each case compares one column with the rest.
    forall i, j | 0 <= i < 10 && i < j < |AwardStandardFields|
      ensures AwardStandardFields[i].column != AwardStandardFields[j].column
    {
      if i == 0 {
      } else if i == 1 {
      } else if i == 2 {
      } else if i == 3 {
      } else if i == 4 {
      } else if i == 5 {
      } else if i == 6 {
      } else if i == 7 {
      } else if i == 8 {
      }
    }
  }

  lemma AwardStandardDistinctBack()
    ensures forall i, j :: 10 <= i < j < |AwardStandardFields| ==>
      AwardStandardFields[i].column != AwardStandardFields[j].column
  {
    forall i, j | 10 <= i < j < |AwardStandardFields|
      ensures AwardStandardFields[i].column != AwardStandardFields[j].column
    {
      if i == 10 {
      } else if i == 11 {
      } else if i == 12 {
      } else if i == 13 {
      } else if i == 14 {
      } else if i == 15 {
      } else if i == 16 {
      } else if i == 17 {
      } else if i == 18 {
      }
    }
  }

  /** The standard table's columns are distinct. */
  lemma AwardStandardDistinct()
    ensures DistinctColumns(AwardStandardFields)
  {
    AwardStandardDistinctFront();
    AwardStandardDistinctBack();
  }

  /** No later stage writes a standard column. */
  lemma AwardStandardLater(i: nat, now: string)
    requires i < |AwardStandardFields|
    ensures forall j :: 0 <= j < |AwardBooleanFields| ==> AwardBooleanFields[j].column != AwardStandardFields[i].column
    ensures forall j :: 0 <= j < |AwardDateFields| ==> AwardDateFields[j].column != AwardStandardFields[i].column
    ensures !MetadataColumn(AwardStandardFields[i].column)
  {
  }

  /** The award stages leave a standard column with the value of its first
      usable field. */
  lemma AwardStagesStandard(basic: Row, award: Dict, columns: set<Column>, now: string,
                            isoDate: string -> Option<string>, i: nat, k: nat)
    requires i < |AwardStandardFields| && AwardStandardFields[i].column in columns
    requires FirstSource(award, AwardStandardFields[i].sources, false) == Some(k)
    ensures var r := AwardStages(basic, award, columns, now, isoDate); var m := AwardStandardFields[i];
      m.column in r && r[m.column] == award[m.sources[k]]
  {
    var r1 := CopyFields(basic, award, columns, AwardBiotoolsFields, false);
    AwardStandardDistinct();
    AwardStandardLater(i, now);
    CopyFieldsWrites(r1, award, columns, AwardStandardFields, false, i, k);
    FlagStagesLeave(CopyFields(r1, award, columns, AwardStandardFields, false), award, columns,
                    AwardBooleanFields, AwardDateFields, isoDate, "award", now, AwardStandardFields[i].column);
  }

  /** A saved award's standard column holds the value of the first of its
      fields the award has (`firm` before `company_name`, `address1` before
      `company_address` before `address`, ...). */
  lemma AwardStandardCopied(award: Dict, columns: set<Column>, now: string, isoDate: string -> Option<string>,
                            i: nat, k: nat)
    requires AwardRow(award, columns, now, isoDate).Saved?
    requires i < |AwardStandardFields| && AwardStandardFields[i].column in columns
    requires FirstSource(award, AwardStandardFields[i].sources, false) == Some(k)
    requires award[AwardStandardFields[i].sources[k]] != JNull
    ensures var r := AwardRow(award, columns, now, isoDate).row; var m := AwardStandardFields[i];
      m.column in r && r[m.column] == award[m.sources[k]]
  {
    AwardStagesStandard(AwardBasics(award).value, award, columns, now, isoDate, i, k);
  }

  /** The firm's name wins over `company_name` when the award has both. */
  lemma AwardFirmNamesCompany(award: Dict, columns: set<Column>, now: string, isoDate: string -> Option<string>)
    requires AwardRow(award, columns, now, isoDate).Saved? && "company_name" in columns
    requires "firm" in award && award["firm"] != JNull
    ensures var r := AwardRow(award, columns, now, isoDate).row;
      "company_name" in r && r["company_name"] == award["firm"]
  {
    CompanyNameField();
    assert FirstSource(award, AwardStandardFields[10].sources, false) == Some(0);
    AwardStandardCopied(award, columns, now, isoDate, 10, 0);
  }

  /** The eleventh standard field fills `company_name` from `firm` first. */
  lemma CompanyNameField()
    ensures AwardStandardFields[10] == FieldMap("company_name", ["firm", "company_name"])
  {
  }

  /** The award stages leave a boolean column with the award's value read as
      a boolean. */
  lemma AwardStagesFlag(basic: Row, award: Dict, columns: set<Column>, now: string,
                        isoDate: string -> Option<string>, i: nat)
    requires i < |AwardBooleanFields| && AwardBooleanFields[i].column in columns && AwardBooleanFields[i].name in award
    ensures var r := AwardStages(basic, award, columns, now, isoDate); var f := AwardBooleanFields[i];
      f.column in r && r[f.column] == BoolOf(award[f.name])
  {
    var copied := CopyFields(CopyFields(basic, award, columns, AwardBiotoolsFields, false),
                             award, columns, AwardStandardFields, false);
    FlagStagesFlag(copied, award, columns, AwardBooleanFields, AwardDateFields, isoDate, "award", now, i);
  }

  /** A saved award's boolean column holds the award's value read as a
      boolean: `Y`, `YES`, `TRUE` and `1` in any case for a string. */
  lemma AwardFlagRead(award: Dict, columns: set<Column>, now: string, isoDate: string -> Option<string>, i: nat)
    requires AwardRow(award, columns, now, isoDate).Saved?
    requires i < |AwardBooleanFields| && AwardBooleanFields[i].column in columns && AwardBooleanFields[i].name in award
    ensures var r := AwardRow(award, columns, now, isoDate).row; var f := AwardBooleanFields[i];
      f.column in r && r[f.column] == BoolOf(award[f.name])
  {
    AwardStagesFlag(AwardBasics(award).value, award, columns, now, isoDate, i);
  }

  /** A saved award is marked as an SBIR award. */
  lemma AwardMarked(award: Dict, columns: set<Column>, now: string, isoDate: string -> Option<string>)
    requires AwardRow(award, columns, now, isoDate).Saved?
    requires "grant_type" in columns && "data_source" in columns
    ensures var r := AwardRow(award, columns, now, isoDate).row;
      "grant_type" in r && r["grant_type"] == JStr("award") && "data_source" in r && r["data_source"] == JStr("SBIR")
  {
    var copied := CopyFields(CopyFields(AwardBasics(award).value, award, columns, AwardBiotoolsFields, false),
                             award, columns, AwardStandardFields, false);
    var r4 := DateFields(BoolFields(copied, award, columns, AwardBooleanFields), award, columns, AwardDateFields, isoDate);
    MetadataWrites(r4, columns, "award", now);
  }

  /** The first part of the award loop's body: the basic columns, or
      nothing when the title or the abstract cannot be sliced. */
  method BuildAwardBasics(award: Dict) returns (basics: Option<Row>)
    ensures basics == AwardBasics(award)
  {
    var contract := Get(award, "contract", JStr(""));
    if !Truthy(contract) {
      contract := Get(award, "contract_number", JStr(""));
    }
    var title := Get(award, "award_title", JStr(""));
    if !title.JStr? && !title.JList? {
      return None;
    }
    var summary := Get(award, "abstract", JStr(""));
    var description := JStr("");
    if Truthy(summary) {
      if !summary.JStr? && !summary.JList? {
        return None;
      }
      description := Slice(summary, 2000).value;
    }
    var amount := Get(award, "award_amount", JInt(0));
    if Truthy(amount) {
      amount := JInt(AmountOf(amount));
    }
    var row: Row := map[];
    row := row["funding_opportunity_number" := JStr("SBIR-" + Render(Get(award, "agency", JStr(""))) + "-" + Render(contract))];
    row := row["title" := Slice(title, 250).value];
    row := row["agency" := Get(award, "agency", JStr(""))];
    row := row["description" := description];
    row := row["keywords" := Get(award, "research_area_keywords", JStr(""))];
    row := row["url" := Get(award, "award_link", JStr(""))];
    row := row["amount_min" := JInt(0)];
    row := row["amount_max" := amount];
    basics := Some(row);
  }

  /** The body of the award loop in `save_awards`. */
  method BuildAwardRow(award: Dict, columns: set<Column>, now: string, isoDate: string -> Option<string>)
    returns (r: RowOutcome)
    ensures r == AwardRow(award, columns, now, isoDate)
  {
    var basics := BuildAwardBasics(award);
    if basics.None? {
      return Skipped;
    }
    var row := basics.value;
    row := CopyLoop(row, award, columns, AwardBiotoolsFields, false);
    row := CopyLoop(row, award, columns, AwardStandardFields, false);
    row := BoolLoop(row, award, columns, AwardBooleanFields);
    row := DateLoop(row, award, columns, AwardDateFields, isoDate);
    row := SetLoop(row, columns, Metadata("award", now));
    r := StoreRow(row, columns);
  }

  // ------------------------------------------------------------ the batch

  /** The rows a batch INSERTs, in record order. */
  function SavedRows(outcomes: seq<RowOutcome>): (rows: seq<Row>)
    ensures |rows| <= |outcomes|
    ensures forall row :: row in rows ==> Saved(row) in outcomes
  {
    if outcomes == [] then []
    else
      var rows := SavedRows(outcomes[..|outcomes| - 1]);
      var last := outcomes[|outcomes| - 1];
      if last.Saved? then rows + [last.row] else rows
  }

  /** Every saved outcome gives a row. */
  lemma {:induction false} SavedRowsComplete(outcomes: seq<RowOutcome>, row: Row)
    requires Saved(row) in outcomes
    ensures row in SavedRows(outcomes)
  {
    var init := outcomes[..|outcomes| - 1];
    if outcomes[|outcomes| - 1] != Saved(row) {
      var k :| 0 <= k < |outcomes| && outcomes[k] == Saved(row);
      assert init[k] == Saved(row);
      SavedRowsComplete(init, row);
    }
  }

  /** One more record adds its row when it is saved. */
  lemma SavedRowsStep(outcomes: seq<RowOutcome>, last: RowOutcome)
    ensures SavedRows(outcomes + [last]) == if last.Saved? then SavedRows(outcomes) + [last.row] else SavedRows(outcomes)
  {
    assert (outcomes + [last])[..|outcomes|] == outcomes;
  }

  /** What a save loop does with each record, `rowOf` giving one record's
      outcome. */
  function Outcomes(rowOf: Dict -> RowOutcome, records: seq<Dict>): (r: seq<RowOutcome>)
    ensures |r| == |records|
    ensures forall i :: 0 <= i < |records| ==> r[i] == rowOf(records[i])
  {
    if records == [] then []
    else Outcomes(rowOf, records[..|records| - 1]) + [rowOf(records[|records| - 1])]
  }

  /** The loop of `save_awards` and `save_solicitations`: each record's row
      is built (`rowOf`) and INSERTed when it is saved; the count of saved
      rows is returned. */
  method SaveRows(rowOf: Dict -> RowOutcome, records: seq<Dict>) returns (saved: nat, rows: seq<Row>)
    ensures rows == SavedRows(Outcomes(rowOf, records)) && saved == |rows|
    ensures saved <= |records|
  {
    saved, rows := 0, [];
    if records == [] {
      return;
    }
    for i := 0 to |records|
      invariant rows == SavedRows(Outcomes(rowOf, records[..i])) && saved == |rows|
    {
      assert records[..i + 1][..i] == records[..i];
      var outcome := rowOf(records[i]);
      assert Outcomes(rowOf, records[..i + 1]) == Outcomes(rowOf, records[..i]) + [outcome];
      SavedRowsStep(Outcomes(rowOf, records[..i]), outcome);
      if outcome.Saved? {
        rows := rows + [outcome.row];
        saved := saved + 1;
      }
    }
    assert records[..|records|] == records;
  }

  /** The row of one award, for the save loop. */
  function AwardRowOf(columns: set<Column>, now: string, isoDate: string -> Option<string>): Dict -> RowOutcome
  {
    a => AwardRow(a, columns, now, isoDate)
  }

  /** `save_awards`: the rows it INSERTs and their count, the value it
      returns. */
  method SaveAwards(awards: seq<Dict>, columns: set<Column>, now: string, isoDate: string -> Option<string>)
    returns (saved: nat, rows: seq<Row>)
    ensures rows == SavedRows(Outcomes(AwardRowOf(columns, now, isoDate), awards)) && saved == |rows|
    ensures saved <= |awards|
  {
    saved, rows := SaveRows(AwardRowOf(columns, now, isoDate), awards);
  }

  // --------------------------------------------------------- solicitations

  /** Solicitation fields copied under their own name when the table has them. */
  const SolicitationBiotoolsFields: seq<FieldMap> := [
    FieldMap("biotools_relevance_score", ["biotools_relevance_score"]),
    FieldMap("biotools_validated", ["biotools_validated"]),
    FieldMap("compound_keyword_matches", ["compound_keyword_matches"]),
    FieldMap("biotools_tool_type", ["biotools_tool_type"]),
    FieldMap("biotools_focus_area", ["biotools_focus_area"]),
    FieldMap("agency_biotools_alignment", ["agency_biotools_alignment"]),
    FieldMap("biotools_confidence_score", ["biotools_confidence_score"])
  ]

  /** The one SBIR field read by presence alone. */
  const BranchField: seq<FieldMap> := [FieldMap("branch", ["branch"])]

  /** The SBIR fields read from the first truthy of their names. */
  const SbirFields: seq<FieldMap> := [
    FieldMap("phase", ["phase", "solicitation_phase"]),
    FieldMap("program", ["program", "solicitation_program"]),
    FieldMap("current_status", ["current_status", "status", "solicitation_status"]),
    FieldMap("open_date", ["open_date", "release_date", "start_date"]),
    FieldMap("close_date", ["close_date", "deadline", "due_date"]),
    FieldMap("solicitation_number", ["solicitation_number", "solicitation_id", "id"]),
    FieldMap("solicitation_year", ["solicitation_year", "year"])
  ]

  /** The fields whose text starts the description. */
  const DescriptionFields: seq<string> := ["description", "solicitation_description", "summary"]

  /** The solicitation's number: its first truthy identifier, else
      `SOL-<agency>-<epoch seconds>`. */
  function SolicitationIdentifier(sol: Dict, epoch: int): (v: Json)
    ensures "solicitation_number" in sol && Truthy(sol["solicitation_number"]) ==> v == sol["solicitation_number"]
    ensures !Truthy(Get(sol, "solicitation_number", JNull)) && !Truthy(Get(sol, "solicitation_id", JNull))
            && !Truthy(Get(sol, "id", JNull))
            ==> v == JStr("SOL-" + Render(Get(sol, "agency", JStr("UNK"))) + "-" + IntToString(epoch))
  {
    FirstTruthy(sol, ["solicitation_number", "solicitation_id", "id"],
                JStr("SOL-" + Render(Get(sol, "agency", JStr("UNK"))) + "-" + IntToString(epoch)))
  }

  /** The title before the cut. */
  function SolicitationTitle(sol: Dict): Json
  {
    FirstTruthy(sol, ["solicitation_title", "title"], JStr("Untitled Solicitation"))
  }

  /** The truthy description fields, in order. */
  function DirectParts(sol: Dict, fields: seq<string>): (r: seq<Json>)
    ensures |r| <= |fields|
    ensures forall v :: v in r ==> Truthy(v)
  {
    if fields == [] then []
    else
      var r := DirectParts(sol, fields[..|fields| - 1]);
      var f := fields[|fields| - 1];
      if Truthy(Get(sol, f, JNull)) then r + [sol[f]] else r
  }

  /** One topic's part: `"<title> <description>".strip()`, for a dict topic
      with a truthy title or description. */
  function TopicPart(topic: Json): seq<string>
  {
    match topic
    case JObject(t) =>
      var title := Get(t, "topic_title", JStr(""));
      var description := Get(t, "topic_description", JStr(""));
      if Truthy(title) || Truthy(description) then [Strip(Render(title) + " " + Render(description))] else []
    case _ => []
  }

  /** The parts of a list of topics, in order. */
  function TopicParts(topics: seq<Json>): (r: seq<string>)
    ensures |r| <= |topics|
  {
    if topics == [] then []
    else TopicParts(topics[..|topics| - 1]) + TopicPart(topics[|topics| - 1])
  }

  /** The parts the topics give: one per topic for a list, the text itself
      for a string. */
  function TopicsText(sol: Dict): seq<string>
  {
    if "solicitation_topics" in sol && Truthy(sol["solicitation_topics"]) then
      match sol["solicitation_topics"]
      case JList(items) => TopicParts(items)
      case JStr(s) => [s]
      case _ => []
    else []
  }

  /** Every part is a string, so that `' '.join` does not raise. */
  predicate AllText(parts: seq<Json>)
  {
    forall v :: v in parts ==> v.JStr?
  }

  function Texts(parts: seq<Json>): (r: seq<string>)
    requires AllText(parts)
    ensures |r| == |parts| && forall k :: 0 <= k < |parts| ==> r[k] == parts[k].s
  {
    if parts == [] then [] else [parts[0].s] + Texts(parts[1..])
  }

  /** The description parts; `None` when a description field holds something
      other than a string. */
  function DescriptionParts(sol: Dict): Option<seq<string>>
  {
    var direct := DirectParts(sol, DescriptionFields);
    if AllText(direct) then Some(Texts(direct) + TopicsText(sol)) else None
  }

  /** The description: the parts joined by spaces and cut to 2000 characters. */
  function SolicitationDescription(sol: Dict): Option<Json>
  {
    match DescriptionParts(sol)
    case None => None
    case Some(parts) => Some(JStr(if parts == [] then "" else Take(Join(parts, " "), 2000)))
  }

  /** The topics column: `json.dumps` of a list or dict, `str()` of the rest. */
  function TopicsValue(v: Json, dumps: Json -> string): Json
  {
    if v.JList? || v.JObject? then JStr(dumps(v)) else JStr(Render(v))
  }

  /** The columns written before any table is consulted; `None` when slicing
      the title or joining the description raises. */
  function SolicitationBasics(sol: Dict, epoch: int): Option<Row>
  {
    var title := Slice(SolicitationTitle(sol), 250);
    var description := SolicitationDescription(sol);
    if title.None? || description.None? then None
    else Some(map[
      "funding_opportunity_number" := JStr("SOL-" + Render(SolicitationIdentifier(sol, epoch))),
      "title" := title.value,
      "agency" := Get(sol, "agency", JStr("")),
      "deadline" := Get(sol, "close_date", JStr("")),
      "url" := FirstTruthy(sol, ["solicitation_agency_url", "agency_url"], Get(sol, "url", JStr(""))),
      "description" := description.value])
  }

  /** The topics stage. */
  function WithTopics(row: Row, sol: Dict, columns: set<Column>, dumps: Json -> string): Row
  {
    if "solicitation_topics" in columns && "solicitation_topics" in sol
    then row["solicitation_topics" := TopicsValue(sol["solicitation_topics"], dumps)]
    else row
  }

  /** The table-driven stages, in the order the code runs them. */
  function SolicitationStages(basic: Row, sol: Dict, columns: set<Column>, now: string, dumps: Json -> string): Row
  {
    var r1 := CopyFields(basic, sol, columns, SolicitationBiotoolsFields, false);
    var r2 := CopyFields(r1, sol, columns, BranchField, false);
    var r3 := CopyFields(r2, sol, columns, SbirFields, true);
    var r4 := WithTopics(r3, sol, columns, dumps);
    SetFields(r4, columns, Metadata("solicitation", now))
  }

  /** What `save_solicitations` does with one solicitation. */
  function SolicitationRow(sol: Dict, columns: set<Column>, now: string, epoch: int, dumps: Json -> string): RowOutcome
  {
    match SolicitationBasics(sol, epoch)
    case None => Skipped
    case Some(basic) => Store(SolicitationStages(basic, sol, columns, now, dumps), columns)
  }

  predicate SolicitationBasicColumn(c: Column)
  {
    c == "funding_opportunity_number" || c == "title" || c == "agency" || c == "deadline" || c == "url" || c == "description"
  }

  /** No solicitation table names a basic column. */
  lemma SolicitationBiotoolsApart(c: Column)
    requires SolicitationBasicColumn(c)
    ensures forall j :: 0 <= j < |SolicitationBiotoolsFields| ==> SolicitationBiotoolsFields[j].column != c
  {
  }

  lemma SolicitationSbirApart(c: Column)
    requires SolicitationBasicColumn(c)
    ensures forall j :: 0 <= j < |BranchField| ==> BranchField[j].column != c
    ensures forall j :: 0 <= j < |SbirFields| ==> SbirFields[j].column != c
  {
  }

  /** The table-driven stages leave the basic columns alone. */
  lemma SolicitationStagesKeepBasics(basic: Row, sol: Dict, columns: set<Column>, now: string,
                                     dumps: Json -> string, c: Column)
    requires SolicitationBasicColumn(c) && c in basic
    ensures var r := SolicitationStages(basic, sol, columns, now, dumps); c in r && r[c] == basic[c]
  {
    SolicitationBiotoolsApart(c);
    SolicitationSbirApart(c);
    var r1 := CopyFields(basic, sol, columns, SolicitationBiotoolsFields, false);
    var r2 := CopyFields(r1, sol, columns, BranchField, false);
    var r3 := CopyFields(r2, sol, columns, SbirFields, true);
    var r4 := WithTopics(r3, sol, columns, dumps);
    CopyFieldsLeaves(basic, sol, columns, SolicitationBiotoolsFields, false, c);
    CopyFieldsLeaves(r1, sol, columns, BranchField, false, c);
    CopyFieldsLeaves(r2, sol, columns, SbirFields, true, c);
    MetadataLeaves(r4, columns, "solicitation", now, c);
  }

  /** The basic columns of a solicitation that can be sliced, one by one. */
  lemma SolicitationBasicsShape(sol: Dict, epoch: int)
    requires SolicitationBasics(sol, epoch).Some?
    ensures var b := SolicitationBasics(sol, epoch).value;
      "funding_opportunity_number" in b
      && b["funding_opportunity_number"] == JStr("SOL-" + Render(SolicitationIdentifier(sol, epoch)))
      && "title" in b && b["title"] == Slice(SolicitationTitle(sol), 250).value
      && "description" in b && b["description"] == SolicitationDescription(sol).value
  {
  }

  /** A saved solicitation's basic column holds what the code computed for it. */
  lemma SavedSolicitationBasic(sol: Dict, columns: set<Column>, now: string, epoch: int, dumps: Json -> string, c: Column)
    requires SolicitationRow(sol, columns, now, epoch, dumps).Saved? && SolicitationBasicColumn(c) && c in columns
    ensures SolicitationBasics(sol, epoch).Some? && c in SolicitationBasics(sol, epoch).value
    ensures var v := SolicitationBasics(sol, epoch).value[c];
      v != JNull ==> c in SolicitationRow(sol, columns, now, epoch, dumps).row
                     && SolicitationRow(sol, columns, now, epoch, dumps).row[c] == v
  {
    SolicitationStagesKeepBasics(SolicitationBasics(sol, epoch).value, sol, columns, now, dumps, c);
  }

  /** A saved solicitation's row key is `SOL-` and its number, so a
      solicitation without an identifier gets `SOL-SOL-<agency>-<epoch>`. */
  lemma SolicitationKeyed(sol: Dict, columns: set<Column>, now: string, epoch: int, dumps: Json -> string)
    requires SolicitationRow(sol, columns, now, epoch, dumps).Saved? && "funding_opportunity_number" in columns
    ensures var r := SolicitationRow(sol, columns, now, epoch, dumps).row;
      "funding_opportunity_number" in r
      && r["funding_opportunity_number"] == JStr("SOL-" + Render(SolicitationIdentifier(sol, epoch)))
  {
    SolicitationBasicsShape(sol, epoch);
    SavedSolicitationBasic(sol, columns, now, epoch, dumps, "funding_opportunity_number");
  }

  /** A saved solicitation's title is its first truthy title cut to 250
      characters. */
  lemma SolicitationTitleCut(sol: Dict, columns: set<Column>, now: string, epoch: int, dumps: Json -> string)
    requires SolicitationRow(sol, columns, now, epoch, dumps).Saved? && "title" in columns
    ensures "title" in SolicitationRow(sol, columns, now, epoch, dumps).row
    ensures var t := SolicitationRow(sol, columns, now, epoch, dumps).row["title"];
      SolicitationTitle(sol).JStr? && t == JStr(Take(SolicitationTitle(sol).s, 250)) && |t.s| <= 250
  {
    SavedTitle(sol, columns, now, epoch, dumps);
  }

  /** A saved solicitation without a truthy title field is titled
      `Untitled Solicitation`. */
  lemma SolicitationUntitled(sol: Dict, columns: set<Column>, now: string, epoch: int, dumps: Json -> string)
    requires SolicitationRow(sol, columns, now, epoch, dumps).Saved? && "title" in columns
    requires !Truthy(Get(sol, "solicitation_title", JNull)) && !Truthy(Get(sol, "title", JNull))
    ensures "title" in SolicitationRow(sol, columns, now, epoch, dumps).row
    ensures SolicitationRow(sol, columns, now, epoch, dumps).row["title"] == JStr("Untitled Solicitation")
  {
    SavedTitle(sol, columns, now, epoch, dumps);
    UntitledSolicitation(sol);
  }

  /** The saved title is the cut title, which can be bound. */
  lemma SavedTitle(sol: Dict, columns: set<Column>, now: string, epoch: int, dumps: Json -> string)
    requires SolicitationRow(sol, columns, now, epoch, dumps).Saved? && "title" in columns
    ensures Slice(SolicitationTitle(sol), 250).Some?
    ensures var r := SolicitationRow(sol, columns, now, epoch, dumps).row;
      "title" in r && r["title"] == Slice(SolicitationTitle(sol), 250).value && Bindable(r["title"])
  {
    SolicitationBasicsShape(sol, epoch);
    SavedSolicitationBasic(sol, columns, now, epoch, dumps, "title");
  }

  /** Without a truthy title field the title is `Untitled Solicitation`. */
  lemma UntitledSolicitation(sol: Dict)
    requires !Truthy(Get(sol, "solicitation_title", JNull)) && !Truthy(Get(sol, "title", JNull))
    ensures SolicitationTitle(sol) == JStr("Untitled Solicitation")
  {
    assert forall k :: k in ["solicitation_title", "title"] ==> !Truthy(Get(sol, k, JNull));
  }

  /** A saved solicitation's description is a prefix of its joined parts, at
      most 2000 characters long; when the parts fit, each of them is in it. */
  lemma SolicitationDescriptionCut(sol: Dict, columns: set<Column>, now: string, epoch: int, dumps: Json -> string)
    requires SolicitationRow(sol, columns, now, epoch, dumps).Saved? && "description" in columns
    ensures DescriptionParts(sol).Some? && "description" in SolicitationRow(sol, columns, now, epoch, dumps).row
    ensures var d := SolicitationRow(sol, columns, now, epoch, dumps).row["description"];
      var parts := DescriptionParts(sol).value;
      d.JStr? && d.s <= Join(parts, " ") && |d.s| <= 2000
      && (|Join(parts, " ")| <= 2000 ==> forall k :: 0 <= k < |parts| ==> Contains(d.s, parts[k]))
  {
    SolicitationBasicsShape(sol, epoch);
    SavedSolicitationBasic(sol, columns, now, epoch, dumps, "description");
    var parts := DescriptionParts(sol).value;
    forall k | 0 <= k < |parts| && |Join(parts, " ")| <= 2000
      ensures Contains(Join(parts, " "), parts[k])
    {
      JoinContainsParts(parts, " ", k);
    }
  }

  /** The SBIR table's columns are distinct, and no later stage writes one. */
  lemma SbirFieldsApart(i: nat, now: string)
    requires i < |SbirFields|
    ensures DistinctColumns(SbirFields)
    ensures SbirFields[i].column != "solicitation_topics"
    ensures !MetadataColumn(SbirFields[i].column)
  {
  }

  /** A saved solicitation's SBIR column holds the first truthy of its fields
      (`phase` before `solicitation_phase`, `close_date` before `deadline`
      before `due_date`, ...). */
  lemma SolicitationSbirCopied(sol: Dict, columns: set<Column>, now: string, epoch: int, dumps: Json -> string,
                               i: nat, k: nat)
    requires SolicitationRow(sol, columns, now, epoch, dumps).Saved?
    requires i < |SbirFields| && SbirFields[i].column in columns
    requires FirstSource(sol, SbirFields[i].sources, true) == Some(k)
    ensures var r := SolicitationRow(sol, columns, now, epoch, dumps).row; var m := SbirFields[i];
      m.column in r && r[m.column] == sol[m.sources[k]]
  {
    SolicitationStagesSbir(SolicitationBasics(sol, epoch).value, sol, columns, now, dumps, i, k);
  }

  /** The solicitation stages leave an SBIR column with the value of its first
      truthy field. */
  lemma SolicitationStagesSbir(basic: Row, sol: Dict, columns: set<Column>, now: string, dumps: Json -> string,
                               i: nat, k: nat)
    requires i < |SbirFields| && SbirFields[i].column in columns
    requires FirstSource(sol, SbirFields[i].sources, true) == Some(k)
    ensures var r := SolicitationStages(basic, sol, columns, now, dumps); var m := SbirFields[i];
      m.column in r && r[m.column] == sol[m.sources[k]]
  {
    var m := SbirFields[i];
    var r1 := CopyFields(basic, sol, columns, SolicitationBiotoolsFields, false);
    var r2 := CopyFields(r1, sol, columns, BranchField, false);
    var r3 := CopyFields(r2, sol, columns, SbirFields, true);
    var r4 := WithTopics(r3, sol, columns, dumps);
    SbirFieldsApart(i, now);
    CopyFieldsWrites(r2, sol, columns, SbirFields, true, i, k);
    MetadataLeaves(r4, columns, "solicitation", now, m.column);
  }

  /** The stages store the topics as `json.dumps` or `str()` gives them. */
  lemma StagesStoreTopics(basic: Row, sol: Dict, columns: set<Column>, now: string, dumps: Json -> string)
    requires "solicitation_topics" in columns && "solicitation_topics" in sol
    ensures var r := SolicitationStages(basic, sol, columns, now, dumps);
      "solicitation_topics" in r && r["solicitation_topics"] == TopicsValue(sol["solicitation_topics"], dumps)
  {
    var r1 := CopyFields(basic, sol, columns, SolicitationBiotoolsFields, false);
    var r2 := CopyFields(r1, sol, columns, BranchField, false);
    var r3 := CopyFields(r2, sol, columns, SbirFields, true);
    var r4 := WithTopics(r3, sol, columns, dumps);
    MetadataLeaves(r4, columns, "solicitation", now, "solicitation_topics");
  }

  /** A saved solicitation stores its topics as JSON text when they are a
      list or a dict, and as they are when they are a string. */
  lemma SolicitationTopicsStored(sol: Dict, columns: set<Column>, now: string, epoch: int, dumps: Json -> string)
    requires SolicitationRow(sol, columns, now, epoch, dumps).Saved?
    requires "solicitation_topics" in columns && "solicitation_topics" in sol
    ensures var r := SolicitationRow(sol, columns, now, epoch, dumps).row; var t := sol["solicitation_topics"];
      "solicitation_topics" in r && ((t.JList? || t.JObject?) ==> r["solicitation_topics"] == JStr(dumps(t)))
      && (t.JStr? ==> r["solicitation_topics"] == t)
  {
    StagesStoreTopics(SolicitationBasics(sol, epoch).value, sol, columns, now, dumps);
  }

  /** A saved solicitation is marked as one. */
  lemma SolicitationMarked(sol: Dict, columns: set<Column>, now: string, epoch: int, dumps: Json -> string)
    requires SolicitationRow(sol, columns, now, epoch, dumps).Saved? && "grant_type" in columns
    ensures var r := SolicitationRow(sol, columns, now, epoch, dumps).row;
      "grant_type" in r && r["grant_type"] == JStr("solicitation")
  {
    var basic := SolicitationBasics(sol, epoch).value;
    var r1 := CopyFields(basic, sol, columns, SolicitationBiotoolsFields, false);
    var r2 := CopyFields(r1, sol, columns, BranchField, false);
    var r3 := CopyFields(r2, sol, columns, SbirFields, true);
    var r4 := WithTopics(r3, sol, columns, dumps);
    MetadataWrites(r4, columns, "solicitation", now);
  }

  /** The loop over the description fields. */
  method CollectDirectParts(sol: Dict) returns (parts: seq<Json>)
    ensures parts == DirectParts(sol, DescriptionFields)
  {
    parts := [];
    for i := 0 to |DescriptionFields|
      invariant parts == DirectParts(sol, DescriptionFields[..i])
    {
      assert DescriptionFields[..i + 1][..i] == DescriptionFields[..i];
      var f := DescriptionFields[i];
      if f in sol && Truthy(sol[f]) {
        parts := parts + [sol[f]];
      }
    }
    assert DescriptionFields[..|DescriptionFields|] == DescriptionFields;
  }

  /** The loop over the topics. */
  method CollectTopicParts(topics: seq<Json>) returns (parts: seq<string>)
    ensures parts == TopicParts(topics)
  {
    parts := [];
    for i := 0 to |topics|
      invariant parts == TopicParts(topics[..i])
    {
      assert topics[..i + 1][..i] == topics[..i];
      var topic := topics[i];
      if topic.JObject? {
        var title := Get(topic.fields, "topic_title", JStr(""));
        var description := Get(topic.fields, "topic_description", JStr(""));
        if Truthy(title) || Truthy(description) {
          parts := parts + [Strip(Render(title) + " " + Render(description))];
        }
      }
    }
    assert topics[..|topics|] == topics;
  }

  /** The description as the code builds it; `None` when the join raises. */
  method BuildDescription(sol: Dict) returns (d: Option<Json>)
    ensures d == SolicitationDescription(sol)
  {
    var direct := CollectDirectParts(sol);
    if exists v :: v in direct && !v.JStr? {
      return None;
    }
    assert AllText(direct);
    var parts := Texts(direct);
    var topicParts: seq<string> := [];
    if "solicitation_topics" in sol && Truthy(sol["solicitation_topics"]) {
      var topics := sol["solicitation_topics"];
      if topics.JList? {
        topicParts := CollectTopicParts(topics.items);
      } else if topics.JStr? {
        topicParts := [topics.s];
      }
    }
    assert topicParts == TopicsText(sol);
    parts := parts + topicParts;
    assert Some(parts) == DescriptionParts(sol);
    if parts == [] {
      return Some(JStr(""));
    }
    return Some(JStr(Take(Join(parts, " "), 2000)));
  }

  /** The body of the solicitation loop in `save_solicitations`. */
  method BuildSolicitationRow(sol: Dict, columns: set<Column>, now: string, epoch: int, dumps: Json -> string)
    returns (r: RowOutcome)
    ensures r == SolicitationRow(sol, columns, now, epoch, dumps)
  {
    var number := SolicitationIdentifier(sol, epoch);
    var title := SolicitationTitle(sol);
    if !title.JStr? && !title.JList? {
      return Skipped;
    }
    var description := BuildDescription(sol);
    if description.None? {
      return Skipped;
    }
    var row: Row := map[];
    row := row["funding_opportunity_number" := JStr("SOL-" + Render(number))];
    row := row["title" := Slice(title, 250).value];
    row := row["agency" := Get(sol, "agency", JStr(""))];
    row := row["deadline" := Get(sol, "close_date", JStr(""))];
    row := row["url" := FirstTruthy(sol, ["solicitation_agency_url", "agency_url"], Get(sol, "url", JStr("")))];
    row := row["description" := description.value];
    assert Some(row) == SolicitationBasics(sol, epoch);
    row := CopyLoop(row, sol, columns, SolicitationBiotoolsFields, false);
    row := CopyLoop(row, sol, columns, BranchField, false);
    row := CopyLoop(row, sol, columns, SbirFields, true);
    if "solicitation_topics" in columns && "solicitation_topics" in sol {
      var topics := sol["solicitation_topics"];
      if topics.JList? || topics.JObject? {
        row := row["solicitation_topics" := JStr(dumps(topics))];
      } else {
        row := row["solicitation_topics" := JStr(Render(topics))];
      }
    }
    row := SetLoop(row, columns, Metadata("solicitation", now));
    r := StoreRow(row, columns);
  }

  /** The row of one solicitation, for the save loop. */
  function SolicitationRowOf(columns: set<Column>, now: string, epoch: int, dumps: Json -> string): Dict -> RowOutcome
  {
    sol => SolicitationRow(sol, columns, now, epoch, dumps)
  }

  /** `save_solicitations`: the rows it INSERTs and their count. */
  method SaveSolicitations(sols: seq<Dict>, columns: set<Column>, now: string, epoch: int, dumps: Json -> string)
    returns (saved: nat, rows: seq<Row>)
    ensures rows == SavedRows(Outcomes(SolicitationRowOf(columns, now, epoch, dumps), sols)) && saved == |rows|
    ensures saved <= |sols|
  {
    saved, rows := SaveRows(SolicitationRowOf(columns, now, epoch, dumps), sols);
  }
}
