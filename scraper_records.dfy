/** The de-duplication of the collected solicitations in the SBIR scraper
    (app/scraper.py `fetch_biotools_solicitations`): each solicitation is
    keyed by its first identifier, and the first one per key is kept. */
module ScraperRecords {
  import opened Options
  import opened Text
  import opened JsonValue

  // --------------------------------------------------------------- dedup

  /** A dict key as Python hashes it: `1`, `1.0` and `True` are one key. */
  datatype Key = NumKey(x: real) | StrKey(s: string) | NoneKey

  /** The key a value makes; `None` for a list or a dict, which cannot be hashed. */
  function KeyOf(v: Json): (r: Option<Key>)
    ensures r.None? <==> v.JList? || v.JObject?
  {
    match v
    case JNull => Some(NoneKey)
    case JBool(b) => Some(NumKey(if b then 1.0 else 0.0))
    case JInt(i) => Some(NumKey(i as real))
    case JFloat(x) => Some(NumKey(x))
    case JStr(s) => Some(StrKey(s))
    case _ => None
  }

  /** `sol_id`: the first truthy of `solicitation_number`, `solicitation_id`
      and `id`, else `"{agency}_{solicitation_title}"`. */
  function SolicitationId(sol: Dict): Json
  {
    FirstTruthy(sol, ["solicitation_number", "solicitation_id", "id"],
      JStr(Render(Get(sol, "agency", JStr("unknown"))) + "_" + Render(Get(sol, "solicitation_title", JStr("untitled")))))
  }

  /** The key of a collected solicitation. */
  function SolicitationKey(sol: Dict): Option<Key>
  {
    KeyOf(SolicitationId(sol))
  }

  /** The keys of the hashable records, that is the keys of
      `unique_solicitations` after these records. */
  function SeenKeys(key: Dict -> Option<Key>, sols: seq<Dict>): set<Key>
  {
    if sols == [] then {}
    else
      var k := key(sols[|sols| - 1]);
      SeenKeys(key, sols[..|sols| - 1]) + (if k.Some? then {k.value} else {})
  }

  /** `list(unique_solicitations.values())`: each record whose key no
      earlier record has, in order; `None` when a key cannot be hashed and
      the lookup raises. */
  function Dedup(key: Dict -> Option<Key>, sols: seq<Dict>): (r: Option<seq<Dict>>)
    ensures r.Some? ==> forall d :: d in r.value ==> d in sols && key(d).Some? && key(d).value in SeenKeys(key, sols)
  {
    if sols == [] then Some([])
    else
      var init := sols[..|sols| - 1];
      var last := sols[|sols| - 1];
      match Dedup(key, init)
      case None => None
      case Some(kept) =>
        match key(last)
        case None => None
        case Some(k) => if k in SeenKeys(key, init) then Some(kept) else Some(kept + [last])
  }

  /** The kept records have distinct keys. */
  lemma {:induction false} DedupDistinct(key: Dict -> Option<Key>, sols: seq<Dict>)
    requires Dedup(key, sols).Some?
    ensures var r := Dedup(key, sols).value;
      forall i, j :: 0 <= i < j < |r| ==> key(r[i]) != key(r[j])
  {
    if sols != [] {
      var init := sols[..|sols| - 1];
      DedupDistinct(key, init);
      var kept := Dedup(key, init).value;
      var r := Dedup(key, sols).value;
      forall i, j | 0 <= i < j < |r| ensures key(r[i]) != key(r[j]) {
        if j == |kept| {
          assert r[i] == kept[i] && kept[i] in kept;
        } else {
          assert r[i] == kept[i] && r[j] == kept[j];
        }
      }
    }
  }

  /** The kept records keep their input order. */
  lemma {:induction false} DedupInOrder(key: Dict -> Option<Key>, sols: seq<Dict>)
    requires Dedup(key, sols).Some?
    ensures IsSubsequence(Dedup(key, sols).value, sols)
  {
    if sols != [] {
      var init := sols[..|sols| - 1];
      DedupInOrder(key, init);
      var kept := Dedup(key, init).value;
      var r := Dedup(key, sols).value;
      if r != kept {
        assert r[..|r| - 1] == kept;
      }
    }
  }

  /** The first record of every key is kept. */
  lemma {:induction false} DedupKeepsFirst(key: Dict -> Option<Key>, sols: seq<Dict>, i: nat)
    requires Dedup(key, sols).Some? && i < |sols|
    requires key(sols[i]).Some? && key(sols[i]).value !in SeenKeys(key, sols[..i])
    ensures sols[i] in Dedup(key, sols).value
  {
    var init := sols[..|sols| - 1];
    if i == |sols| - 1 {
      assert init == sols[..i];
    } else {
      assert init[..i] == sols[..i] && init[i] == sols[i];
      DedupKeepsFirst(key, init, i);
    }
  }

  /** De-duplication fails exactly when some record's key cannot be hashed. */
  lemma {:induction false} DedupFails(key: Dict -> Option<Key>, sols: seq<Dict>)
    ensures Dedup(key, sols).None? <==> exists d :: d in sols && key(d).None?
  {
    if sols != [] {
      var init := sols[..|sols| - 1];
      DedupFails(key, init);
      if exists d :: d in init && key(d).None? {
        var d :| d in init && key(d).None?;
        assert d in sols;
      }
      if exists d :: d in sols && key(d).None? {
        var d :| d in sols && key(d).None?;
        if d != sols[|sols| - 1] {
          var k :| 0 <= k < |sols| && sols[k] == d;
          assert init[k] == d;
        }
      }
    }
  }

  /** The de-duplication loop, with the dict modelled by its key set and the
      list of its values in insertion order. */
  method DedupSolicitations(sols: seq<Dict>) returns (r: Option<seq<Dict>>)
    ensures r == Dedup(SolicitationKey, sols)
  {
    r := DedupBy(SolicitationKey, sols);
  }

  /** The loop itself, for any key function. */
  method DedupBy(key: Dict -> Option<Key>, sols: seq<Dict>) returns (r: Option<seq<Dict>>)
    ensures r == Dedup(key, sols)
  {
    var seen: set<Key> := {};
    var unique: seq<Dict> := [];
    for i := 0 to |sols|
      invariant seen == SeenKeys(key, sols[..i])
      invariant Dedup(key, sols[..i]) == Some(unique)
    {
      assert sols[..i + 1][..i] == sols[..i];
      var id := key(sols[i]);
      if id.None? {
        DedupFailsLater(key, sols, i + 1);
        return None;
      }
      if id.value !in seen {
        unique := unique + [sols[i]];
      }
      seen := seen + {id.value};
    }
    assert sols[..|sols|] == sols;
    return Some(unique);
  }

  /** Once a prefix has failed, the whole list fails. */
  lemma {:induction false} DedupFailsLater(key: Dict -> Option<Key>, sols: seq<Dict>, n: nat)
    requires n <= |sols| && Dedup(key, sols[..n]).None?
    ensures Dedup(key, sols).None?
    decreases |sols| - n
  {
    if n < |sols| {
      assert sols[..n + 1][..n] == sols[..n];
      DedupFailsLater(key, sols, n + 1);
    } else {
      assert sols[..n] == sols;
    }
  }
}
