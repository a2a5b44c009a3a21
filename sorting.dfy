/** Python's `list.sort(key=..., reverse=True)`: a stable sort by a real key,
    largest first. Both search backends sort their results this way. */
module Sorting {

  /** The keys never increase along `s`. */
  ghost predicate SortedDesc<T>(s: seq<T>, key: T -> real)
  {
    forall i, j :: 0 <= i < j < |s| ==> key(s[i]) >= key(s[j])
  }

  /** Places `x` after every element whose key is at least its own, so that
      an element inserted later stays behind the equal ones before it. */
  function InsertDesc<T>(x: T, s: seq<T>, key: T -> real): (r: seq<T>)
    ensures |r| == |s| + 1
    ensures multiset(r) == multiset(s) + multiset{x}
  {
    if s == [] then [x]
    else if key(s[0]) >= key(x) then
      assert s == [s[0]] + s[1..];
      [s[0]] + InsertDesc(x, s[1..], key)
    else [x] + s
  }

  /** The sorted list, built by inserting the elements in list order. */
  function SortDesc<T>(s: seq<T>, key: T -> real): (r: seq<T>)
    ensures |r| == |s|
    ensures multiset(r) == multiset(s)
  {
    if s == [] then []
    else
      assert s == s[..|s| - 1] + [s[|s| - 1]];
      InsertDesc(s[|s| - 1], SortDesc(s[..|s| - 1], key), key)
  }

  /** Every element of the insertion result comes from `s` or is `x`. */
  lemma InsertMembers<T>(x: T, s: seq<T>, key: T -> real, y: T)
    requires y in InsertDesc(x, s, key)
    ensures y == x || y in s
  {
    assert y in multiset(InsertDesc(x, s, key));
  }

  /** Inserting into a sorted list keeps it sorted. */
  lemma {:induction false} InsertSorted<T>(x: T, s: seq<T>, key: T -> real)
    requires SortedDesc(s, key)
    ensures SortedDesc(InsertDesc(x, s, key), key)
  {
    if s != [] && key(s[0]) >= key(x) {
      var rest := s[1..];
      assert SortedDesc(rest, key) by {
        forall i, j | 0 <= i < j < |rest| ensures key(rest[i]) >= key(rest[j]) {
          assert rest[i] == s[i + 1] && rest[j] == s[j + 1];
        }
      }
      InsertSorted(x, rest, key);
      var tail := InsertDesc(x, rest, key);
      var r := [s[0]] + tail;
      forall i, j | 0 <= i < j < |r| ensures key(r[i]) >= key(r[j]) {
        if i == 0 {
          assert r[j] == tail[j - 1];
          InsertMembers(x, rest, key, tail[j - 1]);
          if tail[j - 1] != x {
            var k :| 0 <= k < |rest| && rest[k] == tail[j - 1];
            assert s[k + 1] == rest[k];
          }
        } else {
          assert r[i] == tail[i - 1] && r[j] == tail[j - 1];
        }
      }
    } else if s != [] {
      var r := [x] + s;
      forall i, j | 0 <= i < j < |r| ensures key(r[i]) >= key(r[j]) {
        if i == 0 {
          assert r[j] == s[j - 1];
          assert key(s[0]) >= key(s[j - 1]) || j - 1 == 0;
        } else {
          assert r[i] == s[i - 1] && r[j] == s[j - 1];
        }
      }
    }
  }

  /** The result of the sort is sorted, largest key first. */
  lemma {:induction false} SortDescSorted<T>(s: seq<T>, key: T -> real)
    ensures SortedDesc(SortDesc(s, key), key)
  {
    if s != [] {
      SortDescSorted(s[..|s| - 1], key);
      InsertSorted(s[|s| - 1], SortDesc(s[..|s| - 1], key), key);
    }
  }

  /** Sorting keeps exactly the elements of the list. */
  lemma SortDescMembers<T>(s: seq<T>, key: T -> real, y: T)
    ensures y in SortDesc(s, key) <==> y in s
  {
    assert y in SortDesc(s, key) <==> y in multiset(SortDesc(s, key));
    assert y in s <==> y in multiset(s);
  }

  /** A prefix of a sorted list is sorted. */
  lemma SortedPrefix<T>(s: seq<T>, key: T -> real, n: nat)
    requires SortedDesc(s, key) && n <= |s|
    ensures SortedDesc(s[..n], key)
  {
    forall i, j | 0 <= i < j < n ensures key(s[..n][i]) >= key(s[..n][j]) {
      assert s[..n][i] == s[i] && s[..n][j] == s[j];
    }
  }

  /** The elements of `s` whose key is `k`, in list order. */
  function KeyFilter<T>(s: seq<T>, key: T -> real, k: real): (r: seq<T>)
    ensures forall y :: y in r ==> y in s && key(y) == k
  {
    if s == [] then []
    else (if key(s[0]) == k then [s[0]] else []) + KeyFilter(s[1..], key, k)
  }

  lemma {:induction false} KeyFilterConcat<T>(a: seq<T>, b: seq<T>, key: T -> real, k: real)
    ensures KeyFilter(a + b, key, k) == KeyFilter(a, key, k) + KeyFilter(b, key, k)
  {
    if a == [] {
      assert a + b == b;
    } else {
      assert (a + b)[1..] == a[1..] + b;
      KeyFilterConcat(a[1..], b, key, k);
    }
  }

  /** A list whose keys all lie below `k` holds no element with key `k`. */
  lemma {:induction false} KeyFilterBelow<T>(s: seq<T>, key: T -> real, k: real)
    requires forall i :: 0 <= i < |s| ==> key(s[i]) < k
    ensures KeyFilter(s, key, k) == []
  {
    if s != [] {
      KeyFilterBelow(s[1..], key, k);
    }
  }

  /** Inserting into a sorted list puts `x` behind every element of equal key. */
  lemma {:induction false} InsertFilter<T>(x: T, t: seq<T>, key: T -> real, k: real)
    requires SortedDesc(t, key)
    ensures KeyFilter(InsertDesc(x, t, key), key, k)
      == KeyFilter(t, key, k) + (if key(x) == k then [x] else [])
  {
    if t == [] {
    } else if key(t[0]) >= key(x) {
      var rest := t[1..];
      assert SortedDesc(rest, key) by {
        forall i, j | 0 <= i < j < |rest| ensures key(rest[i]) >= key(rest[j]) {
          assert rest[i] == t[i + 1] && rest[j] == t[j + 1];
        }
      }
      InsertFilter(x, rest, key, k);
      assert ([t[0]] + InsertDesc(x, rest, key))[1..] == InsertDesc(x, rest, key);
    } else {
      assert ([x] + t)[1..] == t;
      if key(x) == k {
        assert forall i :: 0 <= i < |t| ==> key(t[i]) <= key(t[0]);
        KeyFilterBelow(t, key, k);
      }
    }
  }

  /** The sort is stable: the elements of any one key keep their list order. */
  lemma {:induction false} SortDescStable<T>(s: seq<T>, key: T -> real, k: real)
    ensures KeyFilter(SortDesc(s, key), key, k) == KeyFilter(s, key, k)
  {
    if s != [] {
      var init, last := s[..|s| - 1], s[|s| - 1];
      var tail := if key(last) == k then [last] else [];
      calc {
        KeyFilter(SortDesc(s, key), key, k);
        KeyFilter(InsertDesc(last, SortDesc(init, key), key), key, k);
        { SortDescSorted(init, key); InsertFilter(last, SortDesc(init, key), key, k); }
        KeyFilter(SortDesc(init, key), key, k) + tail;
        { SortDescStable(init, key, k); }
        KeyFilter(init, key, k) + tail;
        { assert [last][1..] == []; assert KeyFilter([last], key, k) == tail; }
        KeyFilter(init, key, k) + KeyFilter([last], key, k);
        { KeyFilterConcat(init, [last], key, k); assert s == init + [last]; }
        KeyFilter(s, key, k);
      }
    }
  }
}
