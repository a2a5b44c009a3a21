/** Python string behaviour that the matcher and the scrapers rely on:
    ASCII case mapping, substring search, whitespace split/strip, join,
    head slices and integer rendering. */
module Text {

  /** Python's `c.isspace()` for the characters it accepts below U+0100. */
  predicate IsSpace(c: char)
  {
    c == ' ' || ('\t' <= c <= '\r') || ('\U{1C}' <= c <= '\U{1F}') || c == '\U{85}' || c == '\U{A0}'
  }

  predicate IsUpperAscii(c: char) { 'A' <= c <= 'Z' }
  predicate IsLowerAscii(c: char) { 'a' <= c <= 'z' }

  function LowerChar(c: char): (r: char)
    ensures IsUpperAscii(c) ==> IsLowerAscii(r)
    ensures !IsUpperAscii(c) ==> r == c
  {
    if IsUpperAscii(c) then (c as int + 32) as char else c
  }

  function UpperChar(c: char): (r: char)
    ensures IsLowerAscii(c) ==> IsUpperAscii(r)
    ensures !IsLowerAscii(c) ==> r == c
  {
    if IsLowerAscii(c) then (c as int - 32) as char else c
  }

  /** `s.lower()`, restricted to the ASCII letters. */
  function Lower(s: string): (r: string)
    ensures |r| == |s|
    ensures forall i :: 0 <= i < |s| ==> r[i] == LowerChar(s[i])
  {
    if s == [] then [] else [LowerChar(s[0])] + Lower(s[1..])
  }

  /** Lower-casing a concatenation lower-cases each part. */
  lemma {:induction false} LowerConcat(a: string, b: string)
    ensures Lower(a + b) == Lower(a) + Lower(b)
  {
    if a == [] {
      assert a + b == b;
    } else {
      assert (a + b)[1..] == a[1..] + b;
      LowerConcat(a[1..], b);
    }
  }

  /** `s.upper()`, restricted to the ASCII letters. */
  function Upper(s: string): (r: string)
    ensures |r| == |s|
    ensures forall i :: 0 <= i < |s| ==> r[i] == UpperChar(s[i])
  {
    if s == [] then [] else [UpperChar(s[0])] + Upper(s[1..])
  }

  /** A string without upper-case ASCII letters. */
  predicate IsLowered(s: string)
  {
    forall i :: 0 <= i < |s| ==> !IsUpperAscii(s[i])
  }

  lemma LowerIsLowered(s: string)
    ensures IsLowered(Lower(s))
  {
  }

  lemma LowerOfLowered(s: string)
    requires IsLowered(s)
    ensures Lower(s) == s
  {
  }

  /** Python's `p in s` on strings: `p` occurs as a contiguous substring. */
  predicate Contains(s: string, p: string)
    decreases |s|
  {
    p <= s || (s != [] && Contains(s[1..], p))
  }

  /** An occurrence at a known position makes `Contains` true. */
  lemma {:induction false} ContainsAt(s: string, p: string, i: nat)
    requires i + |p| <= |s| && s[i..i + |p|] == p
    ensures Contains(s, p)
    decreases i
  {
    if i > 0 {
      assert s[1..][i - 1..i - 1 + |p|] == p;
      ContainsAt(s[1..], p, i - 1);
    } else {
      assert p <= s;
    }
  }

  /** `Contains` is true only where an occurrence exists. */
  lemma {:induction false} ContainsWitness(s: string, p: string) returns (i: nat)
    requires Contains(s, p)
    ensures i + |p| <= |s| && s[i..i + |p|] == p
    decreases |s|
  {
    if p <= s {
      i := 0;
    } else {
      var j := ContainsWitness(s[1..], p);
      i := j + 1;
      assert s[i..i + |p|] == s[1..][j..j + |p|];
    }
  }

  lemma ContainsEmpty(s: string)
    ensures Contains(s, "")
  {
  }

  lemma ContainsSelf(s: string)
    ensures Contains(s, s)
  {
  }

  /** An occurrence in a part of a string is an occurrence in the whole. */
  lemma ContainsInConcat(a: string, b: string, p: string)
    ensures Contains(a, p) ==> Contains(a + b, p)
    ensures Contains(b, p) ==> Contains(a + b, p)
  {
    if Contains(a, p) {
      var i := ContainsWitness(a, p);
      assert (a + b)[i..i + |p|] == p;
      ContainsAt(a + b, p, i);
    }
    if Contains(b, p) {
      var i := ContainsWitness(b, p);
      assert (a + b)[|a| + i..|a| + i + |p|] == p;
      ContainsAt(a + b, p, |a| + i);
    }
  }

  /** Nothing longer than the text occurs in it. */
  lemma NotContainsLonger(s: string, p: string)
    requires |p| > |s|
    ensures !Contains(s, p)
  {
    if Contains(s, p) {
      var i := ContainsWitness(s, p);
    }
  }

  /** Lower-casing twice is lower-casing once. */
  lemma LowerIdempotent(s: string)
    ensures Lower(Lower(s)) == Lower(s)
  {
    LowerIsLowered(s);
    LowerOfLowered(Lower(s));
  }

  /** A lower-cased text never contains a pattern holding an upper-case
      ASCII letter. */
  lemma {:induction false} LoweredExcludesUpper(text: string, p: string, k: nat)
    requires IsLowered(text)
    requires k < |p| && IsUpperAscii(p[k])
    ensures !Contains(text, p)
    decreases |text|
  {
    assert k < |text| ==> text[k] != p[k];
    if text != [] {
      LoweredExcludesUpper(text[1..], p, k);
    }
  }

  /** A text holding a character in neither case does not contain, once
      lower-cased, a pattern holding that character. */
  lemma MissingCharExcludes(s: string, p: string, k: nat)
    requires k < |p| && p[k] !in s && UpperChar(p[k]) !in s
    ensures !Contains(Lower(s), p)
  {
    forall i: nat ensures !OccursAt(Lower(s), p, i) {
      if i + |p| <= |s| {
        var c := s[i + k];
        assert c != p[k] && c != UpperChar(p[k]);
        assert Lower(s)[i..i + |p|][k] == LowerChar(c) != p[k];
      }
    }
    NoOccurrence(Lower(s), p);
  }

  /** `p` occurs in `s` at position `i`. */
  predicate OccursAt(s: string, p: string, i: nat)
  {
    i + |p| <= |s| && s[i..i + |p|] == p
  }

  /** A pattern found at no position does not occur. */
  lemma {:induction false} NoOccurrence(s: string, p: string)
    requires forall i: nat :: !OccursAt(s, p, i)
    ensures !Contains(s, p)
    decreases |s|
  {
    assert !OccursAt(s, p, 0);
    if s != [] {
      forall i: nat ensures !OccursAt(s[1..], p, i) {
        assert !OccursAt(s, p, i + 1);
        if i + |p| <= |s[1..]| {
          assert s[1..][i..i + |p|] == s[i + 1..i + 1 + |p|];
        }
      }
      NoOccurrence(s[1..], p);
    }
  }

  /** A pattern that occurs in a text occurs, lower-cased, in the
      lower-cased text. */
  lemma ContainsLowered(s: string, p: string)
    requires Contains(s, p)
    ensures Contains(Lower(s), Lower(p))
  {
    var i := ContainsWitness(s, p);
    assert Lower(s)[i..i + |p|] == Lower(p) by {
      forall k | 0 <= k < |p| ensures Lower(s)[i..i + |p|][k] == Lower(p)[k] {
        assert s[i + k] == p[k];
      }
    }
    ContainsAt(Lower(s), Lower(p), i);
  }

  /** Python's `any(t in text for t in terms)`. */
  predicate AnyIn(terms: seq<string>, text: string)
  {
    exists t :: t in terms && Contains(text, t)
  }

  /** The terms that occur in `text`, in list order (`[t for t in terms if t in text]`). */
  function Occurring(terms: seq<string>, text: string): (r: seq<string>)
    ensures |r| <= |terms|
    ensures forall t :: t in r ==> t in terms && Contains(text, t)
  {
    if terms == [] then []
    else
      var init := Occurring(terms[..|terms| - 1], text);
      if Contains(text, terms[|terms| - 1]) then init + [terms[|terms| - 1]] else init
  }

  /** The loop behind `Occurring`: counts the terms found in `text`. */
  method CountOccurring(terms: seq<string>, text: string) returns (found: nat)
    ensures found == |Occurring(terms, text)|
  {
    found := 0;
    for i := 0 to |terms|
      invariant found == |Occurring(terms[..i], text)|
    {
      assert terms[..i + 1][..i] == terms[..i];
      if Contains(text, terms[i]) {
        found := found + 1;
      }
    }
    assert terms[..|terms|] == terms;
  }

  /** Every term that occurs is kept. */
  lemma {:induction false} OccurringComplete(terms: seq<string>, text: string, t: string)
    requires t in terms && Contains(text, t)
    ensures t in Occurring(terms, text)
  {
    var last := terms[|terms| - 1];
    if t != last {
      assert t in terms[..|terms| - 1] by {
        var k :| 0 <= k < |terms| && terms[k] == t;
        assert k < |terms| - 1;
        assert terms[..|terms| - 1][k] == t;
      }
      OccurringComplete(terms[..|terms| - 1], text, t);
    }
  }

  /** Some term occurs exactly when the occurring terms are not empty. */
  lemma OccurringNonEmpty(terms: seq<string>, text: string)
    ensures AnyIn(terms, text) <==> Occurring(terms, text) != []
  {
    if AnyIn(terms, text) {
      var t :| t in terms && Contains(text, t);
      OccurringComplete(terms, text, t);
    }
  }

  /** The occurring terms keep the list's order. */
  lemma {:induction false} OccurringInOrder(terms: seq<string>, text: string)
    ensures IsSubsequence(Occurring(terms, text), terms)
  {
    if terms != [] {
      var init := terms[..|terms| - 1];
      var found := Occurring(init, text);
      OccurringInOrder(init, text);
      if Contains(text, terms[|terms| - 1]) {
        assert (found + [terms[|terms| - 1]])[..|found|] == found;
      }
    }
  }

  /** A list without repeats gives occurring terms without repeats. */
  lemma {:induction false} OccurringDistinct(terms: seq<string>, text: string)
    requires Distinct(terms)
    ensures Distinct(Occurring(terms, text))
  {
    if terms != [] {
      var init := terms[..|terms| - 1];
      var last := terms[|terms| - 1];
      assert Distinct(init) by {
        forall i, j | 0 <= i < j < |init| ensures init[i] != init[j] {
          assert init[i] == terms[i] && init[j] == terms[j];
        }
      }
      OccurringDistinct(init, text);
      assert last !in init by {
        forall i | 0 <= i < |init| ensures init[i] != last {
          assert init[i] == terms[i];
        }
      }
    }
  }

  /** No element occurs twice. */
  predicate Distinct<T(==)>(s: seq<T>)
  {
    forall i, j :: 0 <= i < j < |s| ==> s[i] != s[j]
  }

  /** `a` is `b` with some elements left out, order kept. */
  predicate IsSubsequence<T(==)>(a: seq<T>, b: seq<T>)
    decreases |b|
  {
    a == [] ||
    (b != [] &&
     ((a[|a| - 1] == b[|b| - 1] && IsSubsequence(a[..|a| - 1], b[..|b| - 1])) ||
      IsSubsequence(a, b[..|b| - 1])))
  }

  /** Every element of a subsequence is an element of the whole. */
  lemma {:induction false} SubsequenceMembers<T>(a: seq<T>, b: seq<T>, x: T)
    requires IsSubsequence(a, b) && x in a
    ensures x in b
    decreases |b|
  {
    var last := b[|b| - 1];
    if a[|a| - 1] == last && IsSubsequence(a[..|a| - 1], b[..|b| - 1]) {
      if x != last {
        assert x in a[..|a| - 1];
        SubsequenceMembers(a[..|a| - 1], b[..|b| - 1], x);
      }
    } else {
      SubsequenceMembers(a, b[..|b| - 1], x);
    }
  }

  /** A sequence is a subsequence of itself. */
  lemma {:induction false} SubsequenceRefl<T>(a: seq<T>)
    ensures IsSubsequence(a, a)
    decreases |a|
  {
    if a != [] {
      SubsequenceRefl(a[..|a| - 1]);
    }
  }

  /** `[t.lower() for t in terms]`. */
  function LowerAll(terms: seq<string>): (r: seq<string>)
    ensures |r| == |terms|
    ensures forall k :: 0 <= k < |terms| ==> r[k] == Lower(terms[k])
  {
    if terms == [] then [] else [Lower(terms[0])] + LowerAll(terms[1..])
  }

  /** Python's slice `s[:n]` for a non-negative `n`. */
  function Take<T>(s: seq<T>, n: nat): (r: seq<T>)
    ensures |r| == if |s| < n then |s| else n
    ensures r <= s
  {
    if |s| <= n then s else s[..n]
  }

  /** Python's slice `s[:n]` for any integer `n`: a negative `n` drops that
      many elements from the end. */
  function SliceHead<T>(s: seq<T>, n: int): (r: seq<T>)
    ensures r <= s
    ensures n >= 0 ==> |r| == if |s| < n then |s| else n
    ensures n < 0 ==> |r| == if |s| + n < 0 then 0 else |s| + n
  {
    if n >= 0 then Take(s, n)
    else if |s| + n < 0 then []
    else s[..|s| + n]
  }

  /** Drops the leading whitespace. */
  function TrimStart(s: string): (r: string)
    ensures |r| <= |s| && r == s[|s| - |r|..]
    ensures r == [] || !IsSpace(r[0])
    ensures forall i :: 0 <= i < |s| - |r| ==> IsSpace(s[i])
  {
    if s == [] || !IsSpace(s[0]) then s else TrimStart(s[1..])
  }

  /** Drops the trailing whitespace. */
  function TrimEnd(s: string): (r: string)
    ensures |r| <= |s| && r == s[..|r|]
    ensures r == [] || !IsSpace(r[|r| - 1])
    ensures forall i :: |r| <= i < |s| ==> IsSpace(s[i])
  {
    if s == [] || !IsSpace(s[|s| - 1]) then s else TrimEnd(s[..|s| - 1])
  }

  /** `s.strip()`: the text between the leading and the trailing whitespace. */
  function Strip(s: string): (r: string)
    ensures |r| <= |s|
    ensures r == [] || (!IsSpace(r[0]) && !IsSpace(r[|r| - 1]))
    ensures exists i :: StrippedAt(s, r, i)
  {
    StripBetweenSpaces(s, TrimStart(s), TrimEnd(TrimStart(s)));
    TrimEnd(TrimStart(s))
  }

  /** A suffix `t` of `s` after whitespace, and a prefix `r` of `t` before
      whitespace, sit in `s` between whitespace. */
  lemma StripBetweenSpaces(s: string, t: string, r: string)
    requires |t| <= |s| && t == s[|s| - |t|..]
    requires forall j :: 0 <= j < |s| - |t| ==> IsSpace(s[j])
    requires |r| <= |t| && r == t[..|r|]
    requires forall j :: |r| <= j < |t| ==> IsSpace(t[j])
    ensures StrippedAt(s, r, |s| - |t|)
  {
    var i := |s| - |t|;
    assert r == s[i..i + |r|] by {
      assert s[i..][..|r|] == s[i..i + |r|];
    }
    forall j | i + |r| <= j < |s| ensures IsSpace(s[j]) {
      assert s[j] == t[j - i];
    }
  }

  /** `r` sits in `s` at `i` with only whitespace before and after it. */
  predicate StrippedAt(s: string, r: string, i: int)
  {
    0 <= i <= |s| - |r| && r == s[i..i + |r|] &&
    (forall j :: 0 <= j < i ==> IsSpace(s[j])) &&
    (forall j :: i + |r| <= j < |s| ==> IsSpace(s[j]))
  }

  /** A string that neither starts nor ends with whitespace strips to itself. */
  lemma StripUnchanged(s: string)
    requires s == [] || (!IsSpace(s[0]) && !IsSpace(s[|s| - 1]))
    ensures Strip(s) == s
  {
    assert TrimStart(s) == s;
  }

  /** The longest prefix of `s` without whitespace. */
  function WordPrefix(s: string): (r: string)
    ensures r <= s
    ensures forall i :: 0 <= i < |r| ==> !IsSpace(r[i])
    ensures |r| == |s| || IsSpace(s[|r|])
  {
    if s == [] || IsSpace(s[0]) then [] else [s[0]] + WordPrefix(s[1..])
  }

  /** A word: non-empty and without whitespace. */
  predicate IsWord(w: string)
  {
    w != [] && forall i :: 0 <= i < |w| ==> !IsSpace(w[i])
  }

  /** `s.split()` with no separator: the maximal runs of non-whitespace.
      Every part is a word. */
  function Split(s: string): (r: seq<string>)
    ensures forall k :: 0 <= k < |r| ==> IsWord(r[k])
    decreases |s|
  {
    var t := TrimStart(s);
    if t == [] then []
    else
      var w := WordPrefix(t);
      WordPrefixIsWord(t);
      var rest := Split(t[|w|..]);
      WordsCons(w, rest);
      [w] + rest
  }

  /** The word prefix of a text that starts with a non-space is a word. */
  lemma WordPrefixIsWord(t: string)
    requires t != [] && !IsSpace(t[0])
    ensures IsWord(WordPrefix(t))
  {
  }

  /** A word followed by words is a list of words. */
  lemma WordsCons(w: string, rest: seq<string>)
    requires IsWord(w)
    requires forall k :: 0 <= k < |rest| ==> IsWord(rest[k])
    ensures forall k :: 0 <= k < |rest| + 1 ==> IsWord(([w] + rest)[k])
  {
    forall k | 0 <= k < |rest| + 1
      ensures IsWord(([w] + rest)[k])
    {
      if k > 0 {
        assert ([w] + rest)[k] == rest[k - 1];
      }
    }
  }

  /** A string that is only whitespace splits into no words. */
  lemma SplitAllSpace(s: string)
    requires forall i :: 0 <= i < |s| ==> IsSpace(s[i])
    ensures Split(s) == []
  {
    assert TrimStart(s) == [];
  }

  /** `split()` gives no words exactly when the text is whitespace alone. */
  lemma SplitEmptyIff(s: string)
    ensures Split(s) == [] <==> forall i :: 0 <= i < |s| ==> IsSpace(s[i])
  {
    if forall i :: 0 <= i < |s| ==> IsSpace(s[i]) {
      SplitAllSpace(s);
    }
  }

  /** The word prefix of a word followed by text that starts with a space
      is that word. */
  lemma {:induction false} WordPrefixOfWord(w: string, t: string)
    requires forall i :: 0 <= i < |w| ==> !IsSpace(w[i])
    requires t == [] || IsSpace(t[0])
    ensures WordPrefix(w + t) == w
  {
    if w != [] {
      assert (w + t)[1..] == w[1..] + t;
      WordPrefixOfWord(w[1..], t);
    }
  }

  /** A leading whitespace character does not change the split. */
  lemma {:induction false} SplitAfterSpace(c: char, rest: string)
    requires IsSpace(c)
    ensures Split([c] + rest) == Split(rest)
  {
    var s := [c] + rest;
    assert s[0] == c && s[1..] == rest;
    assert TrimStart(s) == TrimStart(rest);
  }

  /** A word followed by nothing or by whitespace is split off first. */
  lemma {:induction false} SplitWordFirst(w: string, tail: string)
    requires IsWord(w)
    requires tail == [] || IsSpace(tail[0])
    ensures Split(w + tail) == [w] + Split(tail)
  {
    var s := w + tail;
    assert s[0] == w[0];
    assert TrimStart(s) == s;
    WordPrefixOfWord(w, tail);
    assert s[|w|..] == tail;
  }

  /** A word, a whitespace character and more text split into the word
      and the split of the text. */
  lemma SplitWordThenSpace(w: string, c: char, rest: string)
    requires IsWord(w) && IsSpace(c)
    ensures Split(w + ([c] + rest)) == [w] + Split(rest)
  {
    SplitWordFirst(w, [c] + rest);
    SplitAfterSpace(c, rest);
  }

  /** Splitting words joined by one whitespace character gives those words
      back; `" ".join(ws).split() == ws`. */
  lemma {:induction false} SplitJoin(ws: seq<string>, sep: string)
    requires forall k :: 0 <= k < |ws| ==> IsWord(ws[k])
    requires |sep| == 1 && IsSpace(sep[0])
    ensures Split(Join(ws, sep)) == ws
  {
    if |ws| == 1 {
      SplitOneWord(ws[0], sep);
    } else if ws != [] {
      SplitJoin(ws[1..], sep);
      SplitJoinStep(ws, sep);
    }
  }

  /** A single word splits into itself. */
  lemma SplitOneWord(w: string, sep: string)
    requires IsWord(w)
    ensures Split(Join([w], sep)) == [w]
  {
    SplitWordFirst(w, []);
    assert w + [] == w;
  }

  /** One step of `SplitJoin`: the first word comes off the front. */
  lemma SplitJoinStep(ws: seq<string>, sep: string)
    requires |ws| >= 2 && IsWord(ws[0])
    requires |sep| == 1 && IsSpace(sep[0])
    requires Split(Join(ws[1..], sep)) == ws[1..]
    ensures Split(Join(ws, sep)) == ws
  {
    JoinCons(ws, sep);
    SplitWordThenSpace(ws[0], sep[0], Join(ws[1..], sep));
    assert [ws[0]] + ws[1..] == ws;
  }

  /** Joining at least two parts puts the separator after the first. */
  lemma JoinCons(ws: seq<string>, sep: string)
    requires |ws| >= 2 && |sep| == 1
    ensures Join(ws, sep) == ws[0] + ([sep[0]] + Join(ws[1..], sep))
  {
    assert sep == [sep[0]];
  }

  /** `sep.join(parts)`. */
  function Join(parts: seq<string>, sep: string): (r: string)
    ensures parts == [] ==> r == []
    ensures |parts| == 1 ==> r == parts[0]
  {
    if parts == [] then []
    else if |parts| == 1 then parts[0]
    else parts[0] + sep + Join(parts[1..], sep)
  }

  /** Every joined part occurs in the joined text. */
  lemma {:induction false} JoinContainsParts(parts: seq<string>, sep: string, k: nat)
    requires k < |parts|
    ensures Contains(Join(parts, sep), parts[k])
  {
    if |parts| == 1 {
      ContainsSelf(parts[0]);
    } else if k == 0 {
      ContainsSelf(parts[0]);
      ContainsInConcat(parts[0], sep + Join(parts[1..], sep), parts[0]);
      assert parts[0] + sep + Join(parts[1..], sep) == parts[0] + (sep + Join(parts[1..], sep));
    } else {
      JoinContainsParts(parts[1..], sep, k - 1);
      ContainsInConcat(parts[0] + sep, Join(parts[1..], sep), parts[k]);
    }
  }

  /** A joined list starts with its first part. */
  lemma JoinStartsWithHead(head: string, rest: seq<string>, sep: string)
    ensures head <= Join([head] + rest, sep)
  {
    if rest != [] {
      assert ([head] + rest)[1..] == rest;
    }
  }

  function DigitChar(d: nat): (c: char)
    requires d < 10
  {
    "0123456789"[d]
  }

  /** Decimal digits of a natural number, most significant first. */
  function NatToString(n: nat): (r: string)
    ensures r != []
    ensures forall i :: 0 <= i < |r| ==> '0' <= r[i] <= '9'
    decreases n
  {
    if n < 10 then [DigitChar(n)] else NatToString(n / 10) + [DigitChar(n % 10)]
  }

  /** `str(i)` for a Python int. */
  function IntToString(i: int): (r: string)
    ensures r != []
    ensures i < 0 <==> r[0] == '-'
  {
    if i < 0 then "-" + NatToString(-i) else NatToString(i)
  }

  predicate IsDigit(c: char) { '0' <= c <= '9' }

  /** The value of a non-empty run of decimal digits. */
  function DigitsValue(s: string): (n: nat)
    requires forall i :: 0 <= i < |s| ==> IsDigit(s[i])
  {
    if s == [] then 0
    else
      assert IsDigit(s[|s| - 1]);
      DigitsValue(s[..|s| - 1]) * 10 + (s[|s| - 1] as int - '0' as int)
  }

  /** Rendering a natural number and reading it back gives the number. */
  lemma {:induction false} NatToStringRoundTrip(n: nat)
    ensures DigitsValue(NatToString(n)) == n
    decreases n
  {
    if n >= 10 {
      NatToStringRoundTrip(n / 10);
      var s := NatToString(n);
      assert s[..|s| - 1] == NatToString(n / 10);
    }
  }
}
