/** Term extraction of the search backend (main.py
    `EnhancedBiotoolsMatcher._extract_biotools_terms`): punctuation becomes
    space, the text is split on whitespace, and a word is kept when it is
    longer than two characters, not a stop word and a biotools term. */
module MatcherTerms {
  import opened Text
  import opened Taxonomy

  /** A character of the regular-expression class `\w` on ASCII text:
      letters, digits and the underscore. Beyond ASCII every character
      that is not whitespace counts, which is wider than Python's `\w`:
      that class leaves out non-ASCII punctuation and symbols. */
  predicate IsWordChar(c: char)
  {
    ('a' <= c <= 'z') || ('A' <= c <= 'Z') || ('0' <= c <= '9') || c == '_' ||
    (c > '\U{7F}' && !IsSpace(c))
  }

  /** `re.sub(r'[^\w\s]', ' ', text)`. */
  function Depunctuate(text: string): (r: string)
    ensures |r| == |text|
    ensures forall i :: 0 <= i < |text| ==>
      r[i] == (if IsWordChar(text[i]) || IsSpace(text[i]) then text[i] else ' ')
  {
    if text == [] then []
    else [if IsWordChar(text[0]) || IsSpace(text[0]) then text[0] else ' '] + Depunctuate(text[1..])
  }

  /** The filter applied to each word. */
  predicate KeepTerm(w: string)
  {
    |w| > 2 && Lower(w) !in StopWords && IsBiotoolsTerm(w)
  }

  /** The words that pass `keep`, in order. */
  function KeptBy(keep: string -> bool, words: seq<string>): (r: seq<string>)
    ensures forall t :: t in r ==> keep(t) && t in words
    ensures IsSubsequence(r, words)
  {
    if words == [] then []
    else
      var init := KeptBy(keep, words[..|words| - 1]);
      var w := words[|words| - 1];
      if keep(w) then init + [w] else init
  }

  /** What `_extract_biotools_terms` returns. */
  function BiotoolsTerms(text: string): seq<string>
  {
    if text == [] then [] else KeptBy(KeepTerm, Split(Depunctuate(text)))
  }

  /** The loop of `_extract_biotools_terms` over the words, with its filter
      as `keep`. */
  method KeepWords(keep: string -> bool, words: seq<string>) returns (terms: seq<string>)
    ensures terms == KeptBy(keep, words)
  {
    terms := [];
    var i := 0;
    while i < |words|
      invariant 0 <= i <= |words|
      invariant terms == KeptBy(keep, words[..i])
    {
      assert words[..i + 1][..i] == words[..i];
      if keep(words[i]) {
        terms := terms + [words[i]];
      }
      i := i + 1;
    }
    assert words[..i] == words;
  }

  /** `_extract_biotools_terms`. */
  method ExtractBiotoolsTerms(text: string) returns (terms: seq<string>)
    ensures terms == BiotoolsTerms(text)
  {
    if text == [] {
      return [];
    }
    terms := KeepWords(KeepTerm, Split(Depunctuate(text)));
  }

  /** Every extracted term is a word of the text, longer than two characters,
      not a stop word in any case, and a biotools term. */
  lemma ExtractedTermsAreKept(text: string, t: string)
    requires t in BiotoolsTerms(text)
    ensures KeepTerm(t) && IsWord(t)
    ensures t in Split(Depunctuate(text))
  {
    var words := Split(Depunctuate(text));
    var k :| 0 <= k < |words| && words[k] == t;
  }

  /** Every word that passes the filter is kept. */
  lemma {:induction false} KeptByComplete(keep: string -> bool, words: seq<string>, w: string)
    requires w in words && keep(w)
    ensures w in KeptBy(keep, words)
  {
    var last := words[|words| - 1];
    if w != last {
      var k :| 0 <= k < |words| && words[k] == w;
      assert words[..|words| - 1][k] == w;
      KeptByComplete(keep, words[..|words| - 1], w);
    }
  }

  /** Every word of the text that passes the filter is extracted. */
  lemma ExtractedTermsComplete(text: string, w: string)
    requires w in Split(Depunctuate(text)) && KeepTerm(w)
    ensures w in BiotoolsTerms(text)
  {
    KeptByComplete(KeepTerm, Split(Depunctuate(text)), w);
  }

  /** Text that holds nothing but whitespace and punctuation gives no term. */
  lemma NoTermsFromPunctuation(text: string)
    requires forall i :: 0 <= i < |text| ==> !IsWordChar(text[i])
    ensures BiotoolsTerms(text) == []
  {
    if text != [] {
      var d := Depunctuate(text);
      assert forall i :: 0 <= i < |d| ==> IsSpace(d[i]);
      SplitAllSpace(d);
    }
  }
}
