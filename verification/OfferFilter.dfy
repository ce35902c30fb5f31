/**
 * The `get_commerce_offers` handler of the mock ad server: split the query
 * into lower-cased keywords and keep the offers whose lower-cased title or
 * description contains any keyword.
 */
module OfferFilter {

  /** An offer from the catalogue (the fields the filter reads). */
  datatype Offer = Offer(id: string, title: string, description: string)

  /** The record the handler returns (before it is stringified). */
  datatype OffersResult = OffersResult(offers: seq<Offer>, total: nat, query: string)

  // ---------------------------------------------------------------------
  // Characters
  // ---------------------------------------------------------------------

  /** The characters the regular-expression class `\s` matches. */
  predicate IsWhitespace(c: char) {
    c == ' ' || c == '\t' || c == '\n' || c == '\r' || c == '\U{000B}' || c == '\U{000C}'
    || c == '\U{00A0}' || c == '\U{1680}' || ('\U{2000}' <= c <= '\U{200A}')
    || c == '\U{2028}' || c == '\U{2029}' || c == '\U{202F}' || c == '\U{205F}'
    || c == '\U{3000}' || c == '\U{FEFF}'
  }

  predicate IsUpper(c: char) {
    'A' <= c <= 'Z'
  }

  /** Lower-casing of one character (ASCII letters only). */
  function LowerChar(c: char): (r: char)
    ensures !IsUpper(r)
    ensures !IsUpper(c) ==> r == c
    ensures IsUpper(c) ==> 'a' <= r <= 'z' && r as int - 'a' as int == c as int - 'A' as int
    ensures IsWhitespace(r) <==> IsWhitespace(c)
  {
    if IsUpper(c) then (c as int + 32) as char else c
  }

  function ToLower(s: string): (r: string)
    ensures |r| == |s|
    ensures forall i :: 0 <= i < |s| ==> r[i] == LowerChar(s[i])
  {
    if s == [] then [] else [LowerChar(s[0])] + ToLower(s[1..])
  }

  // ---------------------------------------------------------------------
  // Keywords: the lower-cased query split on whitespace runs, empty pieces dropped
  // ---------------------------------------------------------------------

  /** The string after its leading whitespace run. */
  function DropWs(s: string): (r: string)
    ensures |r| <= |s| && r == s[|s| - |r|..]
    ensures r == [] || !IsWhitespace(r[0])
    ensures s != [] && IsWhitespace(s[0]) ==> |r| < |s|
    ensures forall i :: 0 <= i < |s| - |r| ==> IsWhitespace(s[i])
  {
    if s != [] && IsWhitespace(s[0]) then DropWs(s[1..]) else s
  }

  /**
   * Splitting on `/\s+/`: `cur` is the piece read so far; a whitespace run
   * closes it. A leading or trailing run yields an empty piece.
   */
  function SplitFrom(s: string, cur: string): (pieces: seq<string>)
    ensures |pieces| >= 1
    decreases |s|
  {
    if s == [] then [cur]
    else if IsWhitespace(s[0]) then [cur] + SplitFrom(DropWs(s), "")
    else SplitFrom(s[1..], cur + [s[0]])
  }

  function Split(s: string): seq<string> {
    SplitFrom(s, "")
  }

  /** `filter(Boolean)`: the non-empty pieces, in order. */
  function NonEmpty(pieces: seq<string>): (r: seq<string>)
    ensures forall k :: 0 <= k < |r| ==> r[k] != "" && r[k] in pieces
  {
    if pieces == [] then []
    else (if pieces[0] != "" then [pieces[0]] else []) + NonEmpty(pieces[1..])
  }

  function Keywords(query: string): seq<string> {
    NonEmpty(Split(ToLower(query)))
  }

  // An independent reading: the maximal runs of non-whitespace characters.

  /** The leading run of non-whitespace characters. */
  function TakeWord(s: string): (w: string)
    ensures |w| <= |s| && w == s[..|w|]
    ensures forall i :: 0 <= i < |w| ==> !IsWhitespace(w[i])
    ensures |w| == |s| || IsWhitespace(s[|w|])
  {
    if s == [] || IsWhitespace(s[0]) then [] else [s[0]] + TakeWord(s[1..])
  }

  /** The words of a string: maximal runs without whitespace, in order. */
  function Words(s: string): seq<string>
    decreases |s|
  {
    var t := DropWs(s);
    if t == [] then [] else [TakeWord(t)] + Words(t[|TakeWord(t)|..])
  }

  /** A non-empty piece survives `filter(Boolean)`. */
  lemma NonEmptySingle(w: string)
    ensures NonEmpty([w]) == (if w != "" then [w] else [])
  {
    assert [w][1..] == [];
  }

  lemma {:induction false} NonEmptyAppend(a: seq<string>, b: seq<string>)
    ensures NonEmpty(a + b) == NonEmpty(a) + NonEmpty(b)
    decreases |a|
  {
    if a == [] {
      assert a + b == b;
    } else {
      assert (a + b)[0] == a[0] && (a + b)[1..] == a[1..] + b;
      NonEmptyAppend(a[1..], b);
    }
  }

  /** Reading the leading word into `cur` before the split. */
  lemma {:induction false} SplitWord(s: string, cur: string)
    ensures SplitFrom(s, cur) == SplitFrom(s[|TakeWord(s)|..], cur + TakeWord(s))
    decreases |s|
  {
    if s != [] && !IsWhitespace(s[0]) {
      SplitWord(s[1..], cur + [s[0]]);
      assert TakeWord(s) == [s[0]] + TakeWord(s[1..]);
      assert cur + [s[0]] + TakeWord(s[1..]) == cur + TakeWord(s);
      assert s[1..][|TakeWord(s[1..])|..] == s[|TakeWord(s)|..];
    } else {
      assert cur + [] == cur;
    }
  }

  lemma {:induction false} SplitIsWords(s: string, cur: string)
    ensures NonEmpty(SplitFrom(s, cur)) == NonEmpty([cur + TakeWord(s)]) + Words(s[|TakeWord(s)|..])
    decreases |s|
  {
    var w := TakeWord(s);
    var rest := s[|w|..];
    SplitWord(s, cur);
    if rest == [] {
      assert SplitFrom(rest, cur + w) == [cur + w];
      assert DropWs(rest) == [];
      assert NonEmpty([cur + w]) + [] == NonEmpty([cur + w]);
    } else {
      var t := DropWs(rest);
      assert SplitFrom(rest, cur + w) == [cur + w] + SplitFrom(t, "");
      NonEmptyAppend([cur + w], SplitFrom(t, ""));
      SplitIsWords(t, "");
      assert "" + TakeWord(t) == TakeWord(t);
      NonEmptySingle(TakeWord(t));
      if t == [] {
        assert Words(t[|TakeWord(t)|..]) == [] by { assert t[|TakeWord(t)|..] == []; }
      } else {
        assert TakeWord(t) != [];
      }
    }
  }

  /** The keywords are exactly the words of the lower-cased query. */
  lemma KeywordsAreWords(query: string)
    ensures Keywords(query) == Words(ToLower(query))
  {
    var s := ToLower(query);
    SplitIsWords(s, "");
    var w := TakeWord(s);
    assert "" + w == w;
    NonEmptySingle(w);
    if w == [] {
      assert s[|w|..] == s;
    } else {
      assert DropWs(s) == s;
    }
  }

  predicate NoUpper(s: string) {
    forall i :: 0 <= i < |s| ==> !IsUpper(s[i])
  }

  lemma NoUpperSuffix(s: string, lo: nat)
    requires NoUpper(s) && lo <= |s|
    ensures NoUpper(s[lo..])
  {
    assert forall i :: 0 <= i < |s| - lo ==> s[lo..][i] == s[lo + i];
  }

  predicate NoWhitespace(s: string) {
    forall i :: 0 <= i < |s| ==> !IsWhitespace(s[i])
  }

  /** The pieces of a split have no whitespace, and no upper-case letter when the input has none. */
  lemma {:induction false} SplitPieces(s: string, cur: string, k: nat)
    requires NoWhitespace(cur)
    requires k < |SplitFrom(s, cur)|
    ensures NoWhitespace(SplitFrom(s, cur)[k])
    ensures NoUpper(s) && NoUpper(cur) ==> NoUpper(SplitFrom(s, cur)[k])
    decreases |s|
  {
    if s != [] {
      if IsWhitespace(s[0]) {
        if k > 0 {
          var t := DropWs(s);
          SplitPieces(t, "", k - 1);
          if NoUpper(s) {
            NoUpperSuffix(s, |s| - |t|);
          }
        }
      } else {
        var next := cur + [s[0]];
        assert forall i :: 0 <= i < |next| ==> next[i] == (if i < |cur| then cur[i] else s[0]);
        SplitPieces(s[1..], next, k);
        if NoUpper(s) && NoUpper(cur) {
          NoUpperSuffix(s, 1);
        }
      }
    }
  }

  /** Every keyword is non-empty, has no whitespace and no upper-case letter. */
  lemma KeywordsAreLowerWords(query: string)
    ensures forall k :: 0 <= k < |Keywords(query)| ==>
      Keywords(query)[k] != "" && NoWhitespace(Keywords(query)[k]) && NoUpper(Keywords(query)[k])
  {
    var s := ToLower(query);
    var pieces := Split(s);
    forall k | 0 <= k < |Keywords(query)|
      ensures NoWhitespace(Keywords(query)[k]) && NoUpper(Keywords(query)[k])
    {
      var j :| 0 <= j < |pieces| && pieces[j] == Keywords(query)[k];
      SplitPieces(s, "", j);
    }
  }

  /** A query of whitespace only has no keywords. */
  lemma WhitespaceQueryHasNoKeywords(query: string)
    requires forall i :: 0 <= i < |query| ==> IsWhitespace(query[i])
    ensures Keywords(query) == []
  {
    KeywordsAreWords(query);
    var s := ToLower(query);
    assert forall i :: 0 <= i < |s| ==> IsWhitespace(s[i]);
    DropAllWs(s);
  }

  lemma {:induction false} DropAllWs(s: string)
    requires forall i :: 0 <= i < |s| ==> IsWhitespace(s[i])
    ensures DropWs(s) == []
    decreases |s|
  {
    if s != [] {
      DropAllWs(s[1..]);
    }
  }

  // ---------------------------------------------------------------------
  // Matching
  // ---------------------------------------------------------------------

  /** `word` occurs in `text` starting at position `i`. */
  predicate OccursAt(text: string, word: string, i: nat) {
    i + |word| <= |text| && text[i..i + |word|] == word
  }

  /** `text.includes(word)` */
  function Includes(text: string, word: string): bool
    decreases |text|
  {
    if |word| <= |text| && text[..|word|] == word then true
    else if text == [] then false
    else Includes(text[1..], word)
  }

  /** The meaning of `includes`: the word occurs at some position of the text. */
  lemma {:induction false} IncludesIsSubstring(text: string, word: string)
    ensures Includes(text, word) <==> exists i: nat :: OccursAt(text, word, i)
    decreases |text|
  {
    if |word| <= |text| && text[..|word|] == word {
      assert OccursAt(text, word, 0);
    } else if text == [] {
      assert forall i: nat :: !OccursAt(text, word, i);
    } else {
      IncludesIsSubstring(text[1..], word);
      if exists i: nat :: OccursAt(text, word, i) {
        var i: nat :| OccursAt(text, word, i);
        assert i != 0;
        assert text[1..][i - 1..i - 1 + |word|] == text[i..i + |word|];
        assert OccursAt(text[1..], word, i - 1);
      }
      if Includes(text[1..], word) {
        var i: nat :| OccursAt(text[1..], word, i);
        assert text[1..][i..i + |word|] == text[i + 1..i + 1 + |word|];
        assert OccursAt(text, word, i + 1);
      }
    }
  }

  /** An offer matches a keyword when its lower-cased title or description includes it. */
  predicate MatchesKeyword(o: Offer, keyword: string) {
    Includes(ToLower(o.title), keyword) || Includes(ToLower(o.description), keyword)
  }

  /** `keywords.some(...)` */
  function AnyMatch(o: Offer, keywords: seq<string>): (b: bool)
    ensures b <==> exists k :: 0 <= k < |keywords| && MatchesKeyword(o, keywords[k])
  {
    if keywords == [] then false
    else MatchesKeyword(o, keywords[0]) || AnyMatch(o, keywords[1..])
  }

  /** `a` is `b` with some elements removed, order kept. */
  predicate Subsequence<T(==)>(a: seq<T>, b: seq<T>)
    decreases |b|
  {
    a == [] || (b != [] && ((a[0] == b[0] && Subsequence(a[1..], b[1..])) || Subsequence(a, b[1..])))
  }

  /** `offers.filter(...)` */
  function FilterOffers(offers: seq<Offer>, keywords: seq<string>): (r: seq<Offer>)
    ensures |r| <= |offers|
    ensures forall o :: o in r <==> o in offers && AnyMatch(o, keywords)
    ensures forall o :: multiset(r)[o] == if AnyMatch(o, keywords) then multiset(offers)[o] else 0
  {
    if offers == [] then []
    else
      assert offers == [offers[0]] + offers[1..];
      (if AnyMatch(offers[0], keywords) then [offers[0]] else []) + FilterOffers(offers[1..], keywords)
  }

  /** The filtered list keeps the catalogue order. */
  lemma {:induction false} FilterIsSubsequence(offers: seq<Offer>, keywords: seq<string>)
    ensures Subsequence(FilterOffers(offers, keywords), offers)
    decreases |offers|
  {
    if offers != [] {
      FilterIsSubsequence(offers[1..], keywords);
      var rest := FilterOffers(offers[1..], keywords);
      if AnyMatch(offers[0], keywords) {
        assert FilterOffers(offers, keywords) == [offers[0]] + rest;
        assert ([offers[0]] + rest)[1..] == rest;
      } else {
        assert FilterOffers(offers, keywords) == rest;
      }
    }
  }

  // ---------------------------------------------------------------------
  // The handler
  // ---------------------------------------------------------------------

  /**
   * An empty query returns the catalogue unchanged; otherwise the offers
   * matching any keyword, in catalogue order. `total` counts them and the
   * query is echoed.
   */
  function GetCommerceOffers(catalogue: seq<Offer>, query: string): (r: OffersResult)
    ensures r.total == |r.offers| && r.query == query
    ensures query == "" ==> r.offers == catalogue
    ensures query != "" ==> forall o :: o in r.offers <==>
      o in catalogue && exists k :: 0 <= k < |Keywords(query)| && MatchesKeyword(o, Keywords(query)[k])
    ensures query != "" ==>
      forall o :: multiset(r.offers)[o] == if AnyMatch(o, Keywords(query)) then multiset(catalogue)[o] else 0
  {
    var filtered := if query != "" then FilterOffers(catalogue, Keywords(query)) else catalogue;
    OffersResult(filtered, |filtered|, query)
  }

  /** The result lists offers in catalogue order. */
  lemma ResultInCatalogueOrder(catalogue: seq<Offer>, query: string)
    ensures Subsequence(GetCommerceOffers(catalogue, query).offers, catalogue)
  {
    if query != "" {
      FilterIsSubsequence(catalogue, Keywords(query));
    } else {
      SubsequenceRefl(catalogue);
    }
  }

  lemma {:induction false} SubsequenceRefl<T>(a: seq<T>)
    ensures Subsequence(a, a)
    decreases |a|
  {
    if a != [] {
      SubsequenceRefl(a[1..]);
    }
  }

  /** A non-empty query of whitespace only finds nothing. */
  lemma WhitespaceQueryFindsNothing(catalogue: seq<Offer>, query: string)
    requires query != "" && forall i :: 0 <= i < |query| ==> IsWhitespace(query[i])
    ensures GetCommerceOffers(catalogue, query).offers == []
    ensures GetCommerceOffers(catalogue, query).total == 0
  {
    WhitespaceQueryHasNoKeywords(query);
    NoKeywordsNoOffers(catalogue);
  }

  lemma {:induction false} NoKeywordsNoOffers(offers: seq<Offer>)
    ensures FilterOffers(offers, []) == []
    decreases |offers|
  {
    if offers != [] {
      NoKeywordsNoOffers(offers[1..]);
    }
  }
}
