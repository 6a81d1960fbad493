/** Keyword research: every candidate keyword gets random metrics, and the list
    is sorted by the source's comparator. */
module KeywordResearch {
  import opened Random
  import opened Lists
  import KeywordSynth

  datatype Trend = Rising | Stable | Declining

  /** One keyword record; the floating-point `cpc` field is not modelled. */
  datatype KeywordData = KeywordData(keyword: string, volume: int, difficulty: int, trend: Trend)

  const Trends: seq<Trend> := [Rising, Stable, Declining]

  /** `Math.random()` is called four times per keyword: volume, difficulty,
      cpc (whose value is not modelled) and trend. */
  const DrawsPerKeyword: nat := 4

  predicate InRange(k: KeywordData) {
    1000 <= k.volume <= 50999 && 1 <= k.difficulty <= 100
  }

  /** The record the `map` callback builds for one keyword from draws at, at+1, at+2, at+3. */
  function Score(keyword: string, rnd: Stream, at: nat): (k: KeywordData)
    ensures k.keyword == keyword && InRange(k)
  {
    KeywordData(
      keyword,
      Pick(rnd(at), 50000) + 1000,
      Pick(rnd(at + 1), 100) + 1,
      Trends[Pick(rnd(at + 3), 3)])
  }

  function Scored(keywords: seq<string>, rnd: Stream, at: nat): seq<KeywordData> {
    seq(|keywords|, i requires 0 <= i < |keywords| => Score(keywords[i], rnd, at + DrawsPerKeyword * i))
  }

  /** The keyword texts of a record list, in order. */
  function Texts(s: seq<KeywordData>): (t: seq<string>)
    ensures |t| == |s|
  {
    if s == [] then [] else [s[0].keyword] + Texts(s[1..])
  }

  /** The comparator `(a.difficulty - b.difficulty) + (b.volume - a.volume) * 0.001`,
      evaluated exactly. */
  function Compare(a: KeywordData, b: KeywordData): real {
    (a.difficulty - b.difficulty) as real + (b.volume - a.volume) as real * 0.001
  }

  /** The one integer key the comparator orders by. */
  function SortKey(k: KeywordData): int {
    1000 * k.difficulty - k.volume
  }

  /** The comparator is the key difference scaled by 1/1000, so it orders
      exactly as the key does. */
  lemma CompareIsKeyDifference(a: KeywordData, b: KeywordData)
    ensures Compare(a, b) == (SortKey(a) - SortKey(b)) as real / 1000.0
    ensures Compare(a, b) < 0.0 <==> SortKey(a) < SortKey(b)
    ensures Compare(a, b) == 0.0 <==> SortKey(a) == SortKey(b)
  {
  }

  /** The order is not difficulty first: an easier keyword can sort after a
      harder one with a much larger volume. */
  lemma HarderCanComeFirst()
    ensures var easy := KeywordData("a", 1000, 2, Stable);
            var hard := KeywordData("b", 50000, 3, Stable);
            InRange(easy) && InRange(hard) && easy.difficulty < hard.difficulty &&
            Compare(hard, easy) < 0.0
  {
  }

  predicate SortedByKey(s: seq<KeywordData>) {
    forall i, j :: 0 <= i < j < |s| ==> SortKey(s[i]) <= SortKey(s[j])
  }

  lemma SortedCons(y: KeywordData, t: seq<KeywordData>)
    requires SortedByKey(t)
    requires forall k :: k in t ==> SortKey(y) <= SortKey(k)
    ensures SortedByKey([y] + t)
  {
    var r := [y] + t;
    forall i, j | 0 <= i < j < |r| ensures SortKey(r[i]) <= SortKey(r[j]) {
      if i > 0 {
        assert r[i] == t[i - 1] && r[j] == t[j - 1];
      } else {
        assert r[j] in t;
      }
    }
  }

  lemma {:induction false} TextsAt(s: seq<KeywordData>, i: nat)
    requires i < |s|
    ensures Texts(s)[i] == s[i].keyword
  {
    if i > 0 {
      TextsAt(s[1..], i - 1);
    }
  }

  lemma TextsCons(y: KeywordData, t: seq<KeywordData>)
    ensures Texts([y] + t) == [y.keyword] + Texts(t)
  {
    assert ([y] + t)[1..] == t;
  }

  /** Inserts x in front of the first element whose key is not smaller. */
  function Insert(x: KeywordData, s: seq<KeywordData>): (r: seq<KeywordData>)
    requires SortedByKey(s)
    ensures SortedByKey(r)
    ensures multiset(r) == multiset(s) + multiset{x}
    ensures multiset(Texts(r)) == multiset(Texts(s)) + multiset{x.keyword}
  {
    if s == [] || SortKey(x) <= SortKey(s[0]) then
      SortedCons(x, s);
      TextsCons(x, s);
      [x] + s
    else
      SortedTail(s);
      var rest := Insert(x, s[1..]);
      InsertBehindHead(x, s, rest);
      [s[0]] + rest
  }

  /** The step case of Insert: x goes into the tail of s, behind its head. */
  lemma InsertBehindHead(x: KeywordData, s: seq<KeywordData>, rest: seq<KeywordData>)
    requires s != [] && SortedByKey(s) && SortKey(s[0]) < SortKey(x)
    requires SortedByKey(rest)
    requires multiset(rest) == multiset(s[1..]) + multiset{x}
    requires multiset(Texts(rest)) == multiset(Texts(s[1..])) + multiset{x.keyword}
    ensures SortedByKey([s[0]] + rest)
    ensures multiset([s[0]] + rest) == multiset(s) + multiset{x}
    ensures multiset(Texts([s[0]] + rest)) == multiset(Texts(s)) + multiset{x.keyword}
  {
    assert s == [s[0]] + s[1..];
    HeadBelowInserted(x, s, rest);
    SortedCons(s[0], rest);
    ConsRecords(s[0], rest, s[1..], x);
    ConsTexts(s[0], rest, s[1..], x.keyword);
  }

  lemma ConsRecords(y: KeywordData, r: seq<KeywordData>, t: seq<KeywordData>, x: KeywordData)
    requires multiset(r) == multiset(t) + multiset{x}
    ensures multiset([y] + r) == multiset([y] + t) + multiset{x}
  {
  }

  lemma ConsTexts(y: KeywordData, r: seq<KeywordData>, t: seq<KeywordData>, k: string)
    requires multiset(Texts(r)) == multiset(Texts(t)) + multiset{k}
    ensures multiset(Texts([y] + r)) == multiset(Texts([y] + t)) + multiset{k}
  {
    TextsCons(y, r);
    TextsCons(y, t);
  }

  lemma HeadBelowInserted(x: KeywordData, s: seq<KeywordData>, rest: seq<KeywordData>)
    requires s != [] && SortedByKey(s) && SortKey(s[0]) < SortKey(x)
    requires multiset(rest) == multiset(s[1..]) + multiset{x}
    ensures forall k :: k in rest ==> SortKey(s[0]) <= SortKey(k)
  {
    forall k | k in rest ensures SortKey(s[0]) <= SortKey(k) {
      assert k in multiset(rest);
      if k != x {
        assert k in multiset(s[1..]);
        var j :| 0 <= j < |s[1..]| && s[1..][j] == k;
        assert s[j + 1] == k;
      }
    }
  }

  /** The records of s whose key is k, in their order in s. */
  function WithKey(s: seq<KeywordData>, k: int): (t: seq<KeywordData>)
    ensures forall i :: 0 <= i < |t| ==> SortKey(t[i]) == k
  {
    if s == [] then [] else (if SortKey(s[0]) == k then [s[0]] else []) + WithKey(s[1..], k)
  }

  lemma WithKeyCons(y: KeywordData, t: seq<KeywordData>, k: int)
    ensures WithKey([y] + t, k) == KeyPart(y, k) + WithKey(t, k)
  {
    assert ([y] + t)[1..] == t;
  }

  /** The records of y and of t with key k, given as a list. */
  function KeyPart(y: KeywordData, k: int): seq<KeywordData> {
    if SortKey(y) == k then [y] else []
  }

  /** Records with different keys never both carry k, so their parts commute. */
  lemma KeyPartsCommute(x: KeywordData, y: KeywordData, w: seq<KeywordData>, k: int)
    requires SortKey(y) < SortKey(x)
    ensures KeyPart(y, k) + (KeyPart(x, k) + w) == KeyPart(x, k) + (KeyPart(y, k) + w)
  {
    if SortKey(x) == k {
      assert KeyPart(y, k) == [];
    } else {
      assert KeyPart(x, k) == [];
    }
  }

  lemma SortedTail(t: seq<KeywordData>)
    requires t != [] && SortedByKey(t)
    ensures SortedByKey(t[1..])
  {
    forall i, j | 0 <= i < j < |t| - 1 ensures SortKey(t[1..][i]) <= SortKey(t[1..][j]) {
      assert t[1..][i] == t[i + 1] && t[1..][j] == t[j + 1];
    }
  }

  lemma InsertStep(x: KeywordData, t: seq<KeywordData>)
    requires t != [] && SortedByKey(t) && SortKey(t[0]) < SortKey(x)
    ensures SortedByKey(t[1..])
    ensures Insert(x, t) == [t[0]] + Insert(x, t[1..])
  {
    SortedTail(t);
  }

  /** Insert puts x in front of every record of t that has the same key. */
  lemma {:induction false} InsertWithKey(x: KeywordData, t: seq<KeywordData>, k: int)
    requires SortedByKey(t)
    ensures WithKey(Insert(x, t), k) == KeyPart(x, k) + WithKey(t, k)
  {
    if t == [] || SortKey(x) <= SortKey(t[0]) {
      assert Insert(x, t) == [x] + t;
      WithKeyCons(x, t, k);
    } else {
      InsertStep(x, t);
      var rest := Insert(x, t[1..]);
      InsertWithKey(x, t[1..], k);
      WithKeyCons(t[0], rest, k);
      assert t == [t[0]] + t[1..];
      WithKeyCons(t[0], t[1..], k);
      KeyPartsCommute(x, t[0], WithKey(t[1..], k), k);
    }
  }

  /** The sort is stable: for every key, the records carrying it keep their
      relative order, as with `Array.prototype.sort`. */
  lemma {:induction false} SortIsStable(s: seq<KeywordData>, k: int)
    ensures WithKey(SortByKey(s), k) == WithKey(s, k)
  {
    if s != [] {
      var sorted := SortByKey(s[1..]);
      assert SortByKey(s) == Insert(s[0], sorted);
      SortIsStable(s[1..], k);
      InsertWithKey(s[0], sorted, k);
      assert s == [s[0]] + s[1..];
      WithKeyCons(s[0], s[1..], k);
    }
  }

  /** A stable sort by `SortKey` (see SortIsStable): the result is ordered and
      a permutation of s. */
  function SortByKey(s: seq<KeywordData>): (r: seq<KeywordData>)
    ensures SortedByKey(r)
    ensures multiset(r) == multiset(s)
    ensures multiset(Texts(r)) == multiset(Texts(s))
  {
    if s == [] then []
    else
      assert s == [s[0]] + s[1..];
      TextsCons(s[0], s[1..]);
      Insert(s[0], SortByKey(s[1..]))
  }

  lemma TextsOfScored(keywords: seq<string>, rnd: Stream, at: nat)
    ensures Texts(Scored(keywords, rnd, at)) == keywords
  {
    var s := Scored(keywords, rnd, at);
    forall i | 0 <= i < |s| ensures Texts(s)[i] == keywords[i] {
      TextsAt(s, i);
    }
  }

  /** `performKeywordResearch(topic)`, with its random draws taken from rnd
      starting at draw number at. */
  function PerformKeywordResearch(topic: string, rnd: Stream, at: nat): (r: seq<KeywordData>)
    ensures |r| == KeywordSynth.MaxKeywords
    ensures SortedByKey(r)
    ensures multiset(Texts(r)) == multiset(KeywordSynth.BaseKeywords(topic))
    ensures forall i :: 0 <= i < |r| ==> InRange(r[i])
  {
    var base := KeywordSynth.BaseKeywords(topic);
    var scored := Scored(base, rnd, at);
    var r := SortByKey(scored);
    ResearchFacts(base, rnd, at);
    KeywordSynth.BaseKeywordsShape(topic);
    r
  }

  lemma ResearchFacts(base: seq<string>, rnd: Stream, at: nat)
    ensures |SortByKey(Scored(base, rnd, at))| == |base|
    ensures multiset(Texts(SortByKey(Scored(base, rnd, at)))) == multiset(base)
    ensures forall i :: 0 <= i < |SortByKey(Scored(base, rnd, at))| ==> InRange(SortByKey(Scored(base, rnd, at))[i])
  {
    var scored := Scored(base, rnd, at);
    TextsOfScored(base, rnd, at);
    SortKeepsLength(scored);
    ScoredInRange(base, rnd, at);
    SortKeepsInRange(scored);
  }

  lemma ScoredInRange(base: seq<string>, rnd: Stream, at: nat)
    ensures forall i :: 0 <= i < |Scored(base, rnd, at)| ==> InRange(Scored(base, rnd, at)[i])
  {
    var s := Scored(base, rnd, at);
    forall i | 0 <= i < |s| ensures InRange(s[i]) {
      assert s[i] == Score(base[i], rnd, at + DrawsPerKeyword * i);
    }
  }

  lemma SortKeepsLength(s: seq<KeywordData>)
    ensures |SortByKey(s)| == |s|
  {
    assert |multiset(SortByKey(s))| == |multiset(s)|;
  }

  lemma SortKeepsInRange(s: seq<KeywordData>)
    requires forall i :: 0 <= i < |s| ==> InRange(s[i])
    ensures forall i :: 0 <= i < |SortByKey(s)| ==> InRange(SortByKey(s)[i])
  {
    var r := SortByKey(s);
    forall i | 0 <= i < |r| ensures InRange(r[i]) {
      assert r[i] in multiset(s);
    }
  }
}
