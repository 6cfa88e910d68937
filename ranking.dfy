/**
 * The score list calculateResults builds and orders (game/Game.php): a list of
 * (score, session) rows put in descending score order by PHP's usort, which is
 * stable since PHP 8.0, and the rank lookup done on it with array_search.
 */
module Ranking {
  import opened Options

  /** One row of the score list: a session's score and the identity of the session. */
  datatype Entry = Entry(score: int, uuid: nat)

  ghost predicate SortedDesc(r: seq<Entry>) {
    forall i, j :: 0 <= i < j < |r| ==> r[i].score >= r[j].score
  }

  ghost predicate Distinct(s: seq<Entry>) {
    forall i, j :: 0 <= i < j < |s| ==> s[i] != s[j]
  }

  /** The rows of s that carry score v, in the order of s. */
  function WithScore(s: seq<Entry>, v: int): seq<Entry> {
    if s == [] then []
    else WithScore(s[..|s| - 1], v) + if s[|s| - 1].score == v then [s[|s| - 1]] else []
  }

  /** Puts e into the descending list t after every row whose score is at least e's. */
  function Insert(t: seq<Entry>, e: Entry): (r: seq<Entry>)
    ensures |r| == |t| + 1
  {
    if t == [] || t[|t| - 1].score >= e.score then t + [e]
    else Insert(t[..|t| - 1], e) + [t[|t| - 1]]
  }

  /** usort with the comparator `$b[0] <=> $a[0]`: descending by score, ties in collection order. */
  function SortDesc(s: seq<Entry>): (r: seq<Entry>)
    ensures |r| == |s|
  {
    if s == [] then [] else Insert(SortDesc(s[..|s| - 1]), s[|s| - 1])
  }

  /** Inserting adds exactly one row. */
  lemma {:induction false} InsertPermutes(t: seq<Entry>, e: Entry)
    ensures multiset(Insert(t, e)) == multiset(t) + multiset{e}
    decreases |t|
  {
    if t != [] && t[|t| - 1].score < e.score {
      InsertPermutes(t[..|t| - 1], e);
      assert t == t[..|t| - 1] + [t[|t| - 1]];
    }
  }

  /** The sorted list is a permutation of the input. */
  lemma {:induction false} SortDescPermutes(s: seq<Entry>)
    ensures multiset(SortDesc(s)) == multiset(s)
  {
    if s != [] {
      SortDescPermutes(s[..|s| - 1]);
      InsertPermutes(SortDesc(s[..|s| - 1]), s[|s| - 1]);
      assert s == s[..|s| - 1] + [s[|s| - 1]];
    }
  }

  lemma {:induction false} WithScoreConcat(a: seq<Entry>, b: seq<Entry>, v: int)
    ensures WithScore(a + b, v) == WithScore(a, v) + WithScore(b, v)
    decreases |b|
  {
    if b == [] {
      assert a + b == a;
    } else {
      var b' := b[..|b| - 1];
      assert (a + b)[..|a + b| - 1] == a + b';
      WithScoreConcat(a, b', v);
    }
  }

  /** No row of s has score v exactly when the rows with score v form the empty list. */
  lemma {:induction false} WithScoreEmpty(s: seq<Entry>, v: int)
    ensures WithScore(s, v) == [] <==> forall j :: 0 <= j < |s| ==> s[j].score != v
  {
    if s != [] {
      var s' := s[..|s| - 1];
      WithScoreEmpty(s', v);
      assert forall j :: 0 <= j < |s'| ==> s'[j] == s[j];
    }
  }

  /** A list's first row is the first of the rows sharing its score. */
  lemma WithScoreHead(r: seq<Entry>)
    requires r != []
    ensures WithScore(r, r[0].score) != [] && WithScore(r, r[0].score)[0] == r[0]
  {
    assert r == [r[0]] + r[1..];
    WithScoreConcat([r[0]], r[1..], r[0].score);
    assert [r[0]][..0] == [];
  }

  /** The first row with score v is the earliest row of s that has that score. */
  lemma {:induction false} WithScoreFirst(s: seq<Entry>, v: int)
    requires WithScore(s, v) != []
    ensures exists k :: 0 <= k < |s| && s[k] == WithScore(s, v)[0] && s[k].score == v &&
                        forall j :: 0 <= j < k ==> s[j].score != v
  {
    var s' := s[..|s| - 1];
    assert forall j :: 0 <= j < |s'| ==> s'[j] == s[j];
    if WithScore(s', v) != [] {
      WithScoreFirst(s', v);
      var k :| 0 <= k < |s'| && s'[k] == WithScore(s', v)[0] && s'[k].score == v &&
               forall j :: 0 <= j < k ==> s'[j].score != v;
      assert s[k] == WithScore(s, v)[0];
    } else {
      WithScoreEmpty(s', v);
      assert s[|s| - 1] == WithScore(s, v)[0];
    }
  }

  lemma {:induction false} InsertMembers(t: seq<Entry>, e: Entry)
    ensures forall x :: x in Insert(t, e) <==> x in t || x == e
  {
    var r := Insert(t, e);
    InsertPermutes(t, e);
    forall x ensures x in r <==> x in t || x == e {
      assert x in r <==> x in multiset(r);
      assert x in t <==> x in multiset(t);
    }
  }

  lemma {:induction false} InsertSorted(t: seq<Entry>, e: Entry)
    requires SortedDesc(t)
    ensures SortedDesc(Insert(t, e))
    decreases |t|
  {
    if t != [] && t[|t| - 1].score < e.score {
      var t', l := t[..|t| - 1], t[|t| - 1];
      InsertSorted(t', e);
      var r' := Insert(t', e);
      InsertMembers(t', e);
      forall i | 0 <= i < |r'| ensures r'[i].score >= l.score {
        assert r'[i] in r';
        if r'[i] != e {
          var k :| 0 <= k < |t'| && t'[k] == r'[i];
          assert t[k] == r'[i];
        }
      }
      assert Insert(t, e) == r' + [l];
    }
  }

  /** Inserting e adds it after the rows that share its score and moves no other row past its equals. */
  lemma {:induction false} InsertWithScore(t: seq<Entry>, e: Entry, v: int)
    ensures WithScore(Insert(t, e), v) == WithScore(t, v) + if e.score == v then [e] else []
    decreases |t|
  {
    if t == [] || t[|t| - 1].score >= e.score {
      WithScoreConcat(t, [e], v);
      assert WithScore([e], v) == if e.score == v then [e] else [] by {
        assert [e][..0] == [];
      }
    } else {
      var t', l := t[..|t| - 1], t[|t| - 1];
      InsertWithScore(t', e, v);
      WithScoreConcat(Insert(t', e), [l], v);
      assert [l][..0] == [];
      assert WithScore(t, v) == WithScore(t', v) + if l.score == v then [l] else [];
    }
  }

  lemma {:induction false} InsertDistinct(t: seq<Entry>, e: Entry)
    requires Distinct(t) && e !in t
    ensures Distinct(Insert(t, e))
    decreases |t|
  {
    if t != [] && t[|t| - 1].score < e.score {
      var t', l := t[..|t| - 1], t[|t| - 1];
      assert forall x :: x in t' ==> x in t;
      assert Distinct(t') by {
        forall i, j | 0 <= i < j < |t'| ensures t'[i] != t'[j] {
          assert t'[i] == t[i] && t'[j] == t[j];
        }
      }
      InsertDistinct(t', e);
      InsertMembers(t', e);
      assert l !in t';
      assert Insert(t, e) == Insert(t', e) + [l];
    }
  }

  /** The sorted list is in descending score order. */
  lemma {:induction false} SortDescSorted(s: seq<Entry>)
    ensures SortedDesc(SortDesc(s))
  {
    if s != [] {
      SortDescSorted(s[..|s| - 1]);
      InsertSorted(SortDesc(s[..|s| - 1]), s[|s| - 1]);
    }
  }

  /** Stability: for every score, the rows holding it appear in the same order as in the input. */
  lemma {:induction false} SortDescStable(s: seq<Entry>, v: int)
    ensures WithScore(SortDesc(s), v) == WithScore(s, v)
  {
    if s != [] {
      SortDescStable(s[..|s| - 1], v);
      InsertWithScore(SortDesc(s[..|s| - 1]), s[|s| - 1], v);
    }
  }

  lemma {:induction false} SortDescDistinct(s: seq<Entry>)
    requires Distinct(s)
    ensures Distinct(SortDesc(s))
  {
    if s != [] {
      var s', l := s[..|s| - 1], s[|s| - 1];
      assert Distinct(s') by {
        forall i, j | 0 <= i < j < |s'| ensures s'[i] != s'[j] {
          assert s'[i] == s[i] && s'[j] == s[j];
        }
      }
      SortDescDistinct(s');
      assert l !in s';
      assert l !in SortDesc(s') by {
        SortDescPermutes(s');
        assert l in SortDesc(s') <==> l in multiset(SortDesc(s'));
      }
      InsertDistinct(SortDesc(s'), l);
    }
  }

  /** The head of the sorted list is a row of the input, and no row of the input scores higher. */
  lemma SortDescHeadIsMax(s: seq<Entry>)
    requires s != []
    ensures SortDesc(s)[0] in s
    ensures forall e :: e in s ==> e.score <= SortDesc(s)[0].score
  {
    var r := SortDesc(s);
    SortDescPermutes(s);
    assert r[0] in multiset(r);
    SortDescSorted(s);
    forall e | e in s ensures e.score <= r[0].score {
      assert e in multiset(s);
      var i :| 0 <= i < |r| && r[i] == e;
    }
  }

  /**
   * The head of the sorted list is the earliest row of the input with the highest score:
   * every row before it in collection order scores strictly less.
   */
  lemma SortDescHeadIsFirstOfTies(s: seq<Entry>)
    requires s != []
    ensures exists k :: 0 <= k < |s| && s[k] == SortDesc(s)[0] &&
                        forall j :: 0 <= j < k ==> s[j].score < s[k].score
  {
    var r := SortDesc(s);
    var top := r[0];
    SortDescHeadIsMax(s);
    SortDescStable(s, top.score);
    WithScoreHead(r);
    WithScoreFirst(s, top.score);
    var k :| 0 <= k < |s| && s[k] == top && forall j :: 0 <= j < k ==> s[j].score != top.score;
    forall j | 0 <= j < k ensures s[j].score < s[k].score {
      assert s[j] in s;
    }
  }

  /** array_search with its (int) cast: the first index holding x, or None where PHP returns false. */
  function Search(r: seq<Entry>, x: Entry): (k: Option<nat>)
    ensures k.None? <==> x !in r
    ensures k.Some? ==> k.value < |r| && r[k.value] == x && forall j :: 0 <= j < k.value ==> r[j] != x
  {
    if r == [] then None
    else if r[0] == x then Some(0)
    else
      match Search(r[1..], x)
      case None => None
      case Some(k) => Some(k + 1)
  }

  /** The position reported to a session: (int)array_search(...) + 1, so a row that is absent reports 1. */
  function Position(r: seq<Entry>, x: Entry): (p: nat)
    ensures p >= 1
    ensures x !in r ==> p == 1
    ensures x in r ==> p - 1 < |r| && r[p - 1] == x && forall j :: 0 <= j < p - 1 ==> r[j] != x
  {
    match Search(r, x)
    case None => 1
    case Some(k) => k + 1
  }

  /** In a list without repeated rows, a present row is reported at its own index plus one. */
  lemma PositionInDistinct(r: seq<Entry>, k: nat)
    requires Distinct(r) && k < |r|
    ensures Position(r, r[k]) == k + 1
  {
    assert forall j :: 0 <= j < k ==> r[j] != r[k];
  }

  /** Sorting one more row inserts it into the sorted list of the others. */
  lemma SortDescSnoc(s: seq<Entry>, e: Entry)
    ensures SortDesc(s + [e]) == Insert(SortDesc(s), e)
  {
    assert (s + [e])[..|s|] == s;
  }

  /** Equal scores keep collection order: rows scoring 10, 30, 30, 5 sort as the first 30, the second 30, 10, 5. */
  lemma TiesKeepCollectionOrder(a: Entry, b: Entry, c: Entry, d: Entry)
    requires a.score == 10 && b.score == 30 && c.score == 30 && d.score == 5
    ensures SortDesc([a, b, c, d]) == [b, c, a, d]
  {
    SortDescSnoc([], a);
    SortDescSnoc([a], b);
    SortDescSnoc([a, b], c);
    SortDescSnoc([a, b, c], d);
    assert [a] == [] + [a] && [a, b] == [a] + [b] && [a, b, c] == [a, b] + [c] && [a, b, c, d] == [a, b, c] + [d];
    assert Insert([a], b) == [b, a] by { assert [a][..0] == []; }
    assert Insert([b, a], c) == [b, c, a] by { assert [b, a][..1] == [b]; }
  }
}
