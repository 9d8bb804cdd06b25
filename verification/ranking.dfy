/** The ranking step: `sorted(skor.items(), key=score, reverse=True)` over the
    field scores in catalog order, cut to the first five names.

    Python's sort is stable, also with `reverse=True`: entries with equal
    scores keep their input order. `SortDesc` is a stable insertion sort; it
    is proved sorted, a permutation of its input and order-preserving on ties,
    and `SortDescUnique` shows that these properties determine it. */
module Ranking {
  import opened Dict
  import opened Catalog
  import opened Scoring

  /** How many fields the recommendation keeps. */
  const TopCount: nat := 5

  /** No entry scores higher than an entry before it. */
  predicate NonIncreasing(s: FieldScores)
  {
    forall i, j :: 0 <= i < j < |s| ==> s[i].1 >= s[j].1
  }

  /** The entries scoring exactly `v`, in their order in `s`. */
  function Filter(s: FieldScores, v: real): FieldScores
  {
    if |s| == 0 then []
    else (if s[0].1 == v then [s[0]] else []) + Filter(s[1..], v)
  }

  /** Inserts `e` before the first entry that scores no more than `e`, so `e`
      stays ahead of the entries it ties with. */
  function Insert(e: (string, real), s: FieldScores): (r: FieldScores)
    ensures |r| == |s| + 1
  {
    if |s| == 0 || s[0].1 <= e.1 then [e] + s
    else [s[0]] + Insert(e, s[1..])
  }

  /** `sorted(s, key=score, reverse=True)`. */
  function SortDesc(s: FieldScores): (r: FieldScores)
    ensures |r| == |s|
  {
    if |s| == 0 then [] else Insert(s[0], SortDesc(s[1..]))
  }

  // ---------------------------------------------------------------------------
  // Insertion
  // ---------------------------------------------------------------------------

  lemma {:induction false} InsertPermutes(e: (string, real), s: FieldScores)
    ensures multiset(Insert(e, s)) == multiset(s) + multiset{e}
  {
    if |s| > 0 && s[0].1 > e.1 {
      InsertPermutes(e, s[1..]);
      assert s == [s[0]] + s[1..];
    }
  }

  lemma {:induction false} InsertSorted(e: (string, real), s: FieldScores)
    requires NonIncreasing(s)
    ensures NonIncreasing(Insert(e, s))
  {
    if |s| > 0 && s[0].1 > e.1 {
      var r := Insert(e, s[1..]);
      InsertSorted(e, s[1..]);
      InsertPermutes(e, s[1..]);
      forall x | x in r ensures x.1 <= s[0].1 {
        assert x in multiset(r);
        if x != e {
          assert x in multiset(s[1..]);
          var j :| 0 <= j < |s[1..]| && s[1..][j] == x;
          assert s[j + 1] == x;
        }
      }
      forall i, j | 0 <= i < j < |[s[0]] + r| ensures ([s[0]] + r)[i].1 >= ([s[0]] + r)[j].1 {
        if i == 0 {
          assert ([s[0]] + r)[j] in r;
        }
      }
    }
  }

  lemma {:induction false} InsertFilter(e: (string, real), s: FieldScores, v: real)
    ensures Filter(Insert(e, s), v) == (if e.1 == v then [e] else []) + Filter(s, v)
  {
    if |s| == 0 || s[0].1 <= e.1 {
      assert ([e] + s)[1..] == s;
    } else {
      var rest := Insert(e, s[1..]);
      InsertFilter(e, s[1..], v);
      assert ([s[0]] + rest)[1..] == rest;
      assert Filter(Insert(e, s), v) == (if s[0].1 == v then [s[0]] else []) + Filter(rest, v);
      assert Filter(s, v) == (if s[0].1 == v then [s[0]] else []) + Filter(s[1..], v);
      if e.1 == v {
        assert s[0].1 != v;
      }
    }
  }

  // ---------------------------------------------------------------------------
  // The sort
  // ---------------------------------------------------------------------------

  /** The sort rearranges its input. */
  lemma {:induction false} SortDescPermutes(s: FieldScores)
    ensures multiset(SortDesc(s)) == multiset(s)
  {
    if |s| > 0 {
      SortDescPermutes(s[1..]);
      InsertPermutes(s[0], SortDesc(s[1..]));
      assert s == [s[0]] + s[1..];
    }
  }

  /** The sort orders by non-increasing score. */
  lemma {:induction false} SortDescSorted(s: FieldScores)
    ensures NonIncreasing(SortDesc(s))
  {
    if |s| > 0 {
      SortDescSorted(s[1..]);
      InsertSorted(s[0], SortDesc(s[1..]));
    }
  }

  /** The sort is stable: the entries of each score keep their input order. */
  lemma {:induction false} SortDescStable(s: FieldScores, v: real)
    ensures Filter(SortDesc(s), v) == Filter(s, v)
  {
    if |s| > 0 {
      SortDescStable(s[1..], v);
      InsertFilter(s[0], SortDesc(s[1..]), v);
    }
  }

  /** The first entry scoring the maximum of a non-increasing sequence. */
  lemma FilterHead(r: FieldScores)
    requires NonIncreasing(r) && |r| > 0
    ensures Filter(r, r[0].1) == [r[0]] + Filter(r[1..], r[0].1)
  {
  }

  /** A value that some entry scores has a non-empty filter. */
  lemma {:induction false} FilterNonEmpty(r: FieldScores, j: nat)
    requires j < |r|
    ensures |Filter(r, r[j].1)| > 0
  {
    if j > 0 {
      FilterNonEmpty(r[1..], j - 1);
    }
  }

  /** Every entry of a filter scores the filtered value and comes from `r`. */
  lemma {:induction false} FilterMembers(r: FieldScores, v: real)
    ensures forall x :: x in Filter(r, v) ==> x.1 == v && x in r
  {
    if |r| > 0 {
      FilterMembers(r[1..], v);
    }
  }

  /** Two non-increasing sequences with the same entries per score, in the
      same order, are equal. */
  lemma {:induction false} SortedUnique(r: FieldScores, q: FieldScores)
    requires NonIncreasing(r) && NonIncreasing(q)
    requires forall v :: Filter(r, v) == Filter(q, v)
    ensures r == q
    decreases |r|
  {
    assert |r| == 0 <==> |q| == 0 by {
      if |r| > 0 {
        FilterNonEmpty(r, 0);
      }
      if |q| > 0 {
        FilterNonEmpty(q, 0);
      }
    }
    if |r| > 0 {
      assert r[0].1 >= q[0].1 by {
        FilterNonEmpty(q, 0);
        FilterMembers(r, q[0].1);
        var x := Filter(r, q[0].1)[0];
        assert x in Filter(r, q[0].1);
        var j :| 0 <= j < |r| && r[j] == x;
      }
      assert q[0].1 >= r[0].1 by {
        FilterNonEmpty(r, 0);
        FilterMembers(q, r[0].1);
        var x := Filter(q, r[0].1)[0];
        assert x in Filter(q, r[0].1);
        var j :| 0 <= j < |q| && q[j] == x;
      }
      FilterHead(r);
      FilterHead(q);
      assert r[0] == q[0] by {
        assert Filter(r, r[0].1)[0] == Filter(q, r[0].1)[0];
      }
      forall v ensures Filter(r[1..], v) == Filter(q[1..], v) {
        var p := if r[0].1 == v then [r[0]] else [];
        assert Filter(r, v) == p + Filter(r[1..], v);
        assert Filter(q, v) == p + Filter(q[1..], v);
        assert Filter(r[1..], v) == Filter(r, v)[|p|..];
        assert Filter(q[1..], v) == Filter(q, v)[|p|..];
      }
      SortedUnique(r[1..], q[1..]);
      assert r == [r[0]] + r[1..] && q == [q[0]] + q[1..];
    }
  }

  /** The sort is the only non-increasing arrangement that keeps every
      score's entries in their input order. */
  lemma SortDescUnique(s: FieldScores, r: FieldScores)
    requires NonIncreasing(r)
    requires forall v :: Filter(r, v) == Filter(s, v)
    ensures r == SortDesc(s)
  {
    SortDescSorted(s);
    forall v ensures Filter(r, v) == Filter(SortDesc(s), v) {
      SortDescStable(s, v);
    }
    SortedUnique(r, SortDesc(s));
  }

  // ---------------------------------------------------------------------------
  // Score bands
  // ---------------------------------------------------------------------------

  /** Strictly decreasing score values. */
  predicate Decreasing(vs: seq<real>)
  {
    forall i, j :: 0 <= i < j < |vs| ==> vs[i] > vs[j]
  }

  /** The entries of `s` grouped by score, in the order of the values `vs`,
      each group in input order. */
  function Bands(s: FieldScores, vs: seq<real>): FieldScores
  {
    if |vs| == 0 then [] else Filter(s, vs[0]) + Bands(s, vs[1..])
  }

  lemma {:induction false} FilterFilter(s: FieldScores, a: real, v: real)
    ensures Filter(Filter(s, a), v) == if a == v then Filter(s, a) else []
  {
    if |s| > 0 {
      FilterFilter(s[1..], a, v);
      FilterAppend(if s[0].1 == a then [s[0]] else [], Filter(s[1..], a), v);
    }
  }

  lemma {:induction false} FilterNone(s: FieldScores, v: real)
    requires forall i :: 0 <= i < |s| ==> s[i].1 != v
    ensures Filter(s, v) == []
  {
    if |s| > 0 {
      FilterNone(s[1..], v);
    }
  }

  lemma {:induction false} BandsMembers(s: FieldScores, vs: seq<real>)
    ensures forall x :: x in Bands(s, vs) ==> x.1 in vs
  {
    if |vs| > 0 {
      BandsMembers(s, vs[1..]);
      FilterMembers(s, vs[0]);
      forall x | x in Bands(s, vs) ensures x.1 in vs {
        if x !in Filter(s, vs[0]) {
          assert x in Bands(s, vs[1..]);
          assert x.1 in vs[1..];
        }
      }
    }
  }

  /** Bands taken in decreasing order of value are non-increasing. */
  lemma {:induction false} BandsSorted(s: FieldScores, vs: seq<real>)
    requires Decreasing(vs)
    ensures NonIncreasing(Bands(s, vs))
  {
    if |vs| > 0 {
      var a: FieldScores := Filter(s, vs[0]);
      var b: FieldScores := Bands(s, vs[1..]);
      BandsSorted(s, vs[1..]);
      BandsMembers(s, vs[1..]);
      FilterMembers(s, vs[0]);
      forall i, j | 0 <= i < j < |a + b| ensures (a + b)[i].1 >= (a + b)[j].1 {
        if j < |a| {
          assert a[i] in a && a[j] in a;
        } else if i < |a| {
          assert a[i] in a;
          assert b[j - |a|] in b;
          var k :| 0 <= k < |vs[1..]| && vs[1..][k] == b[j - |a|].1;
          assert vs[k + 1] == b[j - |a|].1;
        } else {
          assert (a + b)[i] == b[i - |a|] && (a + b)[j] == b[j - |a|];
        }
      }
    }
  }

  /** Each value's entries appear in the bands once, in input order, when
      the values are distinct. */
  lemma {:induction false} BandsFilter(s: FieldScores, vs: seq<real>, v: real)
    requires Decreasing(vs)
    ensures Filter(Bands(s, vs), v) == if v in vs then Filter(s, v) else []
  {
    if |vs| > 0 {
      BandsFilter(s, vs[1..], v);
      FilterAppend(Filter(s, vs[0]), Bands(s, vs[1..]), v);
      FilterFilter(s, vs[0], v);
      if v == vs[0] {
        assert v !in vs[1..] by {
          forall k | 0 <= k < |vs[1..]| ensures vs[1..][k] != v {
            assert vs[1..][k] == vs[k + 1];
          }
        }
      } else {
        assert v in vs <==> v in vs[1..] by {
          assert vs == [vs[0]] + vs[1..];
        }
      }
    }
  }

  /** When every score is one of the decreasing values `vs`, sorting lists
      the entries of each value in turn, highest value first, each in input
      order. */
  lemma SortDescBands(s: FieldScores, vs: seq<real>)
    requires Decreasing(vs)
    requires forall i :: 0 <= i < |s| ==> s[i].1 in vs
    ensures SortDesc(s) == Bands(s, vs)
  {
    BandsSorted(s, vs);
    forall v ensures Filter(Bands(s, vs), v) == Filter(s, v) {
      BandsFilter(s, vs, v);
      if v !in vs {
        FilterNone(s, v);
      }
    }
    SortDescUnique(s, Bands(s, vs));
  }

  // ---------------------------------------------------------------------------
  // Keys
  // ---------------------------------------------------------------------------

  lemma {:induction false} InsertKeys(e: (string, real), s: FieldScores)
    ensures forall k :: k in Keys(Insert(e, s)) <==> k == e.0 || k in Keys(s)
  {
    if |s| == 0 || s[0].1 <= e.1 {
      KeysCons(e, s);
    } else {
      InsertKeys(e, s[1..]);
      KeysCons(s[0], Insert(e, s[1..]));
      KeysCons(s[0], s[1..]);
      assert [s[0]] + s[1..] == s;
    }
  }

  lemma NoDupCons(k: string, ks: seq<string>)
    ensures NoDup([k] + ks) <==> k !in ks && NoDup(ks)
  {
    var s := [k] + ks;
    if k !in ks && NoDup(ks) {
      forall i, j | 0 <= i < j < |s| ensures s[i] != s[j] {
        if i == 0 {
          assert s[j] == ks[j - 1];
        } else {
          assert s[i] == ks[i - 1] && s[j] == ks[j - 1];
        }
      }
    }
    if NoDup(s) {
      forall i, j | 0 <= i < j < |ks| ensures ks[i] != ks[j] {
        assert s[i + 1] == ks[i] && s[j + 1] == ks[j];
      }
      forall j | 0 <= j < |ks| ensures ks[j] != k {
        assert s[0] == k && s[j + 1] == ks[j];
      }
    }
  }

  lemma {:induction false} InsertDistinct(e: (string, real), s: FieldScores)
    requires NoDup(Keys(s)) && e.0 !in Keys(s)
    ensures NoDup(Keys(Insert(e, s)))
  {
    if |s| == 0 || s[0].1 <= e.1 {
      KeysCons(e, s);
      NoDupCons(e.0, Keys(s));
    } else {
      KeysCons(s[0], s[1..]);
      assert [s[0]] + s[1..] == s;
      NoDupCons(s[0].0, Keys(s[1..]));
      InsertDistinct(e, s[1..]);
      InsertKeys(e, s[1..]);
      KeysCons(s[0], Insert(e, s[1..]));
      NoDupCons(s[0].0, Keys(Insert(e, s[1..])));
    }
  }

  /** The sort keeps the keys of its input. */
  lemma {:induction false} SortDescKeys(s: FieldScores)
    ensures forall k :: k in Keys(SortDesc(s)) <==> k in Keys(s)
  {
    if |s| > 0 {
      SortDescKeys(s[1..]);
      InsertKeys(s[0], SortDesc(s[1..]));
      KeysCons(s[0], s[1..]);
      assert [s[0]] + s[1..] == s;
    }
  }

  /** Sorting distinct keys leaves them distinct. */
  lemma {:induction false} SortDescDistinct(s: FieldScores)
    requires NoDup(Keys(s))
    ensures NoDup(Keys(SortDesc(s)))
  {
    if |s| > 0 {
      KeysCons(s[0], s[1..]);
      assert [s[0]] + s[1..] == s;
      NoDupCons(s[0].0, Keys(s[1..]));
      SortDescDistinct(s[1..]);
      SortDescKeys(s[1..]);
      InsertDistinct(s[0], SortDesc(s[1..]));
    }
  }

  // ---------------------------------------------------------------------------
  // The top five
  // ---------------------------------------------------------------------------

  /** `urut[:5]`: the first five entries of the sorted scores, or all of them
      when there are fewer. */
  function Top(s: FieldScores): (r: FieldScores)
    ensures |r| == if |s| < TopCount then |s| else TopCount
    ensures NonIncreasing(r)
  {
    SortDescSorted(s);
    SortDesc(s)[..if |s| < TopCount then |s| else TopCount]
  }

  /** Every kept entry comes from the input and scores at least as much as
      every entry left out. */
  lemma TopBeatsRest(s: FieldScores)
    ensures forall x :: x in Top(s) ==> x in s
    ensures forall x, y :: x in Top(s) && y in s && y !in Top(s) ==> x.1 >= y.1
  {
    var q := SortDesc(s);
    var r := Top(s);
    SortDescSorted(s);
    SortDescPermutes(s);
    forall x | x in r ensures x in s {
      assert x in multiset(q);
    }
    forall x, y | x in r && y in s && y !in r ensures x.1 >= y.1 {
      assert y in multiset(q);
      var i :| 0 <= i < |r| && r[i] == x;
      var j :| 0 <= j < |q| && q[j] == y;
      assert forall k :: 0 <= k < |r| ==> r[k] == q[k];
      assert j >= |r|;
      assert q[i] == x;
    }
  }

  /** Ties are cut in input order: the kept entries of each score are the
      first entries of that score in the input. */
  lemma TopTies(s: FieldScores, v: real)
    ensures Filter(Top(s), v) <= Filter(s, v)
  {
    var q := SortDesc(s);
    var n := |Top(s)|;
    assert q == q[..n] + q[n..];
    FilterAppend(q[..n], q[n..], v);
    SortDescStable(s, v);
  }

  lemma {:induction false} FilterAppend(a: FieldScores, b: FieldScores, v: real)
    ensures Filter(a + b, v) == Filter(a, v) + Filter(b, v)
  {
    if |a| > 0 {
      FilterAppend(a[1..], b, v);
      assert (a + b)[1..] == a[1..] + b;
    } else {
      assert a + b == b;
    }
  }

  /** Distinct input keys give distinct kept keys. */
  lemma TopDistinct(s: FieldScores)
    requires NoDup(Keys(s))
    ensures NoDup(Keys(Top(s)))
  {
    var q := SortDesc(s);
    var r := Top(s);
    SortDescDistinct(s);
    assert forall i :: 0 <= i < |r| ==> Keys(r)[i] == Keys(q)[i];
  }

  // ---------------------------------------------------------------------------
  // The recommendation
  // ---------------------------------------------------------------------------

  /** Every kept name is a name of the input. */
  lemma TopKeys(s: FieldScores)
    ensures forall j :: 0 <= j < |Top(s)| ==> Keys(Top(s))[j] in Keys(s)
  {
    SortDescKeys(s);
    assert forall j :: 0 <= j < |Top(s)| ==> Keys(Top(s))[j] == Keys(SortDesc(s))[j];
  }

  /** `top5 = [b for b, _ in urut[:5]]` over the program's scores: five
      distinct catalog fields, best first. */
  function Recommend(scores: SubjectScores, prefs: seq<string>, comfort: string): (names: seq<string>)
    ensures |names| == TopCount
    ensures NoDup(names)
    ensures forall j :: 0 <= j < |names| ==> names[j] in FieldNames
  {
    var s := Score(scores, prefs, comfort);
    ProgramNames();
    ProgramNamesDistinct();
    TopDistinct(s);
    TopKeys(s);
    Keys(Top(s))
  }

  /** A kept entry's score is what looking its name up in the input gives. */
  lemma TopGet(s: FieldScores, a: nat)
    requires NoDup(Keys(s))
    requires a < |Top(s)|
    ensures Get(s, Top(s)[a].0, 0.0) == Top(s)[a].1
  {
    TopBeatsRest(s);
    assert Top(s)[a] in s;
    var j :| 0 <= j < |s| && s[j] == Top(s)[a];
    GetAtIndex(s, j, 0.0);
  }

  /** The kept names are listed best first. */
  lemma TopNamesOrdered(s: FieldScores, names: seq<string>)
    requires NoDup(Keys(s))
    requires names == Keys(Top(s))
    ensures forall a, b :: 0 <= a < b < |names| ==> Get(s, names[a], 0.0) >= Get(s, names[b], 0.0)
  {
    forall a, b | 0 <= a < b < |names| ensures Get(s, names[a], 0.0) >= Get(s, names[b], 0.0) {
      TopGet(s, a);
      TopGet(s, b);
    }
  }

  /** A kept entry scores at least as much as an entry whose name was not
      kept. */
  lemma TopBeats(s: FieldScores, a: nat, j: nat)
    requires a < |Top(s)| && j < |s|
    requires s[j].0 !in Keys(Top(s))
    ensures Top(s)[a].1 >= s[j].1
  {
    var q := SortDesc(s);
    var n := |Top(s)|;
    SortDescSorted(s);
    SortDescPermutes(s);
    assert s[j] in multiset(q);
    var k :| 0 <= k < |q| && q[k] == s[j];
    assert k >= n by {
      assert forall m :: 0 <= m < n ==> Keys(Top(s))[m] == q[m].0;
    }
    assert Top(s)[a] == q[a];
  }

  /** Each kept name scores at least as much as every entry left out. */
  lemma TopNamesBeatRest(s: FieldScores, names: seq<string>)
    requires NoDup(Keys(s))
    requires names == Keys(Top(s))
    ensures forall a, j :: 0 <= a < |names| && 0 <= j < |s| && s[j].0 !in names ==> Get(s, names[a], 0.0) >= s[j].1
  {
    forall a, j | 0 <= a < |names| && 0 <= j < |s| && s[j].0 !in names
      ensures Get(s, names[a], 0.0) >= s[j].1
    {
      TopGet(s, a);
      TopBeats(s, a, j);
    }
  }

  lemma RecommendIsTop(scores: SubjectScores, prefs: seq<string>, comfort: string)
    ensures NoDup(Keys(Score(scores, prefs, comfort)))
    ensures Recommend(scores, prefs, comfort) == Keys(Top(Score(scores, prefs, comfort)))
  {
    ProgramNamesDistinct();
  }

  /** The recommended fields are listed best first, and each scores at least
      as much as every catalog field left out. */
  lemma RecommendBest(scores: SubjectScores, prefs: seq<string>, comfort: string)
    ensures var s, names := Score(scores, prefs, comfort), Recommend(scores, prefs, comfort);
      forall a, b :: 0 <= a < b < |names| ==> Get(s, names[a], 0.0) >= Get(s, names[b], 0.0)
    ensures var s, names := Score(scores, prefs, comfort), Recommend(scores, prefs, comfort);
      forall a, j :: 0 <= a < |names| && 0 <= j < |s| && s[j].0 !in names ==> Get(s, names[a], 0.0) >= s[j].1
  {
    var s, names := Score(scores, prefs, comfort), Recommend(scores, prefs, comfort);
    RecommendIsTop(scores, prefs, comfort);
    TopNamesOrdered(s, names);
    TopNamesBeatRest(s, names);
  }
}
