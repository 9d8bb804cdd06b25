/** Insertion-ordered dictionaries, modelled as association lists.

    The program keeps its subject scores and its per-field scores in
    dictionaries whose iteration order is the order of insertion; that order
    decides both the tie-break of the ranking and the layout of the profile
    summary, so a dictionary is a sequence of key/value pairs here. Every
    dictionary the program builds has distinct keys; on such a dictionary
    "the first binding of k" and "every binding of k" are the same binding.

    Besides lookup and assignment, the module holds the three in-place
    update loops the scoring engine runs (`d[k] = f(d[k])` over a list of
    keys, with and without an `if k in d` guard), each with the closed form
    it computes: every entry has `f` applied to it once per occurrence of its
    key among the keys visited. */
module Dict {

  type Dict<K, V> = seq<(K, V)>

  datatype Option<T> = None | Some(value: T)

  /** The keys of `d`, in insertion order. */
  function Keys<K, V>(d: Dict<K, V>): (ks: seq<K>)
    ensures |ks| == |d|
    ensures forall i :: 0 <= i < |d| ==> ks[i] == d[i].0
  {
    seq(|d|, i requires 0 <= i < |d| => d[i].0)
  }

  /** `k in d`. */
  predicate HasKey<K(==), V>(d: Dict<K, V>, k: K)
  {
    k in Keys(d)
  }

  /** `d.get(k, default)`: the value of the first binding of `k`, or `default`. */
  function Get<K(==), V>(d: Dict<K, V>, k: K, default: V): (v: V)
    ensures !HasKey(d, k) ==> v == default
    ensures HasKey(d, k) ==> exists i :: 0 <= i < |d| && d[i].0 == k && d[i].1 == v
  {
    if |d| == 0 then default
    else if d[0].0 == k then d[0].1
    else
      assert HasKey(d, k) ==> HasKey(d[1..], k) by {
        if HasKey(d, k) {
          var j :| 0 <= j < |d| && Keys(d)[j] == k;
          assert Keys(d[1..])[j - 1] == k;
        }
      }
      Get(d[1..], k, default)
  }

  /** Getting a key bound at index `i` of a dictionary with distinct keys
      yields the value bound there. */
  lemma {:induction false} GetAtIndex<K, V>(d: Dict<K, V>, i: nat, default: V)
    requires NoDup(Keys(d))
    requires i < |d|
    ensures Get(d, d[i].0, default) == d[i].1
  {
    if i > 0 {
      assert d[0].0 != d[i].0 by { assert Keys(d)[0] != Keys(d)[i]; }
      assert Keys(d[1..]) == Keys(d)[1..];
      GetAtIndex(d[1..], i - 1, default);
    }
  }

  /** No element occurs twice. */
  predicate NoDup<T(==)>(s: seq<T>)
  {
    forall i, j :: 0 <= i < j < |s| ==> s[i] != s[j]
  }

  /** Number of occurrences of `x` in `s`. */
  function Count<T(==)>(x: T, s: seq<T>): nat
  {
    if |s| == 0 then 0
    else (if s[0] == x then 1 else 0) + Count(x, s[1..])
  }

  /** An element of a duplicate-free sequence occurs exactly once, any other
      value not at all. */
  lemma {:induction false} CountNoDup<T>(x: T, s: seq<T>)
    requires NoDup(s)
    ensures Count(x, s) == if x in s then 1 else 0
  {
    if |s| > 0 {
      assert NoDup(s[1..]);
      CountNoDup(x, s[1..]);
      if s[0] == x {
        assert x !in s[1..] by {
          forall j | 0 <= j < |s[1..]| ensures s[1..][j] != x {
            assert s[0] != s[j + 1];
          }
        }
      } else {
        assert x in s <==> x in s[1..] by {
          if x in s {
            var j :| 0 <= j < |s| && s[j] == x;
            assert s[1..][j - 1] == x;
          }
        }
      }
    }
  }

  /** A value that does not occur is counted zero times. */
  lemma {:induction false} CountAbsent<T>(x: T, s: seq<T>)
    requires x !in s
    ensures Count(x, s) == 0
  {
    if |s| > 0 {
      assert x !in s[1..] by {
        forall j | 0 <= j < |s[1..]| ensures s[1..][j] != x {
          assert s[1..][j] == s[j + 1];
        }
      }
      CountAbsent(x, s[1..]);
    }
  }

  /** Counting over a concatenation adds up. */
  lemma {:induction false} CountAppend<T>(x: T, a: seq<T>, b: seq<T>)
    ensures Count(x, a + b) == Count(x, a) + Count(x, b)
  {
    if |a| > 0 {
      assert (a + b)[1..] == a[1..] + b;
      CountAppend(x, a[1..], b);
    } else {
      assert a + b == b;
    }
  }

  /** `d[k] = v`: rebinds the first binding of `k` in place, or appends a new
      binding at the end when `k` is absent. */
  function Put<K(==), V>(d: Dict<K, V>, k: K, v: V): Dict<K, V>
  {
    if |d| == 0 then [(k, v)]
    else if d[0].0 == k then [(k, v)] + d[1..]
    else [d[0]] + Put(d[1..], k, v)
  }

  /** Rebinding a present key keeps the keys and their order. */
  lemma {:induction false} PutPresentKeys<K, V>(d: Dict<K, V>, k: K, v: V)
    requires HasKey(d, k)
    ensures Keys(Put(d, k, v)) == Keys(d)
  {
    KeysCons(d[0], d[1..]);
    assert [d[0]] + d[1..] == d;
    if d[0].0 == k {
      KeysCons((k, v), d[1..]);
    } else {
      PutPresentKeys(d[1..], k, v);
      KeysCons(d[0], Put(d[1..], k, v));
    }
  }

  /** Binding an absent key appends it after the others. */
  lemma {:induction false} PutAbsentKeys<K, V>(d: Dict<K, V>, k: K, v: V)
    requires !HasKey(d, k)
    ensures Keys(Put(d, k, v)) == Keys(d) + [k]
  {
    if |d| == 0 {
      KeysCons((k, v), d);
    } else {
      KeysCons(d[0], d[1..]);
      assert [d[0]] + d[1..] == d;
      PutAbsentKeys(d[1..], k, v);
      KeysCons(d[0], Put(d[1..], k, v));
      assert [d[0].0] + (Keys(d[1..]) + [k]) == ([d[0].0] + Keys(d[1..])) + [k];
    }
  }

  /** The keys of a binding followed by a dictionary. */
  lemma KeysCons<K, V>(b: (K, V), d: Dict<K, V>)
    ensures Keys([b] + d) == [b.0] + Keys(d)
  {
  }

  /** After `d[k] = v`, `k` reads back as `v` and every other key reads as before. */
  lemma {:induction false} GetPut<K, V>(d: Dict<K, V>, k: K, v: V, k': K, default: V)
    ensures Get(Put(d, k, v), k', default) == if k' == k then v else Get(d, k', default)
  {
    if |d| > 0 && d[0].0 != k {
      GetPut(d[1..], k, v, k', default);
      assert Put(d, k, v)[1..] == Put(d[1..], k, v);
    } else if |d| > 0 {
      assert Put(d, k, v)[1..] == d[1..];
    }
  }

  // ---------------------------------------------------------------------------
  // In-place updates
  // ---------------------------------------------------------------------------

  /** `f` applied `n` times to `x`. */
  function Iterate<V>(f: V -> V, x: V, n: nat): V
  {
    if n == 0 then x else Iterate(f, f(x), n - 1)
  }

  /** Applying `f` `m` times and then `n` times is applying it `m + n` times. */
  lemma {:induction false} IterateAdd<V>(f: V -> V, x: V, m: nat, n: nat)
    ensures Iterate(f, Iterate(f, x, m), n) == Iterate(f, x, m + n)
  {
    if m > 0 {
      IterateAdd(f, f(x), m - 1, n);
    }
  }

  /** `d[k] = f(d[k])` on the binding of `k`; every other binding and the
      order of the keys stay as they are. */
  function Update<K(==), V>(d: Dict<K, V>, k: K, f: V -> V): (r: Dict<K, V>)
    ensures |r| == |d|
  {
    seq(|d|, i requires 0 <= i < |d| => if d[i].0 == k then (k, f(d[i].1)) else d[i])
  }

  lemma UpdateAt<K, V>(d: Dict<K, V>, k: K, f: V -> V, i: nat)
    requires i < |d|
    ensures Update(d, k, f)[i].0 == d[i].0
    ensures d[i].0 == k ==> Update(d, k, f)[i].1 == f(d[i].1)
    ensures d[i].0 != k ==> Update(d, k, f)[i].1 == d[i].1
  {
  }

  /** An update never adds, drops or reorders keys. */
  lemma UpdateKeys<K, V>(d: Dict<K, V>, k: K, f: V -> V)
    ensures Keys(Update(d, k, f)) == Keys(d)
  {
  }

  /** `for k in ks: if k in d: d[k] = f(d[k])`. */
  function UpdateKnown<K(==), V>(d: Dict<K, V>, ks: seq<K>, f: V -> V): (r: Dict<K, V>)
    ensures |r| == |d|
    decreases ks
  {
    if |ks| == 0 then d
    else UpdateKnown(if HasKey(d, ks[0]) then Update(d, ks[0], f) else d, ks[1..], f)
  }

  /** The guarded loop applies `f` to an entry once per occurrence of its key
      in `ks`; a name of `ks` that is no key touches nothing. */
  lemma {:induction false} UpdateKnownAt<K, V>(d: Dict<K, V>, ks: seq<K>, f: V -> V, i: nat)
    requires i < |d|
    ensures UpdateKnown(d, ks, f)[i].0 == d[i].0
    ensures UpdateKnown(d, ks, f)[i].1 == Iterate(f, d[i].1, Count(d[i].0, ks))
    decreases ks
  {
    if |ks| > 0 {
      var t := if HasKey(d, ks[0]) then Update(d, ks[0], f) else d;
      var n := Count(d[i].0, ks[1..]);
      assert UpdateKnown(d, ks, f) == UpdateKnown(t, ks[1..], f);
      UpdateAt(d, ks[0], f, i);
      UpdateKnownAt(t, ks[1..], f, i);
      if d[i].0 == ks[0] {
        assert HasKey(d, ks[0]) by { assert Keys(d)[i] == ks[0]; }
        assert Count(d[i].0, ks) == n + 1;
      } else {
        assert Count(d[i].0, ks) == n;
      }
    }
  }

  /** The guarded loop, once per key list of `groups`, in order. */
  function UpdateGroups<K(==), V>(d: Dict<K, V>, groups: seq<seq<K>>, f: V -> V): (r: Dict<K, V>)
    ensures |r| == |d|
    decreases groups
  {
    if |groups| == 0 then d
    else UpdateGroups(UpdateKnown(d, groups[0], f), groups[1..], f)
  }

  /** Occurrences of `x` over all lists of `groups`. */
  function GroupCount<T(==)>(x: T, groups: seq<seq<T>>): nat
  {
    if |groups| == 0 then 0 else Count(x, groups[0]) + GroupCount(x, groups[1..])
  }

  lemma {:induction false} GroupCountAppend<T>(x: T, groups: seq<seq<T>>, g: seq<T>)
    ensures GroupCount(x, groups + [g]) == GroupCount(x, groups) + Count(x, g)
  {
    if |groups| > 0 {
      assert (groups + [g])[1..] == groups[1..] + [g];
      GroupCountAppend(x, groups[1..], g);
    } else {
      assert (groups + [g])[1..] == [];
    }
  }

  /** A value in none of the groups is counted zero times. */
  lemma {:induction false} GroupCountAbsent<T>(x: T, groups: seq<seq<T>>)
    requires forall j :: 0 <= j < |groups| ==> x !in groups[j]
    ensures GroupCount(x, groups) == 0
  {
    if |groups| > 0 {
      CountAbsent(x, groups[0]);
      GroupCountAbsent(x, groups[1..]);
    }
  }

  lemma {:induction false} UpdateGroupsAt<K, V>(d: Dict<K, V>, groups: seq<seq<K>>, f: V -> V, i: nat)
    requires i < |d|
    ensures UpdateGroups(d, groups, f)[i].0 == d[i].0
    ensures UpdateGroups(d, groups, f)[i].1 == Iterate(f, d[i].1, GroupCount(d[i].0, groups))
    decreases groups
  {
    if |groups| > 0 {
      var t := UpdateKnown(d, groups[0], f);
      var m := Count(d[i].0, groups[0]);
      var n := GroupCount(d[i].0, groups[1..]);
      assert UpdateGroups(d, groups, f) == UpdateGroups(t, groups[1..], f);
      UpdateKnownAt(d, groups[0], f, i);
      UpdateGroupsAt(t, groups[1..], f, i);
      IterateAdd(f, d[i].1, m, n);
    }
  }

  /** `for k in ks: d[k] = f(d[k])` without a guard: the first key of `ks`
      that is not in `d` raises a KeyError, which is `None` here. */
  function UpdateEach<K(==), V>(d: Dict<K, V>, ks: seq<K>, f: V -> V): (r: Option<Dict<K, V>>)
    ensures r.Some? ==> |r.value| == |d|
    decreases ks
  {
    if |ks| == 0 then Some(d)
    else if !HasKey(d, ks[0]) then None
    else UpdateEach(Update(d, ks[0], f), ks[1..], f)
  }

  /** The unguarded loop fails exactly when some key of `ks` is missing
      from `d`. */
  lemma {:induction false} UpdateEachSome<K, V>(d: Dict<K, V>, ks: seq<K>, f: V -> V)
    ensures UpdateEach(d, ks, f).Some? <==> forall j :: 0 <= j < |ks| ==> HasKey(d, ks[j])
    decreases ks
  {
    if |ks| > 0 && HasKey(d, ks[0]) {
      var u := Update(d, ks[0], f);
      UpdateKeys(d, ks[0], f);
      UpdateEachSome(u, ks[1..], f);
      if forall j :: 0 <= j < |ks[1..]| ==> HasKey(u, ks[1..][j]) {
        forall j | 0 <= j < |ks| ensures HasKey(d, ks[j]) {
          if j > 0 {
            assert HasKey(u, ks[1..][j - 1]);
          }
        }
      }
    }
  }

  /** When the unguarded loop succeeds it applies `f` to an entry once per
      occurrence of its key in `ks`. */
  lemma {:induction false} UpdateEachAt<K, V>(d: Dict<K, V>, ks: seq<K>, f: V -> V, i: nat)
    requires i < |d|
    ensures UpdateEach(d, ks, f).Some? ==> UpdateEach(d, ks, f).value[i].0 == d[i].0
    ensures UpdateEach(d, ks, f).Some? ==>
              UpdateEach(d, ks, f).value[i].1 == Iterate(f, d[i].1, Count(d[i].0, ks))
    decreases ks
  {
    if |ks| > 0 && HasKey(d, ks[0]) {
      var u := Update(d, ks[0], f);
      var n := Count(d[i].0, ks[1..]);
      UpdateAt(d, ks[0], f, i);
      UpdateEachAt(u, ks[1..], f, i);
      if d[i].0 == ks[0] {
        assert Count(d[i].0, ks) == n + 1;
      } else {
        assert Count(d[i].0, ks) == n;
      }
    }
  }
}
