/**
 * Python `dict` with string keys: an insertion-ordered list of entries whose keys
 * are pairwise distinct. Assigning to a present key keeps its position; assigning
 * to an absent key appends it; `update` assigns each entry of the argument in order.
 */
module Dicts {
  import opened Wrappers

  type Dict<V> = seq<(string, V)>

  function Keys<V>(d: Dict<V>): (ks: seq<string>)
    ensures |ks| == |d|
    ensures forall i :: 0 <= i < |d| ==> ks[i] == d[i].0
  {
    if d == [] then [] else [d[0].0] + Keys(d[1..])
  }

  predicate Distinct(ks: seq<string>)
  {
    forall i, j :: 0 <= i < j < |ks| ==> Differ(ks, i, j)
  }

  /** The keys at two positions differ (kept as its own predicate so that only proofs that ask for it compare positions). */
  predicate Differ(ks: seq<string>, i: int, j: int)
    requires 0 <= i < j < |ks|
  {
    ks[i] != ks[j]
  }

  lemma DistinctAt(ks: seq<string>, i: int, j: int)
    requires Distinct(ks) && 0 <= i < j < |ks|
    ensures ks[i] != ks[j]
  {
    assert Differ(ks, i, j);
  }

  /** Dropping the first key keeps the rest distinct, and the first key is not among them. */
  lemma DistinctTail(ks: seq<string>)
    requires Distinct(ks) && ks != []
    ensures Distinct(ks[1..]) && ks[0] !in ks[1..]
  {
    forall i, j | 0 <= i < j < |ks| - 1
      ensures Differ(ks[1..], i, j)
    {
      assert Differ(ks, i + 1, j + 1);
    }
    forall j | 0 <= j < |ks| - 1
      ensures ks[1..][j] != ks[0]
    {
      assert Differ(ks, 0, j + 1);
    }
  }

  /** A prefix of distinct keys is distinct, and the key after it is not in it. */
  lemma DistinctPrefix(ks: seq<string>, n: nat)
    requires Distinct(ks) && n <= |ks|
    ensures Distinct(ks[..n])
    ensures n < |ks| ==> ks[n] !in ks[..n]
  {
    forall i, j | 0 <= i < j < n
      ensures Differ(ks[..n], i, j)
    {
      assert Differ(ks, i, j);
    }
    if n < |ks| {
      forall i | 0 <= i < n
        ensures ks[..n][i] != ks[n]
      {
        assert Differ(ks, i, n);
      }
    }
  }

  /** Appending a key that is not yet present keeps the keys distinct. */
  lemma DistinctSnoc(ks: seq<string>, k: string)
    requires Distinct(ks) && k !in ks
    ensures Distinct(ks + [k])
  {
    forall i, j | 0 <= i < j < |ks| + 1
      ensures Differ(ks + [k], i, j)
    {
      if j < |ks| {
        assert Differ(ks, i, j);
      } else {
        assert (ks + [k])[i] == ks[i];
      }
    }
  }

  /** Prepending a key that is not yet present keeps the keys distinct. */
  lemma DistinctCons(k: string, ks: seq<string>)
    requires Distinct(ks) && k !in ks
    ensures Distinct([k] + ks)
  {
    forall i, j | 0 <= i < j < |ks| + 1
      ensures Differ([k] + ks, i, j)
    {
      if i > 0 {
        assert Differ(ks, i - 1, j - 1);
      } else {
        assert ([k] + ks)[j] == ks[j - 1];
      }
    }
  }

  /** The keys of a Python dict are pairwise distinct. */
  predicate WellFormed<V>(d: Dict<V>)
  {
    Distinct(Keys(d))
  }

  predicate HasKey<V>(d: Dict<V>, k: string)
  {
    k in Keys(d)
  }

  /** `d.get(k)`: the value stored under `k`, or None when `k` is absent. */
  function Get<V>(d: Dict<V>, k: string): (r: Option<V>)
    ensures r.Some? <==> HasKey(d, k)
  {
    if d == [] then None
    else if d[0].0 == k then Some(d[0].1)
    else Get(d[1..], k)
  }

  /** `d[k] = v`. */
  function Set<V>(d: Dict<V>, k: string, v: V): (r: Dict<V>)
    ensures HasKey(d, k) ==> Keys(r) == Keys(d)
    ensures !HasKey(d, k) ==> Keys(r) == Keys(d) + [k]
  {
    if d == [] then [(k, v)]
    else if d[0].0 == k then [(k, v)] + d[1..]
    else [d[0]] + Set(d[1..], k, v)
  }

  /** `d.update(e)`: the entries of `e` are assigned one by one, in order. */
  function Update<V>(d: Dict<V>, e: Dict<V>): Dict<V>
    decreases |e|
  {
    if e == [] then d else Update(Set(d, e[0].0, e[0].1), e[1..])
  }

  /** The keys of `e` that `d` lacks, in their order in `e`. */
  function NewKeys(ks: seq<string>, es: seq<string>): seq<string>
  {
    if es == [] then []
    else if es[0] in ks then NewKeys(ks, es[1..])
    else [es[0]] + NewKeys(ks, es[1..])
  }

  lemma {:induction false} GetIn<V>(d: Dict<V>, k: string, i: nat)
    requires WellFormed(d) && i < |d| && d[i].0 == k
    ensures Get(d, k) == Some(d[i].1)
  {
    if i > 0 {
      DistinctAt(Keys(d), 0, i);
      WellFormedTail(d);
      GetIn(d[1..], k, i - 1);
    }
  }

  lemma {:induction false} WellFormedTail<V>(d: Dict<V>)
    requires WellFormed(d) && d != []
    ensures WellFormed(d[1..]) && d[0].0 !in Keys(d[1..])
  {
    assert Keys(d[1..]) == Keys(d)[1..];
    DistinctTail(Keys(d));
  }

  lemma {:induction false} SetWellFormed<V>(d: Dict<V>, k: string, v: V)
    requires WellFormed(d)
    ensures WellFormed(Set(d, k, v))
  {
    if d != [] {
      WellFormedTail(d);
      if d[0].0 == k {
        assert Keys(Set(d, k, v)) == Keys(d);
      } else {
        SetWellFormed(d[1..], k, v);
        var t := Set(d[1..], k, v);
        assert Set(d, k, v) == [d[0]] + t;
        assert Keys([d[0]] + t) == [d[0].0] + Keys(t);
        assert d[0].0 !in Keys(t);
        DistinctCons(d[0].0, Keys(t));
      }
    }
  }

  /** Assignment reads back, leaves every other key alone and keeps keys distinct. */
  lemma {:induction false} GetSet<V>(d: Dict<V>, k: string, v: V, j: string)
    requires WellFormed(d)
    ensures WellFormed(Set(d, k, v))
    ensures Get(Set(d, k, v), j) == if j == k then Some(v) else Get(d, j)
  {
    SetWellFormed(d, k, v);
    if d != [] && d[0].0 != k {
      WellFormedTail(d);
      GetSet(d[1..], k, v, j);
    }
  }

  /** `d.update(e)`: keys of `e` win; every other key keeps its value from `d`. */
  lemma {:induction false} GetUpdate<V>(d: Dict<V>, e: Dict<V>, j: string)
    requires WellFormed(d) && WellFormed(e)
    ensures WellFormed(Update(d, e))
    ensures Get(Update(d, e), j) == if HasKey(e, j) then Get(e, j) else Get(d, j)
    decreases |e|
  {
    if e != [] {
      WellFormedTail(e);
      GetSet(d, e[0].0, e[0].1, j);
      GetUpdate(Set(d, e[0].0, e[0].1), e[1..], j);
      assert Keys(e) == [e[0].0] + Keys(e[1..]);
    }
  }

  /** `d.update(e)` keeps the keys of `d` in place and appends the new keys of `e` in order. */
  lemma {:induction false} KeysUpdate<V>(d: Dict<V>, e: Dict<V>)
    requires WellFormed(e)
    ensures Keys(Update(d, e)) == Keys(d) + NewKeys(Keys(d), Keys(e))
    decreases |e|
  {
    if e != [] {
      WellFormedTail(e);
      var k, e' := e[0].0, e[1..];
      var d' := Set(d, k, e[0].1);
      KeysUpdate(d', e');
      assert Keys(Update(d, e)) == Keys(d') + NewKeys(Keys(d'), Keys(e'));
      KeysSetThenNew(d, k, e[0].1, Keys(e), Keys(e'));
    }
  }

  lemma KeysSetThenNew<V>(d: Dict<V>, k: string, v: V, es: seq<string>, es': seq<string>)
    requires es == [k] + es' && k !in es'
    ensures Keys(Set(d, k, v)) + NewKeys(Keys(Set(d, k, v)), es') == Keys(d) + NewKeys(Keys(d), es)
  {
    if k in Keys(d) {
      assert NewKeys(Keys(d), es) == NewKeys(Keys(d), es');
    } else {
      NewKeysShift(Keys(d), k, es');
      assert NewKeys(Keys(d), es) == [k] + NewKeys(Keys(d), es');
    }
  }

  lemma {:induction false} NewKeysShift(ks: seq<string>, k: string, es: seq<string>)
    requires k !in es
    ensures NewKeys(ks + [k], es) == NewKeys(ks, es)
  {
    if es != [] {
      NewKeysShift(ks, k, es[1..]);
    }
  }

  /** Every key of the merged dict is a key of one of the two operands, and conversely. */
  lemma {:induction false} KeysUpdateMembership<V>(d: Dict<V>, e: Dict<V>, j: string)
    requires WellFormed(e)
    ensures HasKey(Update(d, e), j) <==> HasKey(d, j) || HasKey(e, j)
  {
    KeysUpdate(d, e);
    NewKeysMembership(Keys(d), Keys(e), j);
  }

  lemma {:induction false} NewKeysMembership(ks: seq<string>, es: seq<string>, j: string)
    ensures j in NewKeys(ks, es) <==> j in es && j !in ks
  {
    if es != [] {
      NewKeysMembership(ks, es[1..], j);
      assert es == [es[0]] + es[1..];
    }
  }

  /** Joining two duplicate-free key lists with no key in common keeps them duplicate-free. */
  lemma DistinctAppend(xs: seq<string>, ys: seq<string>)
    requires Distinct(xs) && Distinct(ys)
    requires forall k :: k in xs ==> k !in ys
    ensures Distinct(xs + ys)
  {
    forall i, j | 0 <= i < j < |xs + ys|
      ensures Differ(xs + ys, i, j)
    {
      if j < |xs| {
        assert Differ(xs, i, j);
      } else if i >= |xs| {
        assert Differ(ys, i - |xs|, j - |xs|);
      } else {
        assert (xs + ys)[i] in xs;
        assert (xs + ys)[j] == ys[j - |xs|];
      }
    }
  }

  /** Assigning a key `d` lacks appends it. */
  lemma {:induction false} SetAbsent<V>(d: Dict<V>, k: string, v: V)
    requires k !in Keys(d)
    ensures Set(d, k, v) == d + [(k, v)]
  {
    if d != [] {
      KeysTail(d);
      SetAbsent(d[1..], k, v);
      ConsSnoc(d, (k, v));
    }
  }

  /** `d.update(e)` with keys new to `d` appends `e`. */
  lemma {:induction false} AppendDisjointUpdate<V>(d: Dict<V>, e: Dict<V>)
    requires WellFormed(e)
    requires forall k :: k in Keys(e) ==> k !in Keys(d)
    ensures Update(d, e) == d + e
    decreases |e|
  {
    if e != [] {
      WellFormedTail(e);
      SetAbsent(d, e[0].0, e[0].1);
      UpdateStep(d, e);
      AppendDisjointUpdate(d + [e[0]], e[1..]);
      SnocCons(d, e);
    }
  }

  lemma UpdateStep<V>(d: Dict<V>, e: Dict<V>)
    requires WellFormed(e) && e != []
    requires forall k :: k in Keys(e) ==> k !in Keys(d)
    ensures forall k :: k in Keys(e[1..]) ==> k !in Keys(d + [e[0]])
  {
    KeysTail(e);
    KeysSnoc(d, e[0]);
    DisjointShift(Keys(d), Keys(e));
  }

  /** The keys of a dict are read off its entries, position by position. */
  lemma KeysAre<V>(d: Dict<V>, ks: seq<string>)
    requires |d| == |ks| && forall i :: 0 <= i < |d| ==> d[i].0 == ks[i]
    ensures Keys(d) == ks
  {
  }

  /** A key found in the second entry, behind a different first key. */
  lemma GetSecond<V>(a: (string, V), b: (string, V), rest: Dict<V>)
    requires a.0 != b.0
    ensures Get([a, b] + rest, b.0) == Some(b.1)
  {
    var d := [a, b] + rest;
    assert d[1..] == [b] + rest;
  }

  lemma FullSlice<T>(s: seq<T>)
    ensures s[..|s|] == s
  {
  }

  lemma PrefixSnoc<T>(s: seq<T>, i: nat)
    requires i < |s|
    ensures s[..i + 1] == s[..i] + [s[i]]
  {
  }

  lemma ConsSnoc<T>(s: seq<T>, x: T)
    requires s != []
    ensures [s[0]] + (s[1..] + [x]) == s + [x]
  {
  }

  lemma InitLast<T>(s: seq<T>, n: nat)
    requires n == |s| - 1
    ensures s == s[..n] + [s[n]]
  {
  }

  lemma SnocCons<T>(d: seq<T>, e: seq<T>)
    requires e != []
    ensures d + [e[0]] + e[1..] == d + e
  {
    assert e == [e[0]] + e[1..];
  }

  lemma KeysTail<V>(d: Dict<V>)
    requires d != []
    ensures Keys(d[1..]) == Keys(d)[1..]
  {
  }

  lemma KeysSnoc<V>(d: Dict<V>, x: (string, V))
    ensures Keys(d + [x]) == Keys(d) + [x.0]
  {
  }

  lemma DisjointShift(kd: seq<string>, ke: seq<string>)
    requires Distinct(ke) && ke != []
    requires forall k :: k in ke ==> k !in kd
    ensures forall k :: k in ke[1..] ==> k !in kd + [ke[0]]
  {
    forall k | k in ke[1..]
      ensures k !in kd + [ke[0]]
    {
      var i :| 0 <= i < |ke| - 1 && ke[1..][i] == k;
      assert ke[i + 1] == k;
      DistinctAt(ke, 0, i + 1);
    }
  }

  lemma KeysAppend<V>(a: Dict<V>, b: Dict<V>)
    ensures Keys(a + b) == Keys(a) + Keys(b)
  {
  }

  /** Two dicts with no key in common, joined as by `f(**a, **b)`, form a dict. */
  lemma AppendWellFormed<V>(a: Dict<V>, b: Dict<V>)
    requires WellFormed(a) && WellFormed(b)
    requires forall k :: k in Keys(a) ==> k !in Keys(b)
    ensures Keys(a + b) == Keys(a) + Keys(b)
    ensures WellFormed(a + b)
  {
    KeysAppend(a, b);
    DistinctAppend(Keys(a), Keys(b));
  }

  /** A lookup in such a join finds the key in whichever operand has it. */
  lemma AppendGet<V>(a: Dict<V>, b: Dict<V>, k: string)
    requires WellFormed(a) && WellFormed(b)
    requires forall k :: k in Keys(a) ==> k !in Keys(b)
    ensures Get(a + b, k) == if k in Keys(a) then Get(a, k) else Get(b, k)
  {
    AppendWellFormed(a, b);
    if k in Keys(a) {
      AppendGetLeft(a, b, k);
    } else if k in Keys(b) {
      AppendGetRight(a, b, k);
    }
  }

  lemma AppendGetLeft<V>(a: Dict<V>, b: Dict<V>, k: string)
    requires WellFormed(a + b) && WellFormed(a) && k in Keys(a)
    ensures Get(a + b, k) == Get(a, k)
  {
    var i :| 0 <= i < |a| && Keys(a)[i] == k;
    GetIn(a, k, i);
    GetIn(a + b, k, i);
  }

  lemma AppendGetRight<V>(a: Dict<V>, b: Dict<V>, k: string)
    requires WellFormed(a + b) && WellFormed(b) && k in Keys(b)
    ensures Get(a + b, k) == Get(b, k)
  {
    var j :| 0 <= j < |b| && Keys(b)[j] == k;
    GetIn(b, k, j);
    GetIn(a + b, k, |a| + j);
  }

  /** Updating with `e1 + e2` is updating with `e1`, then with `e2`. */
  lemma {:induction false} UpdateAppend<V>(d: Dict<V>, e1: Dict<V>, e2: Dict<V>)
    ensures Update(d, e1 + e2) == Update(Update(d, e1), e2)
    decreases |e1|
  {
    if e1 != [] {
      assert (e1 + e2)[1..] == e1[1..] + e2;
      UpdateAppend(Set(d, e1[0].0, e1[0].1), e1[1..], e2);
    } else {
      assert e1 + e2 == e2;
    }
  }

  /** Assigning a value that satisfies `p` keeps `p` true of every value. */
  lemma {:induction false} SetAll<V>(d: Dict<V>, k: string, v: V, p: V -> bool)
    requires forall i :: 0 <= i < |d| ==> p(d[i].1)
    requires p(v)
    ensures forall i :: 0 <= i < |Set(d, k, v)| ==> p(Set(d, k, v)[i].1)
  {
    if d != [] && d[0].0 != k {
      SetAll(d[1..], k, v, p);
    }
  }
}
