/**
 Python's insertion-ordered `dict` with string keys, as an association list whose keys
 are pairwise distinct. Iteration order is the order of the list.
 */
module Dicts {
  import opened Base

  predicate UniqueKeys<V>(m: seq<(string, V)>)
  {
    forall i, j :: 0 <= i < j < |m| ==> m[i].0 != m[j].0
  }

  type Dict<V> = m: seq<(string, V)> | UniqueKeys(m) witness []

  /** The keys in iteration order. */
  function KeySeq<V>(m: seq<(string, V)>): seq<string>
  {
    seq(|m|, i requires 0 <= i < |m| => m[i].0)
  }

  function Keys<V>(m: seq<(string, V)>): set<string>
  {
    set i | 0 <= i < |m| :: m[i].0
  }

  /** The position of `k` in `m`: the first one whose key is `k`. */
  function IndexOf<V>(m: seq<(string, V)>, k: string): (i: nat)
    requires k in Keys(m)
    ensures i < |m| && m[i].0 == k
    ensures forall j :: 0 <= j < i ==> m[j].0 != k
  {
    if m[0].0 == k then 0
    else
      assert k in Keys(m[1..]) by {
        var j :| 0 <= j < |m| && m[j].0 == k;
        assert m[1..][j - 1].0 == k;
      }
      1 + IndexOf(m[1..], k)
  }

  /** In a dictionary a key sits at one position only. */
  lemma IndexOfUnique<V>(m: Dict<V>, k: string, j: int)
    requires 0 <= j < |m| && m[j].0 == k
    ensures k in Keys(m) && IndexOf(m, k) == j
  {
  }

  /** `m.get(k)`: the value bound to `k`, if any. */
  function Get<V>(m: seq<(string, V)>, k: string): (r: Option<V>)
  {
    if k in Keys(m) then Some(m[IndexOf(m, k)].1) else None
  }

  /** `m[k] = v`: an existing key keeps its position and takes the new value; a new key
      goes to the end. */
  function Put<V>(m: Dict<V>, k: string, v: V): (r: Dict<V>)
    ensures Keys(r) == Keys(m) + {k}
    ensures Get(r, k) == Some(v)
    ensures forall k' :: k' != k ==> Get(r, k') == Get(m, k')
    ensures k in Keys(m) ==> KeySeq(r) == KeySeq(m)
    ensures k !in Keys(m) ==> r == m + [(k, v)]
  {
    if k in Keys(m) then
      var i := IndexOf(m, k);
      var r := m[i := (k, v)];
      assert KeySeq(r) == KeySeq(m);
      assert Keys(r) == Keys(m) by {
        forall x | x in Keys(m) ensures x in Keys(r) {
          var j :| 0 <= j < |m| && m[j].0 == x;
          assert r[j].0 == x;
        }
      }
      IndexOfUnique(r, k, i);
      assert forall k' :: k' != k ==> Get(r, k') == Get(m, k') by {
        forall k' | k' != k && k' in Keys(m) ensures Get(r, k') == Get(m, k') {
          IndexOfUnique(r, k', IndexOf(m, k'));
        }
      }
      r
    else
      var r := m + [(k, v)];
      assert Keys(r) == Keys(m) + {k} by {
        assert r[|m|].0 == k;
        forall x | x in Keys(m) ensures x in Keys(r) {
          var j :| 0 <= j < |m| && m[j].0 == x;
          assert r[j].0 == x;
        }
      }
      IndexOfUnique(r, k, |m|);
      assert forall k' :: k' != k ==> Get(r, k') == Get(m, k') by {
        forall k' | k' != k && k' in Keys(m) ensures Get(r, k') == Get(m, k') {
          IndexOfUnique(r, k', IndexOf(m, k'));
        }
      }
      r
  }

  /** Splitting off the first entry of a dictionary. */
  lemma SplitFirst<V>(u: Dict<V>)
    requires |u| > 0
    ensures UniqueKeys(u[1..])
    ensures Keys(u) == {u[0].0} + Keys(u[1..])
    ensures u[0].0 !in Keys(u[1..])
    ensures Get(u, u[0].0) == Some(u[0].1)
    ensures forall k :: k in Keys(u[1..]) ==> Get(u[1..], k) == Get(u, k)
  {
    var rest := u[1..];
    forall x | x in Keys(u) ensures x in {u[0].0} + Keys(rest) {
      var j :| 0 <= j < |u| && u[j].0 == x;
      if j > 0 { assert rest[j - 1].0 == x; }
    }
    forall x | x in Keys(rest) ensures x in Keys(u) {
      var j :| 0 <= j < |rest| && rest[j].0 == x;
      assert u[j + 1].0 == x;
    }
    IndexOfUnique(u, u[0].0, 0);
    forall k | k in Keys(rest) ensures Get(rest, k) == Get(u, k) {
      IndexOfUnique(u, k, IndexOf(rest, k) + 1);
    }
  }

  /** `m.update(u)`: the entries of `u` written over `m` one by one, in `u`'s order. */
  function Update<V>(m: Dict<V>, u: Dict<V>): Dict<V>
    decreases |u|
  {
    if u == [] then m
    else
      SplitFirst(u);
      Update(Put(m, u[0].0, u[0].1), u[1..])
  }

  /** After `m.update(u)` the keys are the union of both key sets. */
  lemma {:induction false} UpdateKeys<V>(m: Dict<V>, u: Dict<V>)
    ensures Keys(Update(m, u)) == Keys(m) + Keys(u)
    decreases |u|
  {
    if u != [] {
      SplitFirst(u);
      var rest: Dict<V> := u[1..];
      var step := Put(m, u[0].0, u[0].1);
      assert Update(m, u) == Update(step, rest);
      UpdateKeys(step, rest);
    }
  }

  /** After `m.update(u)` a key of `u` carries `u`'s value and any other key keeps `m`'s. */
  lemma {:induction false} UpdateGet<V>(m: Dict<V>, u: Dict<V>, k: string)
    ensures Get(Update(m, u), k) == if k in Keys(u) then Get(u, k) else Get(m, k)
    decreases |u|
  {
    if u != [] {
      SplitFirst(u);
      var rest: Dict<V> := u[1..];
      var step := Put(m, u[0].0, u[0].1);
      assert Update(m, u) == Update(step, rest);
      UpdateGet(step, rest, k);
      if k != u[0].0 && k in Keys(u) {
        assert k in Keys(rest);
      }
    }
  }

  /** `m.update(u)` leaves `m`'s keys where they were: at the front, in `m`'s order. */
  lemma {:induction false} UpdatePrefix<V>(m: Dict<V>, u: Dict<V>, i: int)
    requires 0 <= i < |m|
    ensures |m| <= |Update(m, u)| && Update(m, u)[i].0 == m[i].0
    decreases |u|
  {
    if u != [] {
      SplitFirst(u);
      var rest: Dict<V> := u[1..];
      var step := Put(m, u[0].0, u[0].1);
      assert Update(m, u) == Update(step, rest);
      assert |m| <= |step| && step[i].0 == m[i].0 by {
        if u[0].0 in Keys(m) {
          assert KeySeq(step)[i] == KeySeq(m)[i];
        }
      }
      UpdatePrefix(step, rest, i);
    }
  }

  /** All of `m.update(u)` at once: the union of keys, `u`'s values winning, `m`'s values
      kept elsewhere, and `m`'s keys at the front in their order. */
  lemma UpdateSpec<V>(m: Dict<V>, u: Dict<V>)
    ensures Keys(Update(m, u)) == Keys(m) + Keys(u)
    ensures forall k :: k in Keys(u) ==> Get(Update(m, u), k) == Get(u, k)
    ensures forall k :: k !in Keys(u) ==> Get(Update(m, u), k) == Get(m, k)
    ensures |m| <= |Update(m, u)| && KeySeq(Update(m, u))[..|m|] == KeySeq(m)
  {
    var r := Update(m, u);
    UpdateKeys(m, u);
    forall k ensures Get(r, k) == if k in Keys(u) then Get(u, k) else Get(m, k) {
      UpdateGet(m, u, k);
    }
    if m != [] {
      UpdatePrefix(m, u, 0);
    }
    assert |m| <= |r|;
    forall i | 0 <= i < |m| ensures KeySeq(r)[..|m|][i] == KeySeq(m)[i] {
      UpdatePrefix(m, u, i);
    }
  }
}
