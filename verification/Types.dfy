/** Identifiers shared by every module, and counting of map entries. */
module Types {

  type TaskId = nat   // the address an Arc<Task>, or a raw waker pointer, designates
  type ExecId = nat
  type Token = nat    // mio token
  type Tag = nat      // ReactorTag
  type OffId = nat    // one offloaded connect or bind
  type Value = int

  datatype Option<+T> = None | Some(value: T)

  /** How many keys of m hold v. */
  ghost function Occ<K, V>(m: map<K, V>, v: V): nat {
    |set k | k in m && m[k] == v|
  }

  lemma OccUpdate<K, V>(m: map<K, V>, k: K, v: V, x: V)
    ensures Occ(m[k := v], x)
         == Occ(m, x) - (if k in m && m[k] == x then 1 else 0) + (if v == x then 1 else 0)
  {
    var before := set j | j in m && m[j] == x;
    var updated := m[k := v];
    var after := set j | j in updated && updated[j] == x;
    SetAround(before, k);
    if v == x {
      assert after == before + {k};
    } else {
      assert after == before - {k};
    }
  }

  lemma SetAround<K>(s: set<K>, k: K)
    ensures |s + {k}| == |s| + (if k in s then 0 else 1)
    ensures |s - {k}| == |s| - (if k in s then 1 else 0)
  {
    if k in s {
      assert s + {k} == s;
    } else {
      assert s - {k} == s;
    }
  }

  lemma OccRemove<K, V>(m: map<K, V>, k: K, x: V)
    ensures Occ(m - {k}, x) == Occ(m, x) - (if k in m && m[k] == x then 1 else 0)
  {
    var before := set j | j in m && m[j] == x;
    assert (set j | j in m - {k} && (m - {k})[j] == x) == before - {k};
  }

  /** A value some key holds is counted. */
  lemma OccPositive<K, V>(m: map<K, V>, k: K)
    requires k in m
    ensures Occ(m, m[k]) > 0
  {
    var holders := set j | j in m && m[j] == m[k];
    assert k in holders && |holders - {k}| == |holders| - 1;
  }

  /** A value no key holds is not counted. */
  lemma OccZero<K, V>(m: map<K, V>, v: V)
    requires forall k | k in m :: m[k] != v
    ensures Occ(m, v) == 0
  {
    assert (set k | k in m && m[k] == v) == {};
  }

  /** Two maps whose v-entries sit under different keys of one set cannot hold v more often than that set is large. */
  lemma OccDisjoint<K, V, W>(m: map<K, V>, v: V, n: map<K, W>, w: W, keys: set<K>)
    requires m.Keys <= keys && n.Keys <= keys
    requires forall k | k in m && m[k] == v && k in n :: n[k] != w
    ensures Occ(m, v) + Occ(n, w) <= |keys|
  {
    var a := set k | k in m && m[k] == v;
    var b := set k | k in n && n[k] == w;
    assert a !! b && a + b <= keys;
    SubsetSize(a + b, keys);
  }

  lemma OccPart<K, V>(m: map<K, V>, n: map<K, V>, v: V)
    requires forall k | k in m :: k in n && n[k] == m[k]
    ensures Occ(m, v) <= Occ(n, v)
  {
    SubsetSize(set k | k in m && m[k] == v, set k | k in n && n[k] == v);
  }

  lemma SubsetSize<K>(a: set<K>, b: set<K>)
    requires a <= b
    ensures |a| <= |b|
  {
    assert b == a + (b - a) && a !! (b - a);
  }

  /** Distinct members of a set make a sequence no longer than the set. */
  lemma NoDupSize<K>(s: seq<K>, keys: set<K>)
    requires NoDup(s) && forall x | x in s :: x in keys
    ensures |s| <= |keys|
  {
    if s != [] {
      var rest := s[1..];
      assert s[0] !in rest;
      assert forall x | x in rest :: x in keys - {s[0]};
      NoDupSize(rest, keys - {s[0]});
    }
  }

  ghost predicate NoDup<K>(s: seq<K>) {
    forall i, j | 0 <= i < j < |s| :: s[i] != s[j]
  }

  lemma HeadAndTail<T>(s: seq<T>, x: T, rest: seq<T>)
    requires s == [x] + rest
    ensures s[0] == x && s[1..] == rest
  {}
}
