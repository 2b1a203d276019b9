/** The order-independent label hash of internal/fgateway/utils/hashutil/utils.go.

    The hash of one entry (FNV-1 over key, NUL, value, NUL) is kept abstract: it is
    the parameter `h` everywhere.  What is modelled is the XOR fold over a map whose
    iteration order the language leaves open.
 */
module LabelHash {
  import opened Words

  type Labels = map<string, string>
  type EntryHash = (string, string) -> uint64

  /** The XOR of the entries of `m`, taken in an arbitrary order. */
  ghost function HashOf(h: EntryHash, m: Labels): uint64
  {
    if m == map[] then 0
    else
      var k :| k in m;
      Xor(h(k, m[k]), HashOf(h, m - {k}))
  }

  /** What one particular iteration order computes, left to right. */
  function HashInOrder(h: EntryHash, m: Labels, order: seq<string>): uint64
    requires forall i | 0 <= i < |order| :: order[i] in m
  {
    if order == [] then 0
    else
      var k := order[|order| - 1];
      Xor(HashInOrder(h, m, order[..|order| - 1]), h(k, m[k]))
  }

  /** `order` visits every entry of `m` exactly once. */
  ghost predicate IsIterationOrder(m: Labels, order: seq<string>)
  {
    && (forall i | 0 <= i < |order| :: order[i] in m)
    && (forall k | k in m :: k in order)
    && (forall i, j | 0 <= i < j < |order| :: order[i] != order[j])
  }

  lemma XorSwap(a: uint64, b: uint64, c: uint64)
    ensures Xor(a, Xor(b, c)) == Xor(b, Xor(a, c))
  {
    XorGroup(a, b, c);
    XorGroup(b, a, c);
  }

  /** Any entry may be taken out first. */
  lemma {:induction false} HashPeel(h: EntryHash, m: Labels, k: string)
    requires k in m
    ensures HashOf(h, m) == Xor(h(k, m[k]), HashOf(h, m - {k}))
    decreases |m|
  {
    var c :| c in m && HashOf(h, m) == Xor(h(c, m[c]), HashOf(h, m - {c}));
    if c != k {
      HashPeel(h, m - {c}, k);
      HashPeel(h, m - {k}, c);
      assert m - {c} - {k} == m - {k} - {c};
      XorSwap(h(k, m[k]), h(c, m[c]), HashOf(h, m - {k} - {c}));
    }
  }

  /** Every iteration order of the map gives the same hash. */
  lemma {:induction false} HashIgnoresOrder(h: EntryHash, m: Labels, order: seq<string>)
    requires IsIterationOrder(m, order)
    ensures HashInOrder(h, m, order) == HashOf(h, m)
    decreases |order|
  {
    if order == [] {
      assert m == map[];
    } else {
      var n := |order| - 1;
      var k, front := order[n], order[..n];
      assert order[n] in m;
      var rest := m - {k};
      forall x | x in rest ensures x in front {
        var i :| 0 <= i < |order| && order[i] == x;
        assert front[i] == x;
      }
      HashIgnoresOrder(h, rest, front);
      HashInOrderAgrees(h, m, rest, front);
      HashPeel(h, m, k);
      XorGroup(h(k, m[k]), HashOf(h, rest), 0);
    }
  }

  /** The fold only looks at the entries it visits. */
  lemma {:induction false} HashInOrderAgrees(h: EntryHash, m: Labels, n: Labels, order: seq<string>)
    requires forall i | 0 <= i < |order| :: order[i] in m && order[i] in n && m[order[i]] == n[order[i]]
    ensures HashInOrder(h, m, order) == HashInOrder(h, n, order)
  {
    if order == [] {
    } else {
      HashInOrderAgrees(h, m, n, order[..|order| - 1]);
    }
  }

  lemma UnionPeel(h: EntryHash, m: Labels, n: Labels, k: string)
    requires m.Keys !! n.Keys && k in m
    ensures HashOf(h, m + n) == Xor(h(k, m[k]), HashOf(h, (m - {k}) + n))
  {
    assert (m + n) - {k} == (m - {k}) + n;
    HashPeel(h, m + n, k);
  }

  /** On a disjoint union the hash is the XOR of the two hashes. */
  lemma {:induction false} HashOfUnion(h: EntryHash, m: Labels, n: Labels)
    requires m.Keys !! n.Keys
    ensures HashOf(h, m + n) == Xor(HashOf(h, m), HashOf(h, n))
    decreases |m|
  {
    if m == map[] {
      assert m + n == n;
      XorGroup(HashOf(h, n), 0, 0);
    } else {
      var k :| k in m;
      HashOfUnion(h, m - {k}, n);
      HashPeel(h, m, k);
      UnionPeel(h, m, n, k);
      XorGroup(h(k, m[k]), HashOf(h, m - {k}), HashOf(h, n));
    }
  }

  /** The contribution of key `k`, zero when the key is absent. */
  function EntryAt(h: EntryHash, m: Labels, k: string): uint64
  {
    if k in m then h(k, m[k]) else 0
  }

  /** Writing one entry changes the hash by the XOR of the old and the new entry. */
  lemma HashOfUpdate(h: EntryHash, m: Labels, k: string, v: string)
    ensures HashOf(h, m[k := v]) == Xor(Xor(HashOf(h, m), EntryAt(h, m, k)), h(k, v))
  {
    var rest := m - {k};
    assert m[k := v] - {k} == rest;
    HashPeel(h, m[k := v], k);
    if k in m {
      HashPeel(h, m, k);
      XorReplace(h(k, m[k]), HashOf(h, rest), h(k, v));
    } else {
      assert rest == m;
      XorGroup(h(k, v), HashOf(h, m), 0);
      XorGroup(HashOf(h, m), 0, 0);
    }
  }

  lemma XorReplace(a: uint64, b: uint64, c: uint64)
    ensures Xor(c, b) == Xor(Xor(Xor(a, b), a), c)
  {
    XorGroup(b, a, a);
    XorGroup(a, b, 0);
    XorGroup(b, 0, 0);
    XorGroup(c, b, 0);
  }

  /** HashLables: the loop, with the iteration order left to the runtime. */
  method HashLabels(h: EntryHash, labels: Labels) returns (finalHash: uint64)
    ensures finalHash == HashOf(h, labels)
  {
    finalHash := 0;
    var todo := labels.Keys;
    ghost var order: seq<string> := [];
    while todo != {}
      invariant todo <= labels.Keys
      invariant forall i | 0 <= i < |order| :: order[i] in labels && order[i] !in todo
      invariant forall k | k in labels :: k in todo || k in order
      invariant forall i, j | 0 <= i < j < |order| :: order[i] != order[j]
      invariant finalHash == HashInOrder(h, labels, order)
      decreases |todo|
    {
      var k :| k in todo;
      finalHash := Xor(finalHash, h(k, labels[k]));
      todo := todo - {k};
      assert (order + [k])[..|order|] == order;
      order := order + [k];
    }
    HashIgnoresOrder(h, labels, order);
  }
}
