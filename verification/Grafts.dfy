/** What merging without copies does to the overrides.  A merge grafts parts of an override
    into the default, and the next merge writes into what was grafted.

    `Fate` is what an override becomes when the next one is merged, `Survives` the condition
    under which that is what it was. */
module Grafts {
  import opened Options
  import opened GatewayParams
  import opened Schemas
  import opened Values
  import opened HeapMerge

  // ---- a tree in memory is determined by its address ----

  lemma LabelUnique(b: Boxes, l: LabelTree, m: LabelTree)
    requires StoredLabel(b, l) && StoredLabel(b, m) && HousedLabel(l) && HousedLabel(m) && LabelRef(l) == LabelRef(m)
    ensures l == m
  {}

  lemma LabelsUnique(b: Boxes, x: seq<LabelTree>, y: seq<LabelTree>)
    requires forall l | l in x + y :: StoredLabel(b, l) && HousedLabel(l)
    requires LabelRefs(x) == LabelRefs(y)
    ensures x == y
  {
    assert |x| == |LabelRefs(x)| == |y|;
    forall i | 0 <= i < |x| ensures x[i] == y[i] {
      assert x[i] in x + y && y[i] in x + y && LabelRefs(x)[i] == LabelRefs(y)[i];
      LabelUnique(b, x[i], y[i]);
    }
  }

  lemma {:induction false} FieldUnique(c: Cells, b: Boxes, kind: Kind, f: Field, g: Field)
    requires StoredField(c, b, f) && StoredField(c, b, g) && SlotOf(f) == SlotOf(g)
    requires TypedTreeField(kind, f) && TypedTreeField(kind, g)
    ensures f == g
    decreases f
  {
    match kind
    case NodeKind(child) => TreeUnique(c, b, child, f.tree, g.tree);
    case LeafKind(_, zero, _) =>
      if f.LabelsField? && f.labels.Some? {
        LabelsUnique(b, f.labels.value, g.labels.value);
      }
  }

  lemma {:induction false} TreeUnique(c: Cells, b: Boxes, t: Type, x: Tree, y: Tree)
    requires Stored(c, b, x) && Stored(c, b, y) && RefOf(x) == RefOf(y) && TypedTree(t, x) && TypedTree(t, y)
    ensures x == y
    decreases x
  {
    hide FieldKind, Width;
    if x.Absent? {
    } else {
      forall i: nat | i < |x.fields| ensures x.fields[i] == y.fields[i] {
        TreeFieldTyped(t, x, i);
        TreeFieldTyped(t, y, i);
        FieldUnique(c, b, FieldKind(t, i), x.fields[i], y.fields[i]);
      }
    }
  }

  /** Equal trees in two states of memory are in equal cells. */
  lemma {:induction false} SameTreeSameCells(c: Cells, c': Cells, b: Boxes, t: Tree)
    requires Stored(c, b, t) && Stored(c', b, t)
    ensures Agree(c, c', Addrs(t))
    decreases t
  {
    if t.Absent? {
    } else {
      assert c[t.addr].slots == c'[t.addr].slots;
      forall i | 0 <= i < |t.fields| ensures Agree(c, c', FieldAddrs(t.fields[i])) {
        assert StoredField(c, b, t.fields[i]) && StoredField(c', b, t.fields[i]);
        if t.fields[i].NodeField? { SameTreeSameCells(c, c', b, t.fields[i].tree); }
      }
    }
  }

  // ---- when a merge finds nothing to write ----

  /** All entries of `n` are entries of `m` already. */
  predicate Covers(m: StringMap, n: StringMap)
  {
    forall k | k in n :: k in m && m[k] == n[k]
  }

  lemma CoversExactly(m: StringMap, n: StringMap)
    ensures Covers(m, n) <==> m + n == m
  {
    if m + n == m {
      forall k | k in n ensures k in m && m[k] == n[k] {
        assert k in m + n && (m + n)[k] == n[k];
      }
    } else {
    }
  }

  /** A plain field keeps its value: an overriding scalar is zero or no different, an
      appended list is nil or both are empty, sidecars are nil, empty or no different. */
  predicate PlainKept(policy: Policy, x: Leaf, s: Leaf)
  {
    match policy
    case LastWins => IsZero(s) || s == x
    case FirstWins => !IsZero(x) || s == x
    case Append => s == Items(None) || (s == Items(Some([])) && x == s)
    case LastNonEmptyWins => s == Items(None) || s == Items(Some([])) || s == x
    case Union => true
  }

  /** Merging field `s` into field `x` leaves `x` as it is. */
  predicate Kept(policy: Policy, x: Field, s: Field)
  {
    match (x, s)
    case (PlainField(a), PlainField(b)) => PlainKept(policy, a, b)
    case (PointerField(a, _), PointerField(b, _)) => s == x || (if policy.FirstWins? then a.Some? else b.None?)
    case (LabelsField(a), LabelsField(b)) => b.None? || (b == Some([]) && a == b)
    case (MapField(a, m), MapField(b, n)) => b.None? || s == x || (a.Some? && n != map[] && Covers(m, n))
    case _ => true
  }

  lemma PlainKeptExactly(policy: Policy, x: Leaf, s: Leaf)
    requires SameSort(x, s) && Fits(policy, x) && !x.CustomLabels? && !policy.Union?
    ensures Combine(policy, x, s) == x <==> PlainKept(policy, x, s)
  {
    if policy.Append? && x.items.Some? && s.items.Some? {
      assert |x.items.value + s.items.value| == |x.items.value| + |s.items.value|;
    }
  }

  lemma KeptExactly(policy: Policy, zero: Leaf, x: Field, s: Field)
    requires !x.NodeField? && !s.NodeField? && Housed(x) && Housed(s) && Fits(policy, zero)
    requires SameSort(zero, LeafOf(x)) && SameSort(zero, LeafOf(s))
    ensures MergeLeafFields(policy, x, s) == x <==> Kept(policy, x, s)
  {
    match x
    case PlainField(a) => PlainKeptExactly(policy, a, s.leaf);
    case PointerField(_, _) =>
    case LabelsField(a) =>
      if a.Some? && s.labels.Some? { assert |a.value + s.labels.value| == |a.value| + |s.labels.value|; }
    case MapField(_, m) => CoversExactly(m, s.entries);
  }

  /** The credential-spec name keeps its pointer: it is the one chosen from the two specs. */
  predicate NameKept(name: Field, spec: Field, override: Field)
  {
    name == if override.PointerField? && override.at.None? then spec else override
  }

  /** Merging `s` into `x` finds every field as it would leave it. */
  ghost predicate Unwritten(t: Type, x: Tree, s: Tree)
    decreases x, 1
  {
    s.Absent? ||
    (&& x.Struct? && |x.fields| == |s.fields|
     && forall i: nat | i < |x.fields| :: UnwrittenField(t, x.fields, s.fields, i))
  }

  ghost predicate UnwrittenField(t: Type, x: seq<Field>, s: seq<Field>, i: nat)
    requires |x| == |s| && i < |x|
    decreases x, 0
  {
    match FieldKind(t, i)
    case LeafKind(policy, _, ahead) =>
      if ahead == 0 then Kept(policy, x[i], s[i])
      else i + ahead < |x| && NameKept(x[i], x[i + ahead], s[i + ahead])
    case NodeKind(child) => UnwrittenNode(child, x[i], s[i])
  }

  ghost predicate UnwrittenNode(t: Type, x: Field, s: Field)
    decreases x
  {
    x.NodeField? && s.NodeField? && Unwritten(t, x.tree, s.tree)
  }

  /** A merge changes nothing in the default exactly if it finds nothing to write. */
  lemma {:induction false} UnwrittenExactly(t: Type, x: Tree, s: Tree)
    requires TypedTree(t, x) && TypedTree(t, s)
    ensures Unwritten(t, x, s) <==> MergeTrees(t, x, s) == x
    decreases x
  {
    hide FieldKind, Width;
    if x.Absent? || s.Absent? {
    } else {
      var m := MergeTrees(t, x, s);
      forall i: nat | i < |x.fields|
        ensures |m.fields| == |x.fields| == |s.fields|
        ensures UnwrittenField(t, x.fields, s.fields, i) <==> m.fields[i] == x.fields[i]
      {
        PairFields(t, x, s, i);
        if FieldKind(t, i).NodeKind? {
          UnwrittenExactly(FieldKind(t, i).node, x.fields[i].tree, s.fields[i].tree);
        } else {
          UnwrittenLeaf(t, x, s, i);
        }
      }
      assert |x.fields| == |s.fields| == |m.fields|;
      if Unwritten(t, x, s) { assert m.fields == x.fields; }
    }
  }

  lemma UnwrittenLeaf(t: Type, x: Tree, s: Tree, i: nat)
    requires Pair(t, x, s) && i < |x.fields| == |s.fields| && FieldKind(t, i).LeafKind?
    ensures UnwrittenField(t, x.fields, s.fields, i) <==> MergeTreeFields(t, x.fields, s.fields, i) == x.fields[i]
  {
    hide FieldKind, Width, TypedTree, Kept;
    PairFields(t, x, s, i);
    LeafFieldsAt(t, x, s, i);
    FieldKindsSound(t, i);
    var k := FieldKind(t, i);
    if k.ahead == 0 { KeptExactly(k.policy, k.zero, x.fields[i], s.fields[i]); }
  }

  /** Windows options with a name and no spec are written by any Windows options merged into
      them, even by ones that set nothing. */
  lemma NameWithoutSpecIsWritten(x: Tree, s: Tree)
    requires Pair(WindowsOptionsType, x, s)
    requires FieldValue(x.fields[0]) != LeafValue(Text(None)) && FieldValue(x.fields[1]) == LeafValue(Text(None))
    ensures !Unwritten(WindowsOptionsType, x, s)
  {
    assert TypedTreeField(FieldKind(WindowsOptionsType, 0), x.fields[0]);
    assert TypedTreeField(FieldKind(WindowsOptionsType, 1), x.fields[1]);
    assert TypedTreeField(FieldKind(WindowsOptionsType, 1), s.fields[1]);
    assert !UnwrittenField(WindowsOptionsType, x.fields, s.fields, 0)
           || !UnwrittenField(WindowsOptionsType, x.fields, s.fields, 1);
  }

  // ---- what later merges make of an override ----

  /** Tree `s` shares cells with `x` only at the same place, and is the same tree there. */
  ghost predicate Aligned(x: Tree, s: Tree)
    decreases s
  {
    x.Absent? || s.Absent? ||
    if x.addr == s.addr then x == s
    else
      && |x.fields| == |s.fields| && x.addr !in Addrs(s) && s.addr !in Addrs(x)
      && (forall i, j | 0 <= i < |x.fields| && 0 <= j < |s.fields| && i != j ::
            FieldAddrs(x.fields[i]) !! FieldAddrs(s.fields[j]))
      && (forall i | 0 <= i < |s.fields| :: AlignedField(x.fields[i], s.fields[i]))
  }

  ghost predicate AlignedField(x: Field, s: Field)
    decreases s
  {
    match (x, s)
    case (NodeField(a), NodeField(b)) => Aligned(a, b)
    case (MapField(a, _), MapField(b, _)) => a.Some? && a == b ==> x == s
    case _ => true
  }

  /** What `s` becomes when `u` is merged into `x`: whatever the two share is written. */
  ghost function Fate(t: Type, x: Tree, s: Tree, u: Tree): Tree
    decreases s, 1
  {
    if x.Absent? || s.Absent? || u.Absent? then s
    else if x.addr == s.addr then MergeTrees(t, s, u)
    else if |x.fields| == |s.fields| == |u.fields| then
      Struct(s.addr, seq(|s.fields|, i requires 0 <= i < |s.fields| =>
                                       FateField(FieldKind(t, i), x.fields[i], s.fields[i], u.fields[i])))
    else s
  }

  ghost function FateField(kind: Kind, x: Field, s: Field, u: Field): Field
    decreases s, 0
  {
    match (x, s, u)
    case (NodeField(a), NodeField(b), NodeField(c)) => if kind.NodeKind? then NodeField(Fate(kind.node, a, b, c)) else s
    case (MapField(a, _), MapField(b, m), MapField(c, n)) =>
      if a.Some? && a == b && c.Some? && n != map[] then MapField(b, m + n) else s
    case _ => s
  }

  /** Three trees of one type of which the last has no cell in common with the others. */
  ghost predicate Tracked(t: Type, x: Tree, s: Tree, u: Tree)
  {
    && TypedTree(t, x) && TypedTree(t, s) && TypedTree(t, u) && Aligned(x, s)
    && Addrs(x) !! Addrs(u) && Addrs(s) !! Addrs(u)
  }

  /** ... and none of them is absent, and the first two are different structs. */
  ghost predicate Parallel(t: Type, x: Tree, s: Tree, u: Tree)
  {
    Tracked(t, x, s, u) && x.Struct? && s.Struct? && u.Struct? && x.addr != s.addr
  }

  lemma ParallelFields(t: Type, x: Tree, s: Tree, u: Tree, i: nat)
    requires Parallel(t, x, s, u) && i < |s.fields|
    ensures |x.fields| == |s.fields| == |u.fields| == Width(t)
    ensures TypedTreeField(FieldKind(t, i), x.fields[i]) && TypedTreeField(FieldKind(t, i), s.fields[i])
    ensures TypedTreeField(FieldKind(t, i), u.fields[i]) && AlignedField(x.fields[i], s.fields[i])
    ensures FieldAddrs(x.fields[i]) <= Addrs(x) && FieldAddrs(s.fields[i]) <= Addrs(s)
    ensures FieldAddrs(u.fields[i]) <= Addrs(u)
    ensures var f := Fate(t, x, s, u);
            && f.Struct? && f.addr == s.addr && |f.fields| == |s.fields|
            && f.fields[i] == FateField(FieldKind(t, i), x.fields[i], s.fields[i], u.fields[i])
  {
    hide FieldKind, Width, TypedTreeField;
  }

  lemma ChildTracked(t: Type, x: Tree, s: Tree, u: Tree, i: nat)
    requires Parallel(t, x, s, u) && i < |s.fields| && FieldKind(t, i).NodeKind?
    ensures |x.fields| == |s.fields| == |u.fields|
    ensures x.fields[i].NodeField? && s.fields[i].NodeField? && u.fields[i].NodeField?
    ensures Tracked(FieldKind(t, i).node, x.fields[i].tree, s.fields[i].tree, u.fields[i].tree)
  {
    hide FieldKind, Width, TypedTree;
    ParallelFields(t, x, s, u, i);
  }

  /** The fate of an override is of its type, starts where it did, and lives in its own cells
      and those of the tree merged last. */
  lemma {:induction false} FateKeepsPlace(t: Type, x: Tree, s: Tree, u: Tree)
    requires Tracked(t, x, s, u)
    ensures var f := Fate(t, x, s, u);
            TypedTree(t, f) && RefOf(f) == RefOf(s) && Addrs(f) <= Addrs(s) + Addrs(u)
    decreases s, 1
  {
    hide FieldKind, Width;
    if x.Absent? || s.Absent? || u.Absent? {
    } else if x.addr == s.addr {
      MergedValue(t, s, u);
      MergedAddrs(t, s, u);
    } else {
      ParallelKeepsPlace(t, x, s, u);
    }
  }

  lemma {:induction false} ParallelKeepsPlace(t: Type, x: Tree, s: Tree, u: Tree)
    requires Parallel(t, x, s, u)
    ensures var f := Fate(t, x, s, u);
            TypedTree(t, f) && RefOf(f) == RefOf(s) && Addrs(f) <= Addrs(s) + Addrs(u)
    decreases s, 0
  {
    hide FieldKind, Width, FateField, Aligned;
    var f := Fate(t, x, s, u);
    forall i: nat | i < |s.fields|
      ensures |f.fields| == |s.fields|
      ensures TypedTreeField(FieldKind(t, i), f.fields[i]) && FieldAddrs(f.fields[i]) <= Addrs(s) + Addrs(u)
    {
      FieldFateKeepsPlace(t, x, s, u, i);
      ParallelFields(t, x, s, u, i);
    }
    assert |s.fields| == Width(t) == |f.fields|;
  }

  lemma {:induction false} FieldFateKeepsPlace(t: Type, x: Tree, s: Tree, u: Tree, i: nat)
    requires Parallel(t, x, s, u) && i < |s.fields|
    ensures |x.fields| == |s.fields| == |u.fields|
    ensures var f := FateField(FieldKind(t, i), x.fields[i], s.fields[i], u.fields[i]);
            && TypedTreeField(FieldKind(t, i), f) && SlotOf(f) == SlotOf(s.fields[i])
            && FieldAddrs(f) <= FieldAddrs(s.fields[i]) + FieldAddrs(u.fields[i])
    decreases s.fields[i]
  {
    hide FieldKind, Width, TypedTree;
    ParallelFields(t, x, s, u, i);
    if FieldKind(t, i).NodeKind? {
      ChildTracked(t, x, s, u, i);
      FateKeepsPlace(FieldKind(t, i).node, x.fields[i].tree, s.fields[i].tree, u.fields[i].tree);
    }
  }

  /** Memory before and after `u` is merged into `x`, as far as it matters to `s`. */
  ghost predicate Merging(c: Cells, c': Cells, b: Boxes, t: Type, x: Tree, s: Tree, u: Tree)
  {
    && Stored(c, b, x) && Stored(c, b, s) && Stored(c', b, MergeTrees(t, x, u))
    && Agree(c, c', Addrs(s) - Written(t, x, u))
  }

  /** What the merge may write of field `i` of `s`. */
  lemma FieldFrame(t: Type, x: Tree, s: Tree, u: Tree, i: nat, a: nat)
    requires Parallel(t, x, s, u) && i < |s.fields| && a in FieldAddrs(s.fields[i])
    requires |x.fields| == |s.fields| == |u.fields| && a !in FieldWritten(t, x, u, i)
    ensures a !in Written(t, x, u)
  {
    hide FieldKind, Width, TypedTree, MergeTreeFields;
    var m := MergeTrees(t, x, u);
    assert a in Addrs(s);
    assert forall j | 0 <= j < |x.fields| && j != i :: FieldAddrs(x.fields[j]) !! FieldAddrs(s.fields[i]);
    PairFields(t, x, u, i);
    forall j: nat | j < |m.fields| && j != i ensures a !in FieldAddrs(m.fields[j]) {
      PairFields(t, x, u, j);
      MergedFieldAddrs(t, x, u, j);
      assert FieldAddrs(u.fields[j]) <= Addrs(u);
    }
  }

  lemma MapFate(c: Cells, c': Cells, b: Boxes, policy: Policy, kind: Kind, x: Field, s: Field, u: Field)
    requires x.MapField? && s.MapField? && u.MapField? && AlignedField(x, s) && FieldAddrs(s) !! FieldAddrs(u)
    requires var m := MergeLeafFields(policy, x, u);
             && StoredField(c, b, s) && StoredField(c', b, m)
             && Agree(c, c', FieldAddrs(s) - (FieldAddrs(x) * FieldAddrs(m)))
    ensures StoredField(c', b, FateField(kind, x, s, u))
  {}

  /** The merge, as far as it matters to field `i` of `s`. */
  lemma MergingField(c: Cells, c': Cells, b: Boxes, t: Type, x: Tree, s: Tree, u: Tree, i: nat)
    requires Parallel(t, x, s, u) && Merging(c, c', b, t, x, s, u) && i < |s.fields|
    ensures |x.fields| == |s.fields| == |u.fields| && Pair(t, x, u)
    ensures StoredField(c, b, x.fields[i]) && StoredField(c, b, s.fields[i])
    ensures StoredField(c', b, MergeTreeFields(t, x.fields, u.fields, i))
    ensures Agree(c, c', FieldAddrs(s.fields[i]) - FieldWritten(t, x, u, i))
  {
    hide FieldKind, Width, TypedTree, MergeTreeFields, StoredField, FieldAddrs, FieldWritten, Aligned;
    ParallelFields(t, x, s, u, i);
    PairFields(t, x, u, i);
    var m := MergeTrees(t, x, u);
    assert StoredField(c', b, m.fields[i]);
    forall a | a in FieldAddrs(s.fields[i]) && a !in FieldWritten(t, x, u, i) ensures a !in Written(t, x, u) {
      FieldFrame(t, x, s, u, i, a);
    }
  }

  lemma {:induction false} FieldFateStored(c: Cells, c': Cells, b: Boxes, t: Type, x: Tree, s: Tree, u: Tree, i: nat)
    requires Parallel(t, x, s, u) && Merging(c, c', b, t, x, s, u) && i < |s.fields|
    ensures |x.fields| == |s.fields| == |u.fields|
    ensures StoredField(c', b, FateField(FieldKind(t, i), x.fields[i], s.fields[i], u.fields[i]))
    decreases s.fields[i]
  {
    hide FieldKind, Width, TypedTree, MergeLeafFields;
    MergingField(c, c', b, t, x, s, u, i);
    ParallelFields(t, x, s, u, i);
    PairFields(t, x, u, i);
    if FieldKind(t, i).NodeKind? {
      ChildTracked(t, x, s, u, i);
      FateStored(c, c', b, FieldKind(t, i).node, x.fields[i].tree, s.fields[i].tree, u.fields[i].tree);
    } else {
      LeafFieldsAt(t, x, u, i);
      if s.fields[i].MapField? {
        FieldKindsSound(t, i);
        MapFate(c, c', b, FieldKind(t, i).policy, FieldKind(t, i), x.fields[i], s.fields[i], u.fields[i]);
      }
    }
  }

  /** After `u` has been merged into `x`, memory holds the fate of `s` where it held `s`. */
  lemma {:induction false} FateStored(c: Cells, c': Cells, b: Boxes, t: Type, x: Tree, s: Tree, u: Tree)
    requires Tracked(t, x, s, u) && Merging(c, c', b, t, x, s, u)
    ensures Stored(c', b, Fate(t, x, s, u))
    decreases s, 1
  {
    hide FieldKind, Width, TypedTree, MergeTreeFields;
    if s.Absent? {
    } else if x.Absent? {
      StoredElsewhere(c, c', b, b, s);
    } else if u.Absent? {
      SameTreeSameCells(c, c', b, x);
      StoredElsewhere(c, c', b, b, s);
    } else if x.addr == s.addr {
    } else {
      ParallelFateStored(c, c', b, t, x, s, u);
    }
  }

  lemma {:induction false} ParallelFateStored(c: Cells, c': Cells, b: Boxes, t: Type, x: Tree, s: Tree, u: Tree)
    requires Parallel(t, x, s, u) && Merging(c, c', b, t, x, s, u)
    ensures Stored(c', b, Fate(t, x, s, u))
    decreases s, 0
  {
    hide FieldKind, Width, TypedTree, FateField, MergeTrees, StoredField, SlotOf;
    var f := Fate(t, x, s, u);
    assert s.addr !in Written(t, x, u) && s.addr in Addrs(s);
    forall i: nat | i < |s.fields|
      ensures |f.fields| == |s.fields| && f.addr == s.addr
      ensures SlotOf(f.fields[i]) == SlotOf(s.fields[i]) && StoredField(c', b, f.fields[i])
    {
      ParallelFields(t, x, s, u, i);
      FieldFateKeepsPlace(t, x, s, u, i);
      FieldFateStored(c, c', b, t, x, s, u, i);
    }
    assert |f.fields| == |s.fields| && f.addr == s.addr;
  }

  // ---- what is shared stays in place ----

  lemma {:induction false} DisjointAligned(t: Type, x: Tree, s: Tree)
    requires TypedTree(t, x) && TypedTree(t, s) && Addrs(x) !! Addrs(s)
    ensures Aligned(x, s)
    decreases s
  {
    hide FieldKind, Width, TypedTree;
    if x.Absent? || s.Absent? {
    } else {
      SameWidth(t, x, s);
      assert x.addr in Addrs(x) && s.addr in Addrs(s);
      forall i: nat | i < |s.fields|
        ensures FieldAddrs(x.fields[i]) <= Addrs(x) && FieldAddrs(s.fields[i]) <= Addrs(s)
        ensures AlignedField(x.fields[i], s.fields[i])
      {
        DisjointAlignedField(t, x, s, i);
      }
    }
  }

  lemma SameWidth(t: Type, x: Tree, s: Tree)
    requires Pair(t, x, s)
    ensures |x.fields| == |s.fields| == Width(t)
  {}

  lemma {:induction false} DisjointAlignedField(t: Type, x: Tree, s: Tree, i: nat)
    requires Pair(t, x, s) && Addrs(x) !! Addrs(s) && i < |s.fields| == |x.fields|
    ensures FieldAddrs(x.fields[i]) <= Addrs(x) && FieldAddrs(s.fields[i]) <= Addrs(s)
    ensures AlignedField(x.fields[i], s.fields[i])
    decreases s.fields[i]
  {
    hide FieldKind, Width, TypedTree;
    PairFields(t, x, s, i);
    assert FieldAddrs(x.fields[i]) <= Addrs(x) && FieldAddrs(s.fields[i]) <= Addrs(s);
    if FieldKind(t, i).NodeKind? { DisjointAligned(FieldKind(t, i).node, x.fields[i].tree, s.fields[i].tree); }
  }

  /** After a merge the result shares with the override what was grafted, in place. */
  lemma {:induction false} GraftAligned(t: Type, x: Tree, u: Tree)
    requires TypedTree(t, x) && TypedTree(t, u) && Addrs(x) !! Addrs(u) && Unshared(u)
    ensures Aligned(MergeTrees(t, x, u), u)
    decreases u
  {
    hide FieldKind, Width, MergeTreeFields, MergeLeafFields;
    if x.Absent? || u.Absent? {
    } else {
      var m := MergeTrees(t, x, u);
      assert x.addr in Addrs(x) && u.addr in Addrs(u);
      forall i: nat | i < |u.fields|
        ensures |m.fields| == |x.fields| == |u.fields| && m.addr == x.addr
        ensures FieldAddrs(m.fields[i]) <= FieldAddrs(x.fields[i]) + FieldAddrs(u.fields[i])
        ensures FieldAddrs(x.fields[i]) <= Addrs(x) && FieldAddrs(u.fields[i]) <= Addrs(u)
        ensures AlignedField(m.fields[i], u.fields[i])
      {
        PairFields(t, x, u, i);
        MergedFieldAddrs(t, x, u, i);
        GraftAlignedField(t, x, u, i);
      }
      assert |m.fields| == |u.fields| && m.addr == x.addr;
      forall i, j | 0 <= i < |m.fields| && 0 <= j < |u.fields| && i != j
        ensures FieldAddrs(m.fields[i]) !! FieldAddrs(u.fields[j])
      {
        assert FieldAddrs(u.fields[i]) !! FieldAddrs(u.fields[j]);
      }
    }
  }

  lemma {:induction false} GraftAlignedField(t: Type, x: Tree, u: Tree, i: nat)
    requires Pair(t, x, u) && Addrs(x) !! Addrs(u) && Unshared(u) && i < |x.fields| == |u.fields|
    ensures AlignedField(MergeTreeFields(t, x.fields, u.fields, i), u.fields[i])
    decreases u.fields[i]
  {
    hide FieldKind, Width, TypedTree;
    PairFields(t, x, u, i);
    assert FieldAddrs(x.fields[i]) <= Addrs(x) && FieldAddrs(u.fields[i]) <= Addrs(u) && UnsharedField(u.fields[i]);
    if FieldKind(t, i).NodeKind? {
      GraftAligned(FieldKind(t, i).node, x.fields[i].tree, u.fields[i].tree);
    } else {
      LeafFieldsAt(t, x, u, i);
    }
  }

  /** Sharing stays in place through the next merge. */
  lemma {:induction false} FateAligned(t: Type, x: Tree, s: Tree, u: Tree)
    requires Tracked(t, x, s, u) && Unshared(u)
    ensures Aligned(MergeTrees(t, x, u), Fate(t, x, s, u))
    decreases s, 1
  {
    hide FieldKind, Width, TypedTree, MergeTreeFields;
    if s.Absent? || u.Absent? {
    } else if x.Absent? {
      DisjointAligned(t, u, s);
    } else if x.addr == s.addr {
    } else {
      ParallelFateAligned(t, x, s, u);
    }
  }

  lemma ParallelCross(t: Type, x: Tree, s: Tree, u: Tree, i: nat, j: nat)
    requires Parallel(t, x, s, u) && Unshared(u) && |s.fields| == |x.fields| == |u.fields|
    requires i < |s.fields| && j < |s.fields| && i != j
    ensures FieldAddrs(MergeTreeFields(t, x.fields, u.fields, i)) !!
            FieldAddrs(FateField(FieldKind(t, j), x.fields[j], s.fields[j], u.fields[j]))
  {
    hide FieldKind, Width, TypedTree, MergeTreeFields, FateField;
    ParallelFields(t, x, s, u, i);
    ParallelFields(t, x, s, u, j);
    MergedFieldAddrs(t, x, u, i);
    FieldFateKeepsPlace(t, x, s, u, j);
    assert FieldAddrs(x.fields[i]) !! FieldAddrs(s.fields[j]);
    assert FieldAddrs(u.fields[i]) !! FieldAddrs(u.fields[j]);
  }

  lemma {:induction false} ParallelFateAligned(t: Type, x: Tree, s: Tree, u: Tree)
    requires Parallel(t, x, s, u) && Unshared(u)
    ensures Aligned(MergeTrees(t, x, u), Fate(t, x, s, u))
    decreases s, 0
  {
    hide FieldKind, Width, TypedTree, MergeTreeFields, FateField, FieldAddrs, Unshared, AlignedField;
    var m, f := MergeTrees(t, x, u), Fate(t, x, s, u);
    FateKeepsPlace(t, x, s, u);
    MergedAddrs(t, x, u);
    SameWidth(t, x, s);
    SameWidth(t, x, u);
    assert x.addr in Addrs(x) && s.addr in Addrs(s);
    forall i, j | 0 <= i < |m.fields| && 0 <= j < |f.fields| && i != j
      ensures FieldAddrs(m.fields[i]) !! FieldAddrs(f.fields[j])
    {
      ParallelCross(t, x, s, u, i, j);
    }
    forall i: nat | i < |f.fields| ensures AlignedField(m.fields[i], f.fields[i]) {
      FieldFateAligned(t, x, s, u, i);
    }
  }

  lemma {:induction false} FieldFateAligned(t: Type, x: Tree, s: Tree, u: Tree, i: nat)
    requires Parallel(t, x, s, u) && Unshared(u) && i < |s.fields| == |x.fields| == |u.fields|
    ensures AlignedField(MergeTreeFields(t, x.fields, u.fields, i),
                         FateField(FieldKind(t, i), x.fields[i], s.fields[i], u.fields[i]))
    decreases s.fields[i]
  {
    hide FieldKind, Width, TypedTree, Aligned;
    ParallelFields(t, x, s, u, i);
    PairFields(t, x, u, i);
    assert UnsharedField(u.fields[i]);
    if FieldKind(t, i).NodeKind? {
      ChildTracked(t, x, s, u, i);
      FateAligned(FieldKind(t, i).node, x.fields[i].tree, s.fields[i].tree, u.fields[i].tree);
    } else {
      LeafFieldsAt(t, x, u, i);
    }
  }

  // ---- when an override survives ----

  /** Merging `u` into `x` leaves `s` as it is: nodes the two share have nothing to be
      written, and maps the two share have the entries already. */
  ghost predicate Spared(t: Type, x: Tree, s: Tree, u: Tree)
    decreases s
  {
    x.Absent? || s.Absent? || u.Absent? ||
    if x.addr == s.addr then Unwritten(t, s, u)
    else forall i: nat | i < |s.fields| && i < |x.fields| && i < |u.fields| ::
           SparedField(FieldKind(t, i), x.fields[i], s.fields[i], u.fields[i])
  }

  ghost predicate SparedField(kind: Kind, x: Field, s: Field, u: Field)
    decreases s
  {
    match (x, s, u)
    case (NodeField(a), NodeField(b), NodeField(c)) => kind.NodeKind? ==> Spared(kind.node, a, b, c)
    case (MapField(a, _), MapField(b, m), MapField(c, n)) => b.None? || c.None? || a != b || Covers(m, n)
    case _ => true
  }

  lemma {:induction false} SparedExactly(t: Type, x: Tree, s: Tree, u: Tree)
    requires Tracked(t, x, s, u)
    ensures Fate(t, x, s, u) == s <==> Spared(t, x, s, u)
    decreases s
  {
    hide FieldKind, Width, TypedTree, FateField, SparedField, Aligned, Unwritten;
    if x.Absent? || s.Absent? || u.Absent? {
    } else if x.addr == s.addr {
      UnwrittenExactly(t, s, u);
    } else {
      var f := Fate(t, x, s, u);
      SameWidth(t, x, s);
      SameWidth(t, x, u);
      forall i: nat | i < |s.fields|
        ensures |f.fields| == |s.fields|
        ensures f.fields[i] == s.fields[i] <==>
                SparedField(FieldKind(t, i), x.fields[i], s.fields[i], u.fields[i])
      {
        ParallelFields(t, x, s, u, i);
        SparedFieldExactly(t, x, s, u, i);
      }
      if Spared(t, x, s, u) { assert f.fields == s.fields; }
    }
  }

  lemma {:induction false} SparedFieldExactly(t: Type, x: Tree, s: Tree, u: Tree, i: nat)
    requires Parallel(t, x, s, u) && i < |s.fields| == |x.fields| == |u.fields|
    ensures FateField(FieldKind(t, i), x.fields[i], s.fields[i], u.fields[i]) == s.fields[i] <==>
            SparedField(FieldKind(t, i), x.fields[i], s.fields[i], u.fields[i])
    decreases s.fields[i]
  {
    hide FieldKind, Width, TypedTree, Aligned;
    ParallelFields(t, x, s, u, i);
    if FieldKind(t, i).NodeKind? {
      ChildTracked(t, x, s, u, i);
      SparedExactly(FieldKind(t, i).node, x.fields[i].tree, s.fields[i].tree, u.fields[i].tree);
    } else if s.fields[i].MapField? && u.fields[i].MapField? {
      CoversExactly(s.fields[i].entries, u.fields[i].entries);
    }
  }

  /** Override `s1` survives when `s1` and then `s2` are merged into `d`.  A grafted node
      survives if the second merge finds nothing to write; where default and override both
      have the node, each grafted map and node below has to. */
  ghost predicate Survives(t: Type, d: Tree, s1: Tree, s2: Tree)
    decreases s1
  {
    s1.Absent? || s2.Absent? ||
    if d.Absent? then Unwritten(t, s1, s2)
    else forall i: nat | i < |s1.fields| && i < |d.fields| && i < |s2.fields| ::
           SurvivesField(FieldKind(t, i), d.fields[i], s1.fields[i], s2.fields[i])
  }

  /** A map is grafted when the default has none or when it is empty; it is then written
      unless it has the entries of the second override already. */
  ghost predicate SurvivesField(kind: Kind, d: Field, s1: Field, s2: Field)
    decreases s1
  {
    match (d, s1, s2)
    case (NodeField(x), NodeField(y), NodeField(z)) => kind.NodeKind? ==> Survives(kind.node, x, y, z)
    case (MapField(x, _), MapField(y, m), MapField(z, n)) =>
      y.None? || z.None? || (x.Some? && m != map[]) || Covers(m, n)
    case _ => true
  }

  /** Three trees of one type in separate cells; the first override is itself unshared. */
  ghost predicate Apart(t: Type, d: Tree, s1: Tree, s2: Tree)
  {
    && TypedTree(t, d) && TypedTree(t, s1) && TypedTree(t, s2) && Unshared(d) && Unshared(s1)
    && Addrs(d) !! Addrs(s1) && Addrs(d) !! Addrs(s2) && Addrs(s1) !! Addrs(s2)
  }

  lemma ApartTracked(t: Type, d: Tree, s1: Tree, s2: Tree)
    requires Apart(t, d, s1, s2)
    ensures Tracked(t, MergeTrees(t, d, s1), s1, s2)
  {
    hide FieldKind, Width, TypedTree, Aligned, MergeTrees, Addrs, Unshared;
    MergedValue(t, d, s1);
    MergedAddrs(t, d, s1);
    GraftAligned(t, d, s1);
  }

  lemma {:induction false} SurvivesIsSpared(t: Type, d: Tree, s1: Tree, s2: Tree)
    requires TypedTree(t, d) && TypedTree(t, s1) && TypedTree(t, s2) && Addrs(d) !! Addrs(s1)
    ensures Survives(t, d, s1, s2) <==> Spared(t, MergeTrees(t, d, s1), s1, s2)
    decreases s1
  {
    hide FieldKind, Width, TypedTree, MergeTreeFields, Unwritten, SurvivesField, SparedField, FieldAddrs;
    if d.Absent? || s1.Absent? || s2.Absent? {
    } else {
      var m := MergeTrees(t, d, s1);
      SameWidth(t, d, s1);
      SameWidth(t, d, s2);
      assert d.addr in Addrs(d) && s1.addr in Addrs(s1);
      forall i: nat | i < |s1.fields|
        ensures |m.fields| == |s1.fields| && m.addr == d.addr
        ensures SurvivesField(FieldKind(t, i), d.fields[i], s1.fields[i], s2.fields[i]) <==>
                SparedField(FieldKind(t, i), m.fields[i], s1.fields[i], s2.fields[i])
      {
        PairFields(t, d, s1, i);
        SurvivesFieldIsSpared(t, d, s1, s2, i);
      }
    }
  }

  lemma {:induction false} SurvivesFieldIsSpared(t: Type, d: Tree, s1: Tree, s2: Tree, i: nat)
    requires Pair(t, d, s1) && Pair(t, d, s2) && Addrs(d) !! Addrs(s1)
    requires i < |d.fields| == |s1.fields| == |s2.fields|
    ensures var m := MergeTreeFields(t, d.fields, s1.fields, i);
            SurvivesField(FieldKind(t, i), d.fields[i], s1.fields[i], s2.fields[i]) <==>
            SparedField(FieldKind(t, i), m, s1.fields[i], s2.fields[i])
    decreases s1.fields[i]
  {
    hide FieldKind, Width, TypedTree;
    PairFields(t, d, s1, i);
    PairFields(t, d, s2, i);
    assert FieldAddrs(d.fields[i]) <= Addrs(d) && FieldAddrs(s1.fields[i]) <= Addrs(s1);
    if FieldKind(t, i).NodeKind? {
      SurvivesIsSpared(FieldKind(t, i).node, d.fields[i].tree, s1.fields[i].tree, s2.fields[i].tree);
    } else {
      LeafFieldsAt(t, d, s1, i);
    }
  }

  /** After merging `s1` and then `s2` into `d` in place, memory still holds `s1` if and only
      if `Survives` says so. */
  lemma SurvivesExactly(c: Cells, c': Cells, b: Boxes, t: Type, d: Tree, s1: Tree, s2: Tree)
    requires Apart(t, d, s1, s2) && Merging(c, c', b, t, MergeTrees(t, d, s1), s1, s2)
    ensures Stored(c', b, s1) <==> Survives(t, d, s1, s2)
  {
    hide FieldKind, Width, TypedTree, MergeTrees, Addrs, Unshared, Stored, Fate, Survives, Spared, Aligned;
    var m := MergeTrees(t, d, s1);
    ApartTracked(t, d, s1, s2);
    FateStored(c, c', b, t, m, s1, s2);
    FateKeepsPlace(t, m, s1, s2);
    SparedExactly(t, m, s1, s2);
    SurvivesIsSpared(t, d, s1, s2);
    if Stored(c', b, s1) { TreeUnique(c', b, t, s1, Fate(t, m, s1, s2)); }
  }
}
