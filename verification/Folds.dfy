/** Folding a list of overrides onto a default in place: what the default becomes, and what
    becomes of every override on the way. */
module Folds {
  import opened Options
  import opened GatewayParams
  import opened Schemas
  import opened Values
  import opened Encoding
  import opened MergeView
  import opened MergeAlgebra
  import opened HeapMerge
  import opened HeapReading
  import opened HeapRefinement
  import opened Grafts

  // ---- whole folds ----

  /** The tree in memory after the first `i` overrides have been merged. */
  ghost function TreeAfter(t: Type, d: Tree, ss: seq<Tree>, i: nat): Tree
    requires i <= |ss|
  {
    if i == 0 then d else MergeTrees(t, TreeAfter(t, d, ss, i - 1), ss[i - 1])
  }

  /** What override `j` has become by then. */
  ghost function FateAfter(t: Type, d: Tree, ss: seq<Tree>, j: nat, i: nat): Tree
    requires j < i <= |ss|
  {
    if i == j + 1 then ss[j]
    else Fate(t, TreeAfter(t, d, ss, i - 1), FateAfter(t, d, ss, j, i - 1), ss[i - 1])
  }

  /** All cells of the default and of the first `i` overrides. */
  ghost function CellsUpTo(d: Tree, ss: seq<Tree>, i: nat): set<nat>
    requires i <= |ss|
  {
    if i == 0 then Addrs(d) else CellsUpTo(d, ss, i - 1) + Addrs(ss[i - 1])
  }

  /** A default and a list of overrides that can be folded onto it in place. */
  ghost predicate Foldable(t: Type, d: Tree, ss: seq<Tree>)
  {
    && TypedTree(t, d) && Unshared(d)
    && (forall i | 0 <= i < |ss| :: TypedTree(t, ss[i]) && Unshared(ss[i]) && Addrs(d) !! Addrs(ss[i]))
    && (forall i, j | 0 <= i < j < |ss| :: Addrs(ss[i]) !! Addrs(ss[j]))
  }

  lemma {:induction false} CellsApart(t: Type, d: Tree, ss: seq<Tree>, i: nat, k: nat)
    requires Foldable(t, d, ss) && i <= k < |ss|
    ensures CellsUpTo(d, ss, i) !! Addrs(ss[k])
    decreases i
  {
    hide TypedTree, Unshared, Addrs;
    if i == 0 {
    } else {
      CellsApart(t, d, ss, i - 1, k);
      assert Addrs(ss[i - 1]) !! Addrs(ss[k]);
    }
  }

  lemma {:induction false} TreeAfterFits(t: Type, d: Tree, ss: seq<Tree>, i: nat)
    requires Foldable(t, d, ss) && i <= |ss|
    ensures TypedTree(t, TreeAfter(t, d, ss, i)) && Unshared(TreeAfter(t, d, ss, i))
    ensures Addrs(TreeAfter(t, d, ss, i)) <= CellsUpTo(d, ss, i)
    decreases i
  {
    hide TypedTree, Unshared, Addrs, MergeTrees;
    if i == 0 {
    } else {
      TreeAfterFits(t, d, ss, i - 1);
      CellsApart(t, d, ss, i - 1, i - 1);
      MergedValue(t, TreeAfter(t, d, ss, i - 1), ss[i - 1]);
      MergedAddrs(t, TreeAfter(t, d, ss, i - 1), ss[i - 1]);
      MergedUnshared(t, TreeAfter(t, d, ss, i - 1), ss[i - 1]);
    }
  }

  lemma {:induction false} CellsGrow(d: Tree, ss: seq<Tree>, j: nat, i: nat)
    requires j < i <= |ss|
    ensures Addrs(ss[j]) <= CellsUpTo(d, ss, i)
    decreases i
  {
    hide Addrs;
    if i == j + 1 {
    } else {
      CellsGrow(d, ss, j, i - 1);
    }
  }

  /** Through any fold an override shares with the default's tree in place only. */
  lemma {:induction false} FateAfterFits(t: Type, d: Tree, ss: seq<Tree>, j: nat, i: nat)
    requires Foldable(t, d, ss) && j < i <= |ss|
    ensures var f := FateAfter(t, d, ss, j, i);
            && TypedTree(t, f) && RefOf(f) == RefOf(ss[j]) && Addrs(f) <= CellsUpTo(d, ss, i)
            && Aligned(TreeAfter(t, d, ss, i), f)
    decreases i
  {
    hide TypedTree, Unshared, Addrs, MergeTrees, Fate, Aligned;
    TreeAfterFits(t, d, ss, i - 1);
    CellsApart(t, d, ss, i - 1, i - 1);
    CellsGrow(d, ss, j, i);
    var x, u := TreeAfter(t, d, ss, i - 1), ss[i - 1];
    if i == j + 1 {
      GraftAligned(t, x, u);
    } else {
      FateAfterFits(t, d, ss, j, i - 1);
      var s := FateAfter(t, d, ss, j, i - 1);
      FateKeepsPlace(t, x, s, u);
      FateAligned(t, x, s, u);
    }
  }

  /** One more merge of the fold: what memory held as the fate of override `j`, it holds as
      its fate after the merge. */
  lemma FateAfterStored(c: Cells, c': Cells, b: Boxes, t: Type, d: Tree, ss: seq<Tree>, j: nat, i: nat)
    requires Foldable(t, d, ss) && j < i < |ss| && Stored(c, b, FateAfter(t, d, ss, j, i))
    requires Stored(c, b, TreeAfter(t, d, ss, i)) && Stored(c', b, TreeAfter(t, d, ss, i + 1))
    requires Confined(c, c', Written(t, TreeAfter(t, d, ss, i), ss[i]))
    ensures Stored(c', b, FateAfter(t, d, ss, j, i + 1))
  {
    hide TypedTree, Unshared, Addrs, MergeTrees, Fate, Aligned, Stored;
    var x, s, u := TreeAfter(t, d, ss, i), FateAfter(t, d, ss, j, i), ss[i];
    TreeAfterFits(t, d, ss, i);
    FateAfterFits(t, d, ss, j, i);
    CellsApart(t, d, ss, i, i);
    FateStored(c, c', b, t, x, s, u);
  }

  /** After a fold, memory holds an override exactly if its fate is to be what it was. */
  lemma FateDecides(c: Cells, b: Boxes, t: Type, d: Tree, ss: seq<Tree>, j: nat, i: nat)
    requires Foldable(t, d, ss) && j < i <= |ss| && Stored(c, b, FateAfter(t, d, ss, j, i))
    ensures Stored(c, b, ss[j]) <==> FateAfter(t, d, ss, j, i) == ss[j]
  {
    hide TypedTree, Unshared, Addrs, MergeTrees, Fate, Aligned, Stored;
    FateAfterFits(t, d, ss, j, i);
    if Stored(c, b, ss[j]) { TreeUnique(c, b, t, ss[j], FateAfter(t, d, ss, j, i)); }
  }

  /** An override survives one more merge exactly if what it shares is spared. */
  lemma FateStep(t: Type, d: Tree, ss: seq<Tree>, j: nat, i: nat)
    requires Foldable(t, d, ss) && j < i < |ss| && FateAfter(t, d, ss, j, i) == ss[j]
    ensures FateAfter(t, d, ss, j, i + 1) == ss[j] <==> Spared(t, TreeAfter(t, d, ss, i), ss[j], ss[i])
  {
    hide TypedTree, Unshared, Addrs, MergeTrees, Fate, Aligned, Spared;
    TreeAfterFits(t, d, ss, i);
    FateAfterFits(t, d, ss, j, i);
    CellsApart(t, d, ss, i, i);
    SparedExactly(t, TreeAfter(t, d, ss, i), ss[j], ss[i]);
  }

  // ---- running the merges ----

  /** Folding overrides onto a default in place, one after the other.  The result represents
      the fold of the configurations.  Memory then holds the fate of every override, which is
      the override itself or has been written by later merges; nothing outside the default
      and the overrides has changed. */
  method MergeAllInPlace(m: Memory, dst: Ref, srcs: seq<Ref>,
                         ghost d: Tree, ghost ss: seq<Tree>, ghost dk: Kube, ghost sks: seq<Kube>)
    returns (r: Ref, ghost tree: Tree)
    requires |srcs| == |ss| == |sks| && Foldable(ROOT, d, ss)
    requires dst == RefOf(d) && Stored(m.cells, m.boxes, d) && Represents(d, dk)
    requires forall i | 0 <= i < |ss| ::
               srcs[i] == RefOf(ss[i]) && Stored(m.cells, m.boxes, ss[i]) && Represents(ss[i], sks[i])
    modifies m`cells
    ensures tree == TreeAfter(ROOT, d, ss, |ss|) && Unshared(tree)
    ensures r == RefOf(tree) && Stored(m.cells, m.boxes, tree) && Represents(tree, MergeAll(dk, sks))
    ensures Load(m.cells, m.boxes, r, ROOT) == EncodeKubernetesProxyConfig(MergeAll(dk, sks))
    ensures forall j | 0 <= j < |ss| ::
              && Stored(m.cells, m.boxes, FateAfter(ROOT, d, ss, j, |ss|))
              && (Stored(m.cells, m.boxes, ss[j]) <==> FateAfter(ROOT, d, ss, j, |ss|) == ss[j])
    ensures Confined(old(m.cells), m.cells, CellsUpTo(d, ss, |ss|))
  {
    hide Represents, Unshared, Stored, TypedTree, MergeTrees, Addrs, Merge, Fate, Aligned, Load,
         EncodeKubernetesProxyConfig;
    r, tree := dst, d;
    assert sks[..0] == [];
    for i := 0 to |srcs|
      invariant tree == TreeAfter(ROOT, d, ss, i) && r == RefOf(tree)
      invariant Stored(m.cells, m.boxes, tree) && Represents(tree, MergeAll(dk, sks[..i]))
      invariant forall k | i <= k < |ss| :: Stored(m.cells, m.boxes, ss[k])
      invariant forall j: nat | j < i :: Stored(m.cells, m.boxes, FateAfter(ROOT, d, ss, j, i))
      invariant Confined(old(m.cells), m.cells, CellsUpTo(d, ss, i))
    {
      ghost var before, s, k := m.cells, ss[i], MergeAll(dk, sks[..i]);
      TreeAfterFits(ROOT, d, ss, i);
      CellsApart(ROOT, d, ss, i, i);
      r := MergeInPlace(m, r, srcs[i], tree, s, k, sks[i]);
      forall k | i < k < |ss| ensures Stored(m.cells, m.boxes, ss[k]) {
        CellsApart(ROOT, d, ss, i, k);
        StoredElsewhere(before, m.cells, m.boxes, m.boxes, ss[k]);
      }
      ghost var next := i + 1;
      forall j: nat | j < next ensures Stored(m.cells, m.boxes, FateAfter(ROOT, d, ss, j, next)) {
        if j < i { FateAfterStored(before, m.cells, m.boxes, ROOT, d, ss, j, i); }
      }
      ConfinedTwice(old(m.cells), before, m.cells, CellsUpTo(d, ss, i + 1), Written(ROOT, tree, s));
      tree := MergeTrees(ROOT, tree, s);
      assert sks[..i + 1][..i] == sks[..i] && MergeAll(dk, sks[..i + 1]) == Merge(k, sks[i]);
    }
    assert sks[..|srcs|] == sks;
    TreeAfterFits(ROOT, d, ss, |ss|);
    RepresentedReads(m.cells, m.boxes, tree, MergeAll(dk, sks));
    forall j: nat | j < |ss|
      ensures Stored(m.cells, m.boxes, ss[j]) <==> FateAfter(ROOT, d, ss, j, |ss|) == ss[j]
    {
      FateDecides(m.cells, m.boxes, ROOT, d, ss, j, |ss|);
    }
  }

  /** Two overrides merged in place, one after the other.  The result represents both merges;
      the second override is intact, the first exactly if it survives. */
  method MergeTwoInPlace(m: Memory, dst: Ref, src1: Ref, src2: Ref, ghost d: Tree, ghost s1: Tree, ghost s2: Tree,
                         ghost dk: Kube, ghost k1: Kube, ghost k2: Kube)
    returns (r: Ref, ghost tree: Tree)
    requires dst == RefOf(d) && src1 == RefOf(s1) && src2 == RefOf(s2) && Apart(ROOT, d, s1, s2)
    requires Stored(m.cells, m.boxes, d) && Stored(m.cells, m.boxes, s1) && Stored(m.cells, m.boxes, s2)
    requires Represents(d, dk) && Represents(s1, k1) && Represents(s2, k2)
    modifies m`cells
    ensures r == RefOf(tree) && Stored(m.cells, m.boxes, tree) && Represents(tree, Merge(Merge(dk, k1), k2))
    ensures Stored(m.cells, m.boxes, s2)
    ensures Stored(m.cells, m.boxes, s1) <==> Survives(ROOT, d, s1, s2)
  {
    hide Represents, Stored, TypedTree, MergeTrees, Addrs, Unshared, Survives;
    r := MergeInPlace(m, dst, src1, d, s1, dk, k1);
    ghost var once, first := MergeTrees(ROOT, d, s1), m.cells;
    MergedAddrs(ROOT, d, s1);
    MergedValue(ROOT, d, s1);
    StoredElsewhere(old(m.cells), m.cells, m.boxes, m.boxes, s2);
    r := MergeInPlace(m, r, src2, once, s2, Merge(dk, k1), k2);
    tree := MergeTrees(ROOT, once, s2);
    SurvivesExactly(first, m.cells, m.boxes, ROOT, d, s1, s2);
  }

  // ---- overrides that do not survive ----

  /** A service account whose labels are in a map at the address after its own. */
  function Account(addr: nat, labels: StringMap): Tree
  {
    Struct(addr, [MapField(Some(addr + 1), labels), MapField(None, map[])])
  }

  lemma AccountTyped(addr: nat, labels: StringMap)
    ensures TypedTree(ServiceAccountType, Account(addr, labels)) && Unshared(Account(addr, labels))
    ensures Addrs(Account(addr, labels)) <= {addr, addr + 1}
    ensures ValueOf(Account(addr, labels)) ==
            Node([LeafValue(Labels(Some(labels))), LeafValue(Labels(None))])
  {}

  /** A configuration with labels for the service account and nothing else. */
  function WithLabels(labels: StringMap): Kube
  {
    Some(NO_KUBERNETES_PROXY_CONFIG.(serviceAccount := Some(ServiceAccount(Some(labels), None))))
  }

  /** Its tree: the service account is field 5, and field 9 is a nil pointer. */
  function LabelsTree(addr: nat, labels: StringMap): Tree
  {
    Struct(addr, seq(10, i requires 0 <= i < 10 => LabelsTreeField(addr, labels, i)))
  }

  function LabelsTreeField(addr: nat, labels: StringMap, i: nat): Field
  {
    if i == 5 then NodeField(Account(addr + 1, labels))
    else if i == 9 then PointerField(None, Flag(None))
    else NodeField(Absent)
  }

  lemma LabelsTreeTyped(addr: nat, labels: StringMap)
    ensures TypedTree(ROOT, LabelsTree(addr, labels))
  {
    AccountTyped(addr + 1, labels);
    var t := LabelsTree(addr, labels);
    forall i: nat | i < 10 ensures TypedTreeField(FieldKind(ROOT, i), t.fields[i]) {
      assert t.fields[i] == LabelsTreeField(addr, labels, i);
    }
  }

  lemma LabelsTreeRepresents(addr: nat, labels: StringMap)
    ensures Represents(LabelsTree(addr, labels), WithLabels(labels))
  {
    hide TypedTree;
    LabelsTreeTyped(addr, labels);
    AccountTyped(addr + 1, labels);
    var t, v := LabelsTree(addr, labels), EncodeKubernetesProxyConfig(WithLabels(labels));
    forall i: nat | i < 10 ensures FieldValue(t.fields[i]) == v.fields[i] {
      assert t.fields[i] == LabelsTreeField(addr, labels, i);
      assert v.fields[i] == KubernetesProxyConfigField(WithLabels(labels).value, i);
    }
    assert ValueOf(t).fields == v.fields;
  }

  lemma LabelsTreeCells(addr: nat, labels: StringMap)
    ensures Unshared(LabelsTree(addr, labels))
    ensures Addrs(LabelsTree(addr, labels)) <= {addr, addr + 1, addr + 2}
  {
    AccountTyped(addr + 1, labels);
    var t := LabelsTree(addr, labels);
    forall i | 0 <= i < 10
      ensures FieldAddrs(t.fields[i]) <= if i == 5 then {addr + 1, addr + 2} else {}
      ensures UnsharedField(t.fields[i])
    {
      assert t.fields[i] == LabelsTreeField(addr, labels, i);
    }
  }

  /** An empty map of the first override replaces the default's and then takes the entries
      of the second, so memory no longer holds the first override. */
  lemma EmptyMapDoesNotSurvive(labels: StringMap)
    requires labels != map[]
    ensures var d, s1, s2 := LabelsTree(0, labels), LabelsTree(3, map[]), LabelsTree(6, labels);
            && Represents(d, WithLabels(labels)) && Represents(s1, WithLabels(map[]))
            && Represents(s2, WithLabels(labels))
            && Apart(ROOT, d, s1, s2) && !Survives(ROOT, d, s1, s2)
  {
    hide Represents, TypedTree, Unshared, Addrs, Account;
    var d, s1, s2 := LabelsTree(0, labels), LabelsTree(3, map[]), LabelsTree(6, labels);
    LabelsTreeRepresents(0, labels);
    LabelsTreeRepresents(3, map[]);
    LabelsTreeRepresents(6, labels);
    LabelsTreeTyped(0, labels);
    LabelsTreeTyped(3, map[]);
    LabelsTreeTyped(6, labels);
    LabelsTreeCells(0, labels);
    LabelsTreeCells(3, map[]);
    LabelsTreeCells(6, labels);
    assert d.fields[5] == NodeField(Account(1, labels)) && s1.fields[5] == NodeField(Account(4, map[]));
    assert s2.fields[5] == NodeField(Account(7, labels));
    EmptyAccountDoesNotSurvive(labels);
    assert !SurvivesField(FieldKind(ROOT, 5), d.fields[5], s1.fields[5], s2.fields[5]);
  }

  lemma EmptyAccountDoesNotSurvive(labels: StringMap)
    requires labels != map[]
    ensures !Survives(ServiceAccountType, Account(1, labels), Account(4, map[]), Account(7, labels))
  {
    var d, s1, s2 := Account(1, labels), Account(4, map[]), Account(7, labels);
    var k :| k in labels;
    assert !SurvivesField(FieldKind(ServiceAccountType, 0), d.fields[0], s1.fields[0], s2.fields[0]);
  }

  /** What is written need not stay written: a third override can bring the entries of the
      first back, so the fate of an override is decided by the whole fold. */
  lemma WrittenAndRestored(k: string, v: string, w: string)
    requires v != w
    ensures var ss := Accounts(k, v, w);
            && Foldable(ServiceAccountType, Absent, ss)
            && FateAfter(ServiceAccountType, Absent, ss, 0, 2) != ss[0]
            && FateAfter(ServiceAccountType, Absent, ss, 0, 3) == ss[0]
  {
    hide FieldKind, FieldAddrs, MergeTrees;
    var t, ss := ServiceAccountType, Accounts(k, v, w);
    AccountTyped(0, map[k := v]);
    AccountTyped(2, map[k := w]);
    AccountTyped(4, map[k := v]);
    AccountsFates(k, v, w);
    assert map[k := v][k] != map[k := w][k];
  }

  function Accounts(k: string, v: string, w: string): seq<Tree>
  {
    [Account(0, map[k := v]), Account(2, map[k := w]), Account(4, map[k := v])]
  }

  lemma AccountsFates(k: string, v: string, w: string)
    ensures FateAfter(ServiceAccountType, Absent, Accounts(k, v, w), 0, 2) == Account(0, map[k := w])
    ensures FateAfter(ServiceAccountType, Absent, Accounts(k, v, w), 0, 3) == Account(0, map[k := v])
  {
    hide MergeTreeFields, FateField;
    var t, ss := ServiceAccountType, Accounts(k, v, w);
    assert k in map[k := v] && k in map[k := w];
    assert map[k := v] + map[k := w] == map[k := w] && map[k := w] + map[k := v] == map[k := v];
    MergeAccounts(0, map[k := v], 2, map[k := w]);
    MergeAccounts(0, map[k := w], 4, map[k := v]);
    assert TreeAfter(t, Absent, ss, 0) == Absent && TreeAfter(t, Absent, ss, 1) == ss[0];
    assert FateAfter(t, Absent, ss, 0, 1) == ss[0];
  }

  lemma MergeAccounts(a: nat, m: StringMap, b: nat, n: StringMap)
    requires n != map[]
    ensures MergeTrees(ServiceAccountType, Account(a, m), Account(b, n)) == Account(a, m + n)
  {
    assert MergeTrees(ServiceAccountType, Account(a, m), Account(b, n)).fields == Account(a, m + n).fields;
  }
}
