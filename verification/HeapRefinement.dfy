/** What a tree in memory means: the configuration it represents, and that merging and
    copying in memory merges and copies configurations. */
module HeapRefinement {
  import opened Options
  import opened GatewayParams
  import opened Schemas
  import opened Values
  import opened Encoding
  import opened MergeView
  import opened HeapMerge
  import opened HeapReading
  import opened HeapCopies

  // ---- representing a configuration ----

  /** Tree `t` is a well-typed tree that holds configuration `k`. */
  ghost predicate Represents(t: Tree, k: Kube)
  {
    TypedTree(ROOT, t) && ValueOf(t) == EncodeKubernetesProxyConfig(k)
  }

  /** A tree represents at most one configuration. */
  lemma RepresentsOne(t: Tree, k: Kube, l: Kube)
    requires Represents(t, k) && Represents(t, l)
    ensures k == l
  {
    hide EncodeKubernetesProxyConfig, TypedTree;
    KubernetesProxyConfigInjective(k, l);
  }

  /** The merged tree represents the merged configuration. */
  lemma MergedRepresents(d: Tree, s: Tree, dst: Kube, src: Kube)
    requires Represents(d, dst) && Represents(s, src)
    ensures Represents(MergeTrees(ROOT, d, s), Merge(dst, src))
  {
    hide EncodeKubernetesProxyConfig, MergeKubernetesProxyConfig, TypedTree, MergeTrees, MergeValues, ValueOf;
    MergedValue(ROOT, d, s);
    KubernetesProxyConfigMerges(dst, src);
  }

  // ---- reading memory ----

  lemma RepresentedReads(cells: Cells, boxes: Boxes, t: Tree, k: Kube)
    requires Stored(cells, boxes, t) && Represents(t, k)
    ensures Load(cells, boxes, RefOf(t), ROOT) == EncodeKubernetesProxyConfig(k)
  {
    LoadStored(cells, boxes, ROOT, t);
  }

  // ---- every configuration can be in memory ----

  lemma PlacePointer(leaf: Leaf, was: Store) returns (at: Ref, now: Store)
    requires Sound(was)
    ensures Grew(was, now) && (at.None? <==> IsZero(leaf))
    ensures StoredPointer(now.boxes, at, leaf) && Within(RefSet(at), was.next, now.next)
  {
    if IsZero(leaf) { return None, was; }
    return Some(was.next), Store(was.cells, was.boxes[was.next := ScalarBox(leaf)], was.next + 1);
  }

  lemma PlaceLabel(o: Option<CustomLabel>, was: Store) returns (l: LabelTree, now: Store)
    requires Sound(was)
    ensures Grew(was, now) && LabelOf(l) == o && HousedLabel(l) && StoredLabel(now.boxes, l)
    ensures SeparateLabel(l) && Within(LabelPlaces(l), was.next, now.next)
  {
    if o.None? { return NoLabel, was; }
    var space, m1 := PlacePointer(Text(o.value.metadataNamespace), was);
    var delimiter, m2 := PlacePointer(Text(o.value.keyDelimiter), m1);
    l := LabelAt(m2.next, space, delimiter, o.value);
    var box := LabelBox(o.value.name, space, o.value.metadataKey, delimiter);
    now := Store(m2.cells, m2.boxes[m2.next := box], m2.next + 1);
  }

  lemma {:induction false} PlaceLabels(os: seq<Option<CustomLabel>>, was: Store)
    returns (ls: seq<LabelTree>, now: Store)
    requires Sound(was)
    ensures Grew(was, now) && LabelsOf(ls) == os && SeparateLabels(ls)
    ensures forall l | l in ls :: HousedLabel(l) && StoredLabel(now.boxes, l)
    ensures Within(FieldPlaces(LabelsField(Some(ls))), was.next, now.next)
    decreases |os|
  {
    if os == [] { return [], was; }
    var n := |os| - 1;
    var front, mid := PlaceLabels(os[..n], was);
    var l;
    l, now := PlaceLabel(os[n], mid);
    ls := front + [l];
    forall i | 0 <= i < n ensures Within(LabelPlaces(ls[i]), was.next, mid.next) {
      assert forall a | a in LabelPlaces(front[i]) :: a in FieldPlaces(LabelsField(Some(front)));
    }
    assert LabelsOf(ls) == LabelsOf(front) + [LabelOf(l)] && os == os[..n] + [os[n]];
  }

  lemma {:induction false} PlaceField(kind: Kind, v: Value, was: Store) returns (f: Field, now: Store)
    requires Sound(was) && TypedField(kind, v) && (kind.LeafKind? ==> Fits(kind.policy, kind.zero))
    ensures Grew(was, now) && LaidField(now, was.next, kind, v, SlotOf(f), f)
    decreases v, 3
  {
    if kind.NodeKind? {
      var tree, m := PlaceTree(kind.node, v, was);
      return NodeField(tree), m;
    }
    var x := v.leaf;
    if x.Labels? && x.labels.Some? {
      f := MapField(Some(was.next), x.labels.value);
      now := Store(was.cells[was.next := MapCell(x.labels.value)], was.boxes, was.next + 1);
    } else if x.CustomLabels? && x.custom.Some? {
      var ls;
      ls, now := PlaceLabels(x.custom.value, was);
      f := LabelsField(Some(ls));
    } else if x.Text? || x.Number? || x.Flag? {
      var at;
      at, now := PlacePointer(x, was);
      f := PointerField(at, x);
    } else {
      now := was;
      f := if x.Labels? then MapField(None, map[]) else if x.CustomLabels? then LabelsField(None) else PlainField(x);
    }
  }

  lemma {:induction false} PlaceFields(t: Type, v: Value, k: nat, was: Store)
    returns (slots: seq<Slot>, fields: seq<Field>, now: Store)
    requires Sound(was) && v.Node? && Typed(t, v) && k <= |v.fields|
    ensures Grew(was, now) && |fields| == k && Laid(now, was.next, t, v.fields, slots, fields)
    decreases v, 1, k
  {
    hide FieldKind, Width, LaidField, FieldPlaces, SlotOf;
    if k == 0 { return [], [], was; }
    var front, some, mid := PlaceFields(t, v, k - 1, was);
    FieldTyped(t, v, k - 1);
    if FieldKind(t, k - 1).LeafKind? { FieldKindsSound(t, k - 1); }
    var f;
    f, now := PlaceField(FieldKind(t, k - 1), v.fields[k - 1], mid);
    LaidStep(mid, now, was.next, t, v.fields, front, some, SlotOf(f), f);
    slots, fields := front + [SlotOf(f)], some + [f];
  }

  /** Any well-typed value can be laid out in free memory, without sharing anything. */
  lemma {:induction false} PlaceTree(t: Type, v: Value, was: Store) returns (tree: Tree, now: Store)
    requires Sound(was) && Typed(t, v)
    ensures Grew(was, now) && LaidTree(now, was.next, t, v, tree)
    decreases v, 2
  {
    hide FieldKind, Width, Laid;
    if v.Nil? { return Absent, was; }
    var slots, fields, mid := PlaceFields(t, v, |v.fields|, was);
    tree := Struct(mid.next, fields);
    now := Store(mid.cells[mid.next := StructCell(slots)], mid.boxes, mid.next + 1);
    LaidDone(mid, now, was.next, t, v.fields, slots, fields);
  }

  /** Every default and every override can be in memory so that they can be merged. */
  lemma Representable(dst: Kube, src: Kube, was: Store) returns (d: Tree, s: Tree, now: Store)
    requires Sound(was)
    ensures Grew(was, now) && Stored(now.cells, now.boxes, d) && Stored(now.cells, now.boxes, s)
    ensures Represents(d, dst) && Represents(s, src) && Mergeable(ROOT, d, s) && Unshared(s)
  {
    hide EncodeKubernetesProxyConfig, TypedTree, ValueOf, Unshared, Separate, Addrs, Places;
    KubernetesProxyConfigTyped(dst);
    KubernetesProxyConfigTyped(src);
    var mid;
    d, mid := PlaceTree(ROOT, EncodeKubernetesProxyConfig(dst), was);
    s, now := PlaceTree(ROOT, EncodeKubernetesProxyConfig(src), mid);
    StoredElsewhere(mid.cells, now.cells, mid.boxes, now.boxes, d);
    SeparateIsUnshared(d);
    SeparateIsUnshared(s);
    AddrsArePlaces(d);
    AddrsArePlaces(s);
  }

  // ---- merging in memory ----

  /** The in-place merge of two configurations: the default's pointer, or the grafted
      override's, ends up representing the merged configuration; the override still
      represents what it did, in unchanged cells; no scalar and no label is written. */
  method MergeInPlace(m: Memory, dst: Ref, src: Ref, ghost d: Tree, ghost s: Tree, ghost dk: Kube, ghost sk: Kube)
    returns (r: Ref)
    requires dst == RefOf(d) && src == RefOf(s) && Mergeable(ROOT, d, s)
    requires Stored(m.cells, m.boxes, d) && Stored(m.cells, m.boxes, s)
    requires Represents(d, dk) && Represents(s, sk)
    modifies m`cells
    ensures r == (if src.None? || dst.Some? then dst else src) == RefOf(MergeTrees(ROOT, d, s))
    ensures Stored(m.cells, m.boxes, MergeTrees(ROOT, d, s))
    ensures Represents(MergeTrees(ROOT, d, s), Merge(dk, sk))
    ensures Unshared(s) ==> Unshared(MergeTrees(ROOT, d, s))
    ensures Stored(m.cells, m.boxes, s)
    ensures Confined(old(m.cells), m.cells, Written(ROOT, d, s))
    // What a reader finds at the result and at the override.
    ensures Load(m.cells, m.boxes, r, ROOT) == EncodeKubernetesProxyConfig(Merge(dk, sk))
    ensures Load(m.cells, m.boxes, src, ROOT) == EncodeKubernetesProxyConfig(sk)
  {
    hide EncodeKubernetesProxyConfig, Unshared, Stored, TypedTree, MergeTreeFields, Addrs, Load;
    MergedRepresents(d, s, dk, sk);
    if Unshared(s) { MergedUnshared(ROOT, d, s); }
    r := m.MergeStruct(ROOT, dst, src, d, s);
    LoadStored(m.cells, m.boxes, ROOT, MergeTrees(ROOT, d, s));
    LoadStored(m.cells, m.boxes, ROOT, s);
  }

  /** Merging any override into a deep copy of a default leaves the default as it was, and
      every other cell of memory too. */
  method MergeIntoCopy(m: Memory, dst: Ref, src: Ref, ghost d: Tree, ghost s: Tree, ghost dk: Kube, ghost sk: Kube)
    returns (r: Ref, ghost tree: Tree)
    requires m.Valid() && dst == RefOf(d) && src == RefOf(s)
    requires Stored(m.cells, m.boxes, d) && Stored(m.cells, m.boxes, s) && Represents(d, dk) && Represents(s, sk)
    modifies m
    ensures Grew(old(m.Now()), m.Now())
    ensures Stored(m.cells, m.boxes, d) && Stored(m.cells, m.boxes, s)
    ensures r == RefOf(tree) && Stored(m.cells, m.boxes, tree) && Represents(tree, Merge(dk, sk))
    // What a reader finds at the result, at the default and at the override.
    ensures Load(m.cells, m.boxes, r, ROOT) == EncodeKubernetesProxyConfig(Merge(dk, sk))
    ensures Load(m.cells, m.boxes, dst, ROOT) == EncodeKubernetesProxyConfig(dk)
    ensures Load(m.cells, m.boxes, src, ROOT) == EncodeKubernetesProxyConfig(sk)
  {
    hide EncodeKubernetesProxyConfig, MergeKubernetesProxyConfig, Unshared, Stored, TypedTree, MergeTrees, Addrs,
         ValueOf, Separate, Places, Load;
    StoredAllocated(m.cells, m.boxes, s);
    ghost var c;
    var base;
    base, c := DeepCopy(m, dst, ROOT, d);
    StoredElsewhere(old(m.cells), m.cells, old(m.boxes), m.boxes, s);
    SeparateIsUnshared(c);
    AddrsArePlaces(c);
    r := MergeInPlace(m, base, src, c, s, dk, sk);
    tree := MergeTrees(ROOT, c, s);
    StoredElsewhere(old(m.cells), m.cells, old(m.boxes), m.boxes, d);
    LoadStored(m.cells, m.boxes, ROOT, d);
  }
}
