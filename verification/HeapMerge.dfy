/** The merge as it runs: structs and maps in memory, reached through pointers, updated in
    place, with nodes, maps and pointers of the override grafted into the default
    (internal/fgateway/deployer/merge.go).

    A struct in memory is the row of its fields.  All deepMerge* functions on structs have
    one form: nil rules first, then field by field an assignment to the default's field.
    `MergeStruct` is that form; which field is merged how is read off the schema.
 */
module HeapMerge {
  import opened Options
  import opened GatewayParams
  import opened Schemas
  import opened Values

  // ---- memory ----

  /** A pointer or map value: nil, or an address. */
  type Ref = Option<nat>

  datatype Slot =
    | PlainSlot(leaf: Leaf)                   // a scalar or a list of values
    | PointerSlot(target: Ref)                // a pointer to a scalar
    | LabelsSlot(targets: Option<seq<Ref>>)   // a list of nullable pointers to custom labels
    | MapSlot(table: Ref)
    | NodeSlot(node: Ref)

  /** What the merge writes to. */
  datatype Cell = StructCell(slots: seq<Slot>) | MapCell(entries: StringMap)

  /** What the merge only points to. */
  datatype Box = ScalarBox(leaf: Leaf) | LabelBox(name: string, space: Ref, key: string, delimiter: Ref)

  type Cells = map<nat, Cell>
  type Boxes = map<nat, Box>

  /** All of memory; addresses from `next` on are free. */
  datatype Store = Store(cells: Cells, boxes: Boxes, next: nat)

  ghost predicate Sound(m: Store)
  {
    (forall a | a in m.cells :: a < m.next) && (forall a | a in m.boxes :: a < m.next)
  }

  // ---- trees: what memory holds, with the addresses where it holds it ----

  datatype Tree = Absent | Struct(addr: nat, fields: seq<Field>)

  datatype Field =
    | PlainField(leaf: Leaf)
    | PointerField(at: Ref, leaf: Leaf)
    | LabelsField(labels: Option<seq<LabelTree>>)
    | MapField(at: Ref, entries: StringMap)
    | NodeField(tree: Tree)

  datatype LabelTree = NoLabel | LabelAt(addr: nat, space: Ref, delimiter: Ref, content: CustomLabel)

  function RefOf(t: Tree): Ref
  {
    if t.Absent? then None else Some(t.addr)
  }

  function LabelRef(l: LabelTree): Ref
  {
    if l.NoLabel? then None else Some(l.addr)
  }

  function LabelRefs(ls: seq<LabelTree>): seq<Ref>
  {
    seq(|ls|, i requires 0 <= i < |ls| => LabelRef(ls[i]))
  }

  function SlotOf(f: Field): Slot
  {
    match f
    case PlainField(leaf) => PlainSlot(leaf)
    case PointerField(at, _) => PointerSlot(at)
    case LabelsField(None) => LabelsSlot(None)
    case LabelsField(Some(ls)) => LabelsSlot(Some(LabelRefs(ls)))
    case MapField(at, _) => MapSlot(at)
    case NodeField(t) => NodeSlot(RefOf(t))
  }

  // ---- the value of a tree ----

  function LabelOf(l: LabelTree): Option<CustomLabel>
  {
    if l.NoLabel? then None else Some(l.content)
  }

  function LabelsOf(ls: seq<LabelTree>): seq<Option<CustomLabel>>
  {
    seq(|ls|, i requires 0 <= i < |ls| => LabelOf(ls[i]))
  }

  function LeafOf(f: Field): Leaf
    requires !f.NodeField?
  {
    match f
    case PlainField(leaf) => leaf
    case PointerField(_, leaf) => leaf
    case LabelsField(None) => CustomLabels(None)
    case LabelsField(Some(ls)) => CustomLabels(Some(LabelsOf(ls)))
    case MapField(at, entries) => Labels(if at.None? then None else Some(entries))
  }

  /** The configuration a tree holds, whatever its addresses. */
  function ValueOf(t: Tree): Value
    decreases t, 0
  {
    match t
    case Absent => Nil
    case Struct(_, fields) => Node(seq(|fields|, i requires 0 <= i < |fields| => FieldValue(fields[i])))
  }

  function FieldValue(f: Field): Value
    decreases f, 0
  {
    if f.NodeField? then ValueOf(f.tree) else LeafValue(LeafOf(f))
  }

  // ---- well-typed trees ----

  predicate HousedLabel(l: LabelTree)
  {
    l.LabelAt? ==>
      && l.space.None? == l.content.metadataNamespace.None?
      && l.delimiter.None? == l.content.keyDelimiter.None?
  }

  /** A leaf is kept in memory as its sort demands; nil pointers hold nothing. */
  predicate Housed(f: Field)
  {
    match f
    case PlainField(x) => x.PlainText? || x.PlainNumber? || x.PlainPort? || x.Items?
    case PointerField(at, x) => (x.Text? || x.Number? || x.Flag?) && (at.None? <==> IsZero(x))
    case LabelsField(ls) => ls.Some? ==> forall l | l in ls.value :: HousedLabel(l)
    case MapField(at, entries) => at.None? ==> entries == map[]
    case NodeField(_) => true
  }

  ghost predicate TypedTree(t: Type, tree: Tree)
    decreases tree
  {
    tree.Absent? ||
    (|tree.fields| == Width(t) &&
     forall i: nat | i < |tree.fields| :: TypedTreeField(FieldKind(t, i), tree.fields[i]))
  }

  ghost predicate TypedTreeField(kind: Kind, f: Field)
    decreases f
  {
    match kind
    case NodeKind(child) => f.NodeField? && TypedTree(child, f.tree)
    case LeafKind(_, zero, _) => !f.NodeField? && Housed(f) && SameSort(zero, LeafOf(f))
  }

  lemma TreeFieldTyped(t: Type, tree: Tree, i: nat)
    requires TypedTree(t, tree) && tree.Struct? && (i < Width(t) || i < |tree.fields|)
    ensures i < |tree.fields| && TypedTreeField(FieldKind(t, i), tree.fields[i])
  {}

  // ---- what memory holds ----

  ghost predicate StoredPointer(boxes: Boxes, at: Ref, leaf: Leaf)
  {
    at.Some? ==> at.value in boxes && boxes[at.value] == ScalarBox(leaf)
  }

  ghost predicate StoredLabel(boxes: Boxes, l: LabelTree)
  {
    l.LabelAt? ==>
      && l.addr in boxes
      && boxes[l.addr] == LabelBox(l.content.name, l.space, l.content.metadataKey, l.delimiter)
      && StoredPointer(boxes, l.space, Text(l.content.metadataNamespace))
      && StoredPointer(boxes, l.delimiter, Text(l.content.keyDelimiter))
  }

  /** Memory holds tree `t`. */
  ghost predicate Stored(cells: Cells, boxes: Boxes, t: Tree)
    decreases t
  {
    t.Absent? ||
    (&& t.addr in cells && cells[t.addr].StructCell?
     && |cells[t.addr].slots| == |t.fields|
     && forall i | 0 <= i < |t.fields| ::
          cells[t.addr].slots[i] == SlotOf(t.fields[i]) && StoredField(cells, boxes, t.fields[i]))
  }

  ghost predicate StoredField(cells: Cells, boxes: Boxes, f: Field)
    decreases f
  {
    match f
    case PlainField(_) => true
    case PointerField(at, leaf) => StoredPointer(boxes, at, leaf)
    case LabelsField(ls) => ls.Some? ==> forall l | l in ls.value :: StoredLabel(boxes, l)
    case MapField(at, entries) => at.Some? ==> at.value in cells && cells[at.value] == MapCell(entries)
    case NodeField(t) => Stored(cells, boxes, t)
  }

  /** The addresses of the structs and maps of a tree. */
  ghost function Addrs(t: Tree): set<nat>
    decreases t
  {
    if t.Absent? then {}
    else {t.addr} + set i, a | 0 <= i < |t.fields| && a in FieldAddrs(t.fields[i]) :: a
  }

  ghost function FieldAddrs(f: Field): set<nat>
    decreases f
  {
    match f
    case MapField(Some(a), _) => {a}
    case NodeField(t) => Addrs(t)
    case _ => {}
  }

  /** No struct or map is reached twice. */
  ghost predicate Unshared(t: Tree)
    decreases t
  {
    t.Absent? ||
    (&& (forall i | 0 <= i < |t.fields| :: t.addr !in FieldAddrs(t.fields[i]))
     && (forall i, j | 0 <= i < j < |t.fields| :: FieldAddrs(t.fields[i]) !! FieldAddrs(t.fields[j]))
     && (forall i | 0 <= i < |t.fields| :: UnsharedField(t.fields[i])))
  }

  ghost predicate UnsharedField(f: Field)
    decreases f
  {
    f.NodeField? ==> Unshared(f.tree)
  }

  // ---- the merge on trees ----

  /** Two fields that are not struct pointers. */
  function MergeLeafFields(policy: Policy, d: Field, s: Field): Field
  {
    match (d, s)
    case (PlainField(x), PlainField(y)) => PlainField(Combine(policy, x, y))
    case (PointerField(a, _), PointerField(b, _)) =>
      if policy.FirstWins? then (if a.None? then s else d) else (if b.None? then d else s)
    case (LabelsField(x), LabelsField(y)) => LabelsField(AppendLists(x, y))
    case (MapField(a, m), MapField(b, n)) =>
      if b.None? then d else if a.None? || n == map[] then s else MapField(a, m + n)
    case _ => d
  }

  function MergeTrees(t: Type, d: Tree, s: Tree): Tree
    decreases d, 1
  {
    if s.Absent? then d
    else if d.Absent? then s
    else if |d.fields| == |s.fields| then
      Struct(d.addr, seq(|d.fields|, i requires 0 <= i < |d.fields| => MergeTreeFields(t, d.fields, s.fields, i)))
    else d
  }

  function MergeTreeFields(t: Type, d: seq<Field>, s: seq<Field>, i: nat): Field
    requires |d| == |s| && i < |d|
    decreases d, 0
  {
    match FieldKind(t, i)
    case LeafKind(policy, _, ahead) =>
      if i + ahead < |d| then MergeLeafFields(policy, d[i + ahead], s[i + ahead]) else d[i]
    case NodeKind(child) =>
      MergeNodeFields(child, d[i], s[i])
  }

  function MergeNodeFields(t: Type, d: Field, s: Field): Field
    decreases d
  {
    if d.NodeField? && s.NodeField? then NodeField(MergeTrees(t, d.tree, s.tree)) else d
  }

  /** Two structs of one type that are both there. */
  ghost predicate Pair(t: Type, d: Tree, s: Tree)
  {
    d.Struct? && s.Struct? && TypedTree(t, d) && TypedTree(t, s)
  }

  lemma PairFields(t: Type, d: Tree, s: Tree, i: nat)
    requires Pair(t, d, s) && i < |d.fields|
    ensures |d.fields| == |s.fields| == Width(t)
    ensures TypedTreeField(FieldKind(t, i), d.fields[i]) && TypedTreeField(FieldKind(t, i), s.fields[i])
    ensures var m := MergeTrees(t, d, s);
            && m.Struct? && m.addr == d.addr && |m.fields| == |d.fields|
            && m.fields[i] == MergeTreeFields(t, d.fields, s.fields, i)
  {
    hide FieldKind, Width;
  }

  lemma MergeLabels(x: Option<seq<LabelTree>>, y: Option<seq<LabelTree>>)
    ensures LeafOf(LabelsField(AppendLists(x, y))) ==
            Combine(Append, LeafOf(LabelsField(x)), LeafOf(LabelsField(y)))
    ensures SlotOf(LabelsField(AppendLists(x, y))) ==
            LabelsSlot(AppendLists(SlotOf(LabelsField(x)).targets, SlotOf(LabelsField(y)).targets))
  {
    if x.Some? && y.Some? {
      assert LabelsOf(x.value + y.value) == LabelsOf(x.value) + LabelsOf(y.value);
      assert LabelRefs(x.value + y.value) == LabelRefs(x.value) + LabelRefs(y.value);
    }
  }

  /** Choosing pointers, appending references and writing maps is the policy on values. */
  lemma LeafFieldsMerge(policy: Policy, zero: Leaf, d: Field, s: Field)
    requires !d.NodeField? && !s.NodeField? && Housed(d) && Housed(s) && Fits(policy, zero)
    requires SameSort(zero, LeafOf(d)) && SameSort(zero, LeafOf(s))
    ensures var m := MergeLeafFields(policy, d, s);
            && !m.NodeField? && Housed(m) && SameSort(zero, LeafOf(m))
            && LeafOf(m) == Combine(policy, LeafOf(d), LeafOf(s))
            && FieldAddrs(m) <= FieldAddrs(d) + FieldAddrs(s)
  {
    if d.LabelsField? { MergeLabels(d.labels, s.labels); }
  }

  /** The two fields that the merge of leaf field `i` reads. */
  lemma LeafFieldsAt(t: Type, d: Tree, s: Tree, i: nat)
    requires Pair(t, d, s) && i < |d.fields| && FieldKind(t, i).LeafKind?
    ensures var j, policy, zero := i + FieldKind(t, i).ahead, FieldKind(t, i).policy, FieldKind(t, i).zero;
            && i <= j < |d.fields| == |s.fields| && Fits(policy, zero)
            && !d.fields[j].NodeField? && Housed(d.fields[j]) && SameSort(zero, LeafOf(d.fields[j]))
            && !s.fields[j].NodeField? && Housed(s.fields[j]) && SameSort(zero, LeafOf(s.fields[j]))
            && MergeTreeFields(t, d.fields, s.fields, i) == MergeLeafFields(policy, d.fields[j], s.fields[j])
            && (j != i ==> d.fields[j].PointerField? && s.fields[j].PointerField?)
  {
    hide FieldKind, Width;
    PairFields(t, d, s, i);
    FieldKindsSound(t, i);
    PairFields(t, d, s, i + FieldKind(t, i).ahead);
  }

  /** Merging allocates nothing: the result lives in the structs and maps of both. */
  lemma {:induction false} MergedAddrs(t: Type, d: Tree, s: Tree)
    requires TypedTree(t, d) && TypedTree(t, s)
    ensures Addrs(MergeTrees(t, d, s)) <= Addrs(d) + Addrs(s)
    decreases d
  {
    hide FieldKind, Width;
    if d.Absent? || s.Absent? {
    } else {
      forall i: nat | i < |d.fields|
        ensures |s.fields| == |d.fields|
        ensures FieldAddrs(MergeTreeFields(t, d.fields, s.fields, i))
                <= FieldAddrs(d.fields[i]) + FieldAddrs(s.fields[i])
      {
        PairFields(t, d, s, i);
        MergedFieldAddrs(t, d, s, i);
      }
    }
  }

  lemma {:induction false} MergedFieldAddrs(t: Type, d: Tree, s: Tree, i: nat)
    requires Pair(t, d, s) && i < |d.fields| == |s.fields|
    ensures FieldAddrs(MergeTreeFields(t, d.fields, s.fields, i)) <= FieldAddrs(d.fields[i]) + FieldAddrs(s.fields[i])
    decreases d.fields[i]
  {
    hide FieldKind, Width;
    PairFields(t, d, s, i);
    match FieldKind(t, i)
    case NodeKind(child) => MergedAddrs(child, d.fields[i].tree, s.fields[i].tree);
    case LeafKind(policy, zero, ahead) =>
      LeafFieldsAt(t, d, s, i);
      LeafFieldsMerge(policy, zero, d.fields[i + ahead], s.fields[i + ahead]);
  }

  /** The merged tree is of the same type, and holds the merged value. */
  lemma {:induction false} MergedValue(t: Type, d: Tree, s: Tree)
    requires TypedTree(t, d) && TypedTree(t, s)
    ensures TypedTree(t, MergeTrees(t, d, s))
    ensures ValueOf(MergeTrees(t, d, s)) == MergeValues(t, ValueOf(d), ValueOf(s))
    decreases d
  {
    hide FieldKind, Width, Combine;
    if d.Absent? || s.Absent? {
    } else {
      var m := MergeTrees(t, d, s);
      var x, y := ValueOf(d), ValueOf(s);
      forall i: nat | i < |d.fields|
        ensures |m.fields| == |d.fields| == |s.fields| == Width(t)
        ensures TypedTreeField(FieldKind(t, i), m.fields[i])
        ensures FieldValue(m.fields[i]) == MergeFields(t, x.fields, y.fields, i)
      {
        PairFields(t, d, s, i);
        MergedFieldValue(t, d, s, i);
      }
      assert Width(t) == |d.fields| == |m.fields|;
      RowsMerge(t, x, y, ValueOf(m));
    }
  }

  lemma MergedLeafValue(t: Type, d: Tree, s: Tree, i: nat)
    requires Pair(t, d, s) && i < |d.fields| == |s.fields| && FieldKind(t, i).LeafKind?
    ensures var m := MergeTreeFields(t, d.fields, s.fields, i);
            && TypedTreeField(FieldKind(t, i), m)
            && FieldValue(m) == MergeFields(t, ValueOf(d).fields, ValueOf(s).fields, i)
  {
    hide FieldKind, Width, TypedTree, Combine, Housed, MergeLeafFields, MergeTreeFields, LeafOf;
    LeafFieldsAt(t, d, s, i);
    var k := FieldKind(t, i);
    var f, g := d.fields[i + k.ahead], s.fields[i + k.ahead];
    LeafFieldsMerge(k.policy, k.zero, f, g);
    assert ValueOf(d).fields[i + k.ahead] == FieldValue(f) && ValueOf(s).fields[i + k.ahead] == FieldValue(g);
  }

  lemma {:induction false} MergedFieldValue(t: Type, d: Tree, s: Tree, i: nat)
    requires Pair(t, d, s) && i < |d.fields| == |s.fields|
    ensures var m := MergeTreeFields(t, d.fields, s.fields, i);
            && TypedTreeField(FieldKind(t, i), m)
            && FieldValue(m) == MergeFields(t, ValueOf(d).fields, ValueOf(s).fields, i)
    decreases d.fields[i]
  {
    hide FieldKind, Width, TypedTree, MergeLeafFields, Combine;
    PairFields(t, d, s, i);
    if FieldKind(t, i).LeafKind? {
      MergedLeafValue(t, d, s, i);
    } else {
      MergedValue(FieldKind(t, i).node, d.fields[i].tree, s.fields[i].tree);
      assert ValueOf(d).fields[i] == FieldValue(d.fields[i]) && ValueOf(s).fields[i] == FieldValue(s.fields[i]);
    }
  }

  /** The result can be merged into again. */
  lemma {:induction false} MergedUnshared(t: Type, d: Tree, s: Tree)
    requires Unshared(d) && Unshared(s) && Addrs(d) !! Addrs(s) && TypedTree(t, d) && TypedTree(t, s)
    ensures Unshared(MergeTrees(t, d, s))
    decreases d
  {
    hide FieldKind, Width, Combine;
    if d.Absent? || s.Absent? {
    } else {
      var m := MergeTrees(t, d, s);
      forall i: nat | i < |m.fields|
        ensures |m.fields| == |d.fields| == |s.fields|
        ensures FieldAddrs(m.fields[i]) <= FieldAddrs(d.fields[i]) + FieldAddrs(s.fields[i])
        ensures FieldAddrs(d.fields[i]) <= Addrs(d) && FieldAddrs(s.fields[i]) <= Addrs(s)
        ensures UnsharedField(m.fields[i])
      {
        assert |m.fields| == |d.fields|;
        PairFields(t, d, s, i);
        MergedFieldAddrs(t, d, s, i);
        assert FieldAddrs(d.fields[i]) <= Addrs(d) && FieldAddrs(s.fields[i]) <= Addrs(s);
        match FieldKind(t, i)
        case NodeKind(child) => MergedUnshared(child, d.fields[i].tree, s.fields[i].tree);
        case LeafKind(policy, zero, ahead) =>
          LeafFieldsAt(t, d, s, i);
          LeafFieldsMerge(policy, zero, d.fields[i + ahead], s.fields[i + ahead]);
      }
      forall i, j | 0 <= i < j < |d.fields| ensures FieldAddrs(m.fields[i]) !! FieldAddrs(m.fields[j]) {
        assert FieldAddrs(d.fields[i]) !! FieldAddrs(d.fields[j]);
        assert FieldAddrs(s.fields[i]) !! FieldAddrs(s.fields[j]);
      }
    }
  }

  // ---- frames ----

  ghost predicate Agree(c: Cells, c': Cells, on: set<nat>)
  {
    forall a | a in on && a in c :: a in c' && c'[a] == c[a]
  }

  /** Everything that was there is still there. */
  ghost predicate Extends(b: Boxes, b': Boxes)
  {
    forall a | a in b :: a in b' && b'[a] == b[a]
  }

  /** A tree survives changes elsewhere. */
  lemma {:induction false} StoredElsewhere(c: Cells, c': Cells, b: Boxes, b': Boxes, t: Tree)
    requires Stored(c, b, t) && Agree(c, c', Addrs(t)) && Extends(b, b')
    ensures Stored(c', b', t)
    decreases t
  {
    if t.Absent? {
    } else {
      forall i | 0 <= i < |t.fields| ensures StoredField(c', b', t.fields[i]) {
        StoredFieldElsewhere(c, c', b, b', t.fields[i]);
      }
    }
  }

  lemma {:induction false} StoredFieldElsewhere(c: Cells, c': Cells, b: Boxes, b': Boxes, f: Field)
    requires StoredField(c, b, f) && Agree(c, c', FieldAddrs(f)) && Extends(b, b')
    ensures StoredField(c', b', f)
    decreases f
  {
    if !f.NodeField? {
    } else {
      StoredElsewhere(c, c', b, b', f.tree);
    }
  }

  lemma {:induction false} StoredAllocated(c: Cells, b: Boxes, t: Tree)
    requires Stored(c, b, t)
    ensures Addrs(t) <= c.Keys
    decreases t
  {
    if t.Absent? {
    } else {
      forall i | 0 <= i < |t.fields| ensures FieldAddrs(t.fields[i]) <= c.Keys {
        assert StoredField(c, b, t.fields[i]);
        if t.fields[i].NodeField? { StoredAllocated(c, b, t.fields[i].tree); }
      }
    }
  }

  // ---- the loop over the fields of a struct ----

  /** Field `j` while the fields before `i` have been merged. */
  ghost function Partly(t: Type, d: Tree, s: Tree, i: nat, j: nat): Field
    requires d.Struct? && s.Struct? && j < |d.fields| == |s.fields|
  {
    if j < i then MergeTreeFields(t, d.fields, s.fields, j) else d.fields[j]
  }

  /** A default and an override the merge can run on. */
  ghost predicate Mergeable(t: Type, d: Tree, s: Tree)
  {
    TypedTree(t, d) && TypedTree(t, s) && Unshared(d) && Addrs(d) !! Addrs(s)
  }

  /** Merging field `k` writes to no cell of another field, merged or not. */
  lemma OtherFieldsApart(t: Type, d: Tree, s: Tree, i: nat, j: nat, k: nat)
    requires Pair(t, d, s) && Mergeable(t, d, s) && j < |d.fields| == |s.fields| && k < |d.fields| && j != k
    ensures FieldAddrs(Partly(t, d, s, i, j)) !! FieldAddrs(d.fields[k]) + {d.addr}
  {
    hide FieldKind, Width, MergeTreeFields, TypedTree;
    MergedFieldAddrs(t, d, s, j);
    assert FieldAddrs(d.fields[j]) !! FieldAddrs(d.fields[k]);
    assert FieldAddrs(s.fields[j]) <= Addrs(s);
    assert FieldAddrs(d.fields[k]) + {d.addr} <= Addrs(d);
  }

  /** The cells of the default that the merge may write: those that the result keeps. */
  ghost function Written(t: Type, d: Tree, s: Tree): set<nat>
  {
    Addrs(d) * Addrs(MergeTrees(t, d, s))
  }

  ghost function FieldWritten(t: Type, d: Tree, s: Tree, i: nat): set<nat>
    requires d.Struct? && s.Struct? && i < |d.fields| == |s.fields|
  {
    FieldAddrs(d.fields[i]) * FieldAddrs(MergeTreeFields(t, d.fields, s.fields, i))
  }

  lemma FieldWrittenPart(t: Type, d: Tree, s: Tree, i: nat)
    requires Pair(t, d, s) && i < |d.fields| == |s.fields|
    ensures FieldWritten(t, d, s, i) + {d.addr} <= Written(t, d, s)
  {
    hide FieldKind, Width, MergeTreeFields, TypedTree, TypedTreeField;
    PairFields(t, d, s, i);
    var m := MergeTrees(t, d, s);
    assert FieldAddrs(m.fields[i]) <= Addrs(m) && FieldAddrs(d.fields[i]) <= Addrs(d);
  }

  /** Only cells in `zone` have been written. */
  ghost predicate Confined(was: Cells, now: Cells, zone: set<nat>)
  {
    now.Keys == was.Keys && forall a | a in was && a !in zone :: now[a] == was[a]
  }

  lemma ConfinedTwice(c0: Cells, c1: Cells, c2: Cells, zone: set<nat>, part: set<nat>)
    requires Confined(c0, c1, zone) && Confined(c1, c2, part) && part <= zone
    ensures Confined(c0, c2, zone)
  {}

  /** The default's row, while the fields before `i` have been merged. */
  ghost predicate RowIs(cell: Cell, t: Type, d: Tree, s: Tree, i: nat)
    requires d.Struct? && s.Struct? && |d.fields| == |s.fields|
  {
    && cell.StructCell? && |cell.slots| == |d.fields|
    && forall j | 0 <= j < |d.fields| :: cell.slots[j] == SlotOf(Partly(t, d, s, i, j))
  }

  ghost predicate FieldsAre(now: Cells, b: Boxes, t: Type, d: Tree, s: Tree, i: nat)
    requires d.Struct? && s.Struct? && |d.fields| == |s.fields|
  {
    forall j | 0 <= j < |d.fields| :: StoredField(now, b, Partly(t, d, s, i, j))
  }

  /** The state of the loop: the fields before `i` are merged, the rest is as it was, and
      nothing outside the default has been written. */
  ghost predicate Progress(was: Cells, now: Cells, b: Boxes, t: Type, d: Tree, s: Tree, i: nat)
    requires d.Struct? && s.Struct? && |d.fields| == |s.fields|
  {
    && Confined(was, now, Written(t, d, s))
    && d.addr in now && RowIs(now[d.addr], t, d, s, i)
    && FieldsAre(now, b, t, d, s, i)
  }

  lemma OverrideIntact(was: Cells, now: Cells, b: Boxes, t: Type, d: Tree, s: Tree)
    requires Stored(was, b, s) && Addrs(d) !! Addrs(s) && Confined(was, now, Written(t, d, s))
    ensures Stored(now, b, s)
  {
    StoredElsewhere(was, now, b, b, s);
  }

  lemma RowStep(cell: Cell, t: Type, d: Tree, s: Tree, i: nat, next: nat)
    requires d.Struct? && s.Struct? && |d.fields| == |s.fields| && i < |d.fields| && next == i + 1
    requires RowIs(cell, t, d, s, i)
    ensures RowIs(StructCell(cell.slots[i := SlotOf(MergeTreeFields(t, d.fields, s.fields, i))]), t, d, s, next)
  {
    hide MergeTreeFields, SlotOf;
  }

  /** After one more field has been merged, all fields are stored as they should be. */
  lemma OneMoreField(c: Cells, c': Cells, b: Boxes, t: Type, d: Tree, s: Tree, i: nat, next: nat)
    requires Pair(t, d, s) && Mergeable(t, d, s) && i < |d.fields| == |s.fields| && next == i + 1
    requires FieldsAre(c, b, t, d, s, i) && Confined(c, c', FieldAddrs(d.fields[i]) + {d.addr})
    requires StoredField(c', b, MergeTreeFields(t, d.fields, s.fields, i))
    ensures FieldsAre(c', b, t, d, s, next)
  {
    hide MergeTreeFields, TypedTree;
    forall j | 0 <= j < |d.fields| ensures StoredField(c', b, Partly(t, d, s, next, j)) {
      if j != i {
        OtherFieldsApart(t, d, s, i, j, i);
        StoredFieldElsewhere(c, c', b, b, Partly(t, d, s, i, j));
      }
    }
  }

  /** Writing the default's own struct leaves a merged field alone. */
  lemma WriteKeepsField(c: Cells, cell: Cell, b: Boxes, t: Type, d: Tree, s: Tree, i: nat)
    requires Pair(t, d, s) && Mergeable(t, d, s) && i < |d.fields| == |s.fields|
    requires StoredField(c, b, MergeTreeFields(t, d.fields, s.fields, i))
    ensures StoredField(c[d.addr := cell], b, MergeTreeFields(t, d.fields, s.fields, i))
  {
    hide MergeTreeFields, TypedTree;
    MergedFieldAddrs(t, d, s, i);
    assert FieldAddrs(s.fields[i]) <= Addrs(s);
    StoredFieldElsewhere(c, c[d.addr := cell], b, b, MergeTreeFields(t, d.fields, s.fields, i));
  }

  lemma ProgressStep(was: Cells, before: Cells, between: Cells, b: Boxes, t: Type, d: Tree, s: Tree, i: nat, next: nat)
    requires Pair(t, d, s) && Mergeable(t, d, s) && i < |d.fields| == |s.fields| && next == i + 1
    requires Progress(was, before, b, t, d, s, i)
    requires Confined(before, between, FieldWritten(t, d, s, i))
    requires StoredField(between, b, MergeTreeFields(t, d.fields, s.fields, i))
    ensures var slot := SlotOf(MergeTreeFields(t, d.fields, s.fields, i));
            Progress(was, between[d.addr := StructCell(before[d.addr].slots[i := slot])], b, t, d, s, next)
  {
    hide MergeTreeFields, TypedTree;
    var cell := StructCell(before[d.addr].slots[i := SlotOf(MergeTreeFields(t, d.fields, s.fields, i))]);
    var after, zone := between[d.addr := cell], FieldWritten(t, d, s, i) + {d.addr};
    assert Confined(before, after, zone) && Confined(before, after, FieldAddrs(d.fields[i]) + {d.addr});
    FieldWrittenPart(t, d, s, i);
    ConfinedTwice(was, before, after, Written(t, d, s), zone);
    RowStep(before[d.addr], t, d, s, i, next);
    WriteKeepsField(between, cell, b, t, d, s, i);
    OneMoreField(before, after, b, t, d, s, i, next);
  }

  lemma ProgressDone(was: Cells, now: Cells, b: Boxes, t: Type, d: Tree, s: Tree)
    requires Pair(t, d, s) && |d.fields| == |s.fields|
    requires Progress(was, now, b, t, d, s, |d.fields|)
    ensures Stored(now, b, MergeTrees(t, d, s))
  {
    hide FieldKind, Width;
    var m := MergeTrees(t, d, s);
    forall j: nat | j < |d.fields| ensures m.fields[j] == Partly(t, d, s, |d.fields|, j) {
      PairFields(t, d, s, j);
    }
  }

  lemma ProgressStart(c: Cells, b: Boxes, t: Type, d: Tree, s: Tree)
    requires Pair(t, d, s) && Stored(c, b, d)
    ensures |d.fields| == |s.fields| && Progress(c, c, b, t, d, s, 0)
  {}

  lemma ChildMergeable(t: Type, d: Tree, s: Tree, i: nat)
    requires Pair(t, d, s) && Mergeable(t, d, s) && i < |d.fields| == |s.fields| && FieldKind(t, i).NodeKind?
    ensures d.fields[i].NodeField? && s.fields[i].NodeField?
    ensures Mergeable(FieldKind(t, i).node, d.fields[i].tree, s.fields[i].tree)
  {
    hide FieldKind, Width;
    PairFields(t, d, s, i);
    assert FieldAddrs(d.fields[i]) <= Addrs(d) && FieldAddrs(s.fields[i]) <= Addrs(s);
    assert UnsharedField(d.fields[i]);
  }

  /** What the merge of leaf field `i` may write, whichever field it reads. */
  lemma LeafWritten(t: Type, d: Tree, s: Tree, i: nat)
    requires Pair(t, d, s) && Mergeable(t, d, s) && i < |d.fields| == |s.fields| && FieldKind(t, i).LeafKind?
    ensures var j := i + FieldKind(t, i).ahead;
            && j < |d.fields| && FieldAddrs(d.fields[j]) !! FieldAddrs(s.fields[j])
            && FieldAddrs(d.fields[j]) * FieldAddrs(MergeTreeFields(t, d.fields, s.fields, i))
               <= FieldWritten(t, d, s, i)
  {
    hide FieldKind, Width, TypedTree, Unshared, MergeTrees, MergeTreeFields;
    LeafFieldsAt(t, d, s, i);
    var j := i + FieldKind(t, i).ahead;
    assert FieldAddrs(d.fields[j]) <= Addrs(d) && FieldAddrs(s.fields[j]) <= Addrs(s);
  }

  lemma ChildWritten(t: Type, d: Tree, s: Tree, i: nat)
    requires Pair(t, d, s) && i < |d.fields| == |s.fields| && FieldKind(t, i).NodeKind?
    ensures d.fields[i].NodeField? && s.fields[i].NodeField?
    ensures Written(FieldKind(t, i).node, d.fields[i].tree, s.fields[i].tree) <= FieldWritten(t, d, s, i)
    ensures var m := MergeTrees(FieldKind(t, i).node, d.fields[i].tree, s.fields[i].tree);
            MergeTreeFields(t, d.fields, s.fields, i) == NodeField(m)
  {
    hide FieldKind, Width, TypedTree;
    PairFields(t, d, s, i);
  }

  lemma ConfinedWider(was: Cells, now: Cells, part: set<nat>, zone: set<nat>)
    requires Confined(was, now, part) && part <= zone
    ensures Confined(was, now, zone)
  {}

  lemma OwnRowKept(before: Cells, now: Cells, t: Type, d: Tree, s: Tree, i: nat)
    requires d.Struct? && s.Struct? && Unshared(d) && i < |d.fields| == |s.fields| && d.addr in before
    requires Confined(before, now, FieldWritten(t, d, s, i))
    ensures d.addr in now && now[d.addr] == before[d.addr]
  {}

  class Memory {
    var cells: Cells
    /** Scalars and custom labels, which the merge shares and never writes. */
    var boxes: Boxes
    /** Addresses from here on are free. */
    var next: nat

    ghost function Now(): Store
      reads this
    {
      Store(cells, boxes, next)
    }

    ghost predicate Valid()
      reads this
    {
      Sound(Now())
    }

    method NewCell(cell: Cell) returns (a: nat)
      modifies this
      ensures a == old(next) && Now() == Store(old(cells)[a := cell], old(boxes), a + 1)
    {
      a := next;
      cells, next := cells[a := cell], next + 1;
    }

    method NewBox(box: Box) returns (a: nat)
      modifies this
      ensures a == old(next) && Now() == Store(old(cells), old(boxes)[a := box], a + 1)
    {
      a := next;
      boxes, next := boxes[a := box], next + 1;
    }

    /** deepMergeMaps: the entries are written into the default's own map. */
    method MergeMaps(dst: Ref, src: Ref) returns (r: Ref)
      requires dst.Some? ==> dst.value in cells && cells[dst.value].MapCell?
      requires src.Some? ==> src.value in cells && cells[src.value].MapCell?
      requires dst.None? || dst != src
      modifies `cells
      ensures cells.Keys == old(cells).Keys
      ensures forall a | a in old(cells) && dst != Some(a) :: cells[a] == old(cells)[a]
      ensures src.None? ==> r == dst && cells == old(cells)
      ensures src.Some? && (dst.None? || old(cells)[src.value].entries == map[]) ==> r == src && cells == old(cells)
      ensures src.Some? && dst.Some? && old(cells)[src.value].entries != map[] ==>
                && r == dst
                && cells[dst.value] == MapCell(old(cells)[dst.value].entries + old(cells)[src.value].entries)
    {
      if src.None? { return dst; }
      if dst.None? || |cells[src.value].entries| == 0 { return src; }
      var entries := cells[src.value].entries;
      var todo := entries.Keys;
      ghost var was := cells[dst.value].entries;
      while todo != {}
        invariant todo <= entries.Keys && cells.Keys == old(cells).Keys && cells[dst.value].MapCell?
        invariant forall a | a in old(cells) && a != dst.value :: cells[a] == old(cells)[a]
        invariant var now := cells[dst.value].entries;
                  && now.Keys == was.Keys + (entries.Keys - todo)
                  && (forall k | k in now :: now[k] == if k in entries && k !in todo then entries[k] else was[k])
        decreases |todo|
      {
        var k :| k in todo;
        cells := cells[dst.value := MapCell(cells[dst.value].entries[k := entries[k]])];
        todo := todo - {k};
      }
      assert cells[dst.value].entries == was + entries;
      return dst;
    }

    /** One field that is not a struct pointer: a pointer is chosen, references are
        appended, a map is merged in place. */
    method MergeSlots(policy: Policy, dst: Slot, src: Slot, ghost zero: Leaf, ghost d: Field, ghost s: Field)
      returns (r: Slot)
      requires dst == SlotOf(d) && src == SlotOf(s) && !d.NodeField? && !s.NodeField? && Housed(d) && Housed(s)
      requires Fits(policy, zero) && SameSort(zero, LeafOf(d)) && SameSort(zero, LeafOf(s))
      requires StoredField(cells, boxes, d) && StoredField(cells, boxes, s) && FieldAddrs(d) !! FieldAddrs(s)
      modifies `cells
      ensures Confined(old(cells), cells, FieldAddrs(d) * FieldAddrs(MergeLeafFields(policy, d, s)))
      ensures r == SlotOf(MergeLeafFields(policy, d, s)) && StoredField(cells, boxes, MergeLeafFields(policy, d, s))
    {
      hide Combine;
      match dst
      case PlainSlot(x) =>
        r := PlainSlot(Combine(policy, x, src.leaf));
      case PointerSlot(a) =>
        if policy.FirstWins? {
          r := if a.None? then src else dst;
        } else {
          r := if src.target.None? then dst else src;
        }
      case LabelsSlot(refs) =>
        MergeLabels(d.labels, s.labels);
        r := LabelsSlot(AppendLists(refs, src.targets));
      case MapSlot(table) =>
        var merged := MergeMaps(table, src.table);
        r := MapSlot(merged);
    }

    /** Field `i`, while the fields before it have been merged. */
    method MergeFieldAt(t: Type, i: nat, dst: nat, src: nat, ghost d: Tree, ghost s: Tree) returns (r: Slot)
      requires Pair(t, d, s) && Mergeable(t, d, s) && dst == d.addr && src == s.addr && i < |d.fields| == |s.fields|
      requires dst in cells && RowIs(cells[dst], t, d, s, i) && FieldsAre(cells, boxes, t, d, s, i)
      requires Stored(cells, boxes, s)
      modifies `cells
      ensures Confined(old(cells), cells, FieldWritten(t, d, s, i))
      ensures r == SlotOf(MergeTreeFields(t, d.fields, s.fields, i))
      ensures StoredField(cells, boxes, MergeTreeFields(t, d.fields, s.fields, i))
      decreases d, 0
    {
      hide FieldKind, Width, TypedTree, TypedTreeField, Unshared, MergeTrees, MergeTreeFields, MergeLeafFields,
           FieldAddrs, Addrs, FieldWritten, Written, Mergeable, Housed, Confined;
      ghost var before := cells;
      PairFields(t, d, s, i);
      match FieldKind(t, i)
      case LeafKind(policy, zero, ahead) =>
        LeafFieldsAt(t, d, s, i);
        LeafWritten(t, d, s, i);
        ghost var f, g := d.fields[i + ahead], s.fields[i + ahead];
        assert Partly(t, d, s, i, i + ahead) == f;
        r := MergeSlots(policy, cells[dst].slots[i + ahead], cells[src].slots[i + ahead], zero, f, g);
        ghost var part := FieldAddrs(f) * FieldAddrs(MergeLeafFields(policy, f, g));
        ConfinedWider(before, cells, part, FieldWritten(t, d, s, i));
      case NodeKind(child) =>
        assert Partly(t, d, s, i, i) == d.fields[i];
        ChildMergeable(t, d, s, i);
        ChildWritten(t, d, s, i);
        ghost var dt, st := d.fields[i].tree, s.fields[i].tree;
        var node := MergeStruct(child, cells[dst].slots[i].node, cells[src].slots[i].node, dt, st);
        r := NodeSlot(node);
        ConfinedWider(before, cells, Written(child, dt, st), FieldWritten(t, d, s, i));
    }

    /** The in-place merge refines the merge on values.  For an unshared default and an
        override with no cell in common, the default's cells end up holding the merged
        tree; no cell outside the default is written, so the override is unchanged. */
    method MergeStruct(t: Type, dst: Ref, src: Ref, ghost d: Tree, ghost s: Tree) returns (r: Ref)
      requires dst == RefOf(d) && src == RefOf(s) && Mergeable(t, d, s)
      requires Stored(cells, boxes, d) && Stored(cells, boxes, s)
      modifies `cells
      ensures Confined(old(cells), cells, Written(t, d, s))
      ensures r == RefOf(MergeTrees(t, d, s)) && Stored(cells, boxes, MergeTrees(t, d, s))
      ensures Stored(cells, boxes, s)
      decreases d, 1
    {
      hide MergeTreeFields, TypedTree, Unshared, Addrs, FieldAddrs, Stored, StoredField, FieldsAre, SlotOf;
      if src.None? { return dst; }
      if dst.None? { return src; }
      ProgressStart(cells, boxes, t, d, s);
      for i := 0 to |cells[dst.value].slots|
        invariant Progress(old(cells), cells, boxes, t, d, s, i)
      {
        ghost var before := cells;
        OverrideIntact(old(cells), cells, boxes, t, d, s);
        var slot := MergeFieldAt(t, i, dst.value, src.value, d, s);
        ProgressStep(old(cells), before, cells, boxes, t, d, s, i, i + 1);
        OwnRowKept(before, cells, t, d, s, i);
        cells := cells[dst.value := StructCell(cells[dst.value].slots[i := slot])];
      }
      OverrideIntact(old(cells), cells, boxes, t, d, s);
      ProgressDone(old(cells), cells, boxes, t, d, s);
      return dst;
    }
  }
}
