/** Memory as a reader finds it, by following the pointers: the configuration below a pointer
    and the addresses reached from it.  Both are read from memory alone, and agree with the
    trees that the proofs about the merge speak of. */
module HeapReading {
  import opened Options
  import opened GatewayParams
  import opened Schemas
  import opened Values
  import opened HeapMerge

  // ---- the configuration below a pointer ----

  lemma DepthDrops(t: Type, i: nat)
    requires i < Width(t) && FieldKind(t, i).NodeKind?
    ensures Depth(FieldKind(t, i).node) < Depth(t)
  {}

  function LoadLabel(boxes: Boxes, at: Ref): Option<CustomLabel>
  {
    if at.None? || at.value !in boxes || !boxes[at.value].LabelBox? then None
    else
      var b := boxes[at.value];
      Some(CustomLabel(b.name, LoadText(boxes, b.space), b.key, LoadText(boxes, b.delimiter)))
  }

  function LoadText(boxes: Boxes, at: Ref): Option<string>
  {
    if at.Some? && at.value in boxes && boxes[at.value].ScalarBox? && boxes[at.value].leaf.Text?
    then boxes[at.value].leaf.text
    else None
  }

  /** A field that is not a struct pointer, as a reader finds it through the pointers. */
  function LoadLeaf(cells: Cells, boxes: Boxes, slot: Slot, zero: Leaf): Leaf
  {
    match slot
    case PlainSlot(x) => x
    case PointerSlot(Some(a)) => if a in boxes && boxes[a].ScalarBox? then boxes[a].leaf else zero
    case LabelsSlot(Some(refs)) =>
      CustomLabels(Some(seq(|refs|, i requires 0 <= i < |refs| => LoadLabel(boxes, refs[i]))))
    case MapSlot(Some(a)) => if a in cells && cells[a].MapCell? then Labels(Some(cells[a].entries)) else zero
    case _ => zero
  }

  /** The configuration that a reader finds by following the pointers from `at`. */
  function Load(cells: Cells, boxes: Boxes, at: Ref, t: Type): Value
    decreases Depth(t), 1
  {
    if at.None? || at.value !in cells || !cells[at.value].StructCell? || |cells[at.value].slots| != Width(t) then Nil
    else
      var slots := cells[at.value].slots;
      Node(seq(Width(t), i requires 0 <= i < Width(t) => LoadField(cells, boxes, slots[i], t, i)))
  }

  function LoadField(cells: Cells, boxes: Boxes, slot: Slot, t: Type, i: nat): Value
    requires i < Width(t)
    decreases Depth(t), 0
  {
    match FieldKind(t, i)
    case LeafKind(_, zero, _) => LeafValue(LoadLeaf(cells, boxes, slot, zero))
    case NodeKind(child) =>
      DepthDrops(t, i);
      if slot.NodeSlot? then Load(cells, boxes, slot.node, child) else Nil
  }

  lemma LoadStoredLabels(boxes: Boxes, ls: seq<LabelTree>)
    requires forall l | l in ls :: StoredLabel(boxes, l) && HousedLabel(l)
    ensures var refs := LabelRefs(ls);
            seq(|refs|, i requires 0 <= i < |refs| => LoadLabel(boxes, refs[i])) == LabelsOf(ls)
  {
    forall i | 0 <= i < |ls| ensures LoadLabel(boxes, LabelRefs(ls)[i]) == LabelsOf(ls)[i] {
      assert ls[i] in ls;
    }
  }

  lemma LoadStoredLeaf(cells: Cells, boxes: Boxes, zero: Leaf, f: Field)
    requires !f.NodeField? && Housed(f) && SameSort(zero, LeafOf(f)) && IsZero(zero) && StoredField(cells, boxes, f)
    ensures LoadLeaf(cells, boxes, SlotOf(f), zero) == LeafOf(f)
  {
    if f.LabelsField? && f.labels.Some? { LoadStoredLabels(boxes, f.labels.value); }
  }

  /** A reader finds exactly what is stored. */
  lemma {:induction false} LoadStored(cells: Cells, boxes: Boxes, t: Type, tree: Tree)
    requires Stored(cells, boxes, tree) && TypedTree(t, tree)
    ensures Load(cells, boxes, RefOf(tree), t) == ValueOf(tree)
    decreases tree
  {
    hide FieldKind, Width;
    if tree.Absent? {
    } else {
      var v := Load(cells, boxes, RefOf(tree), t);
      forall i: nat | i < |tree.fields|
        ensures |v.fields| == |tree.fields| && v.fields[i] == FieldValue(tree.fields[i])
      {
        TreeFieldTyped(t, tree, i);
        assert cells[tree.addr].slots[i] == SlotOf(tree.fields[i]);
        if FieldKind(t, i).NodeKind? {
          LoadStored(cells, boxes, FieldKind(t, i).node, tree.fields[i].tree);
        } else {
          FieldKindsSound(t, i);
          LoadStoredLeaf(cells, boxes, FieldKind(t, i).zero, tree.fields[i]);
        }
      }
      assert v.fields == ValueOf(tree).fields;
    }
  }

  // ---- the addresses reached from a pointer ----

  ghost function RefSet(r: Ref): set<nat>
  {
    if r.None? then {} else {r.value}
  }

  ghost function ReachLabel(boxes: Boxes, at: Ref): set<nat>
  {
    RefSet(at) + if at.Some? && at.value in boxes && boxes[at.value].LabelBox?
                 then RefSet(boxes[at.value].space) + RefSet(boxes[at.value].delimiter)
                 else {}
  }

  ghost function ReachLeaf(boxes: Boxes, slot: Slot): set<nat>
  {
    match slot
    case PlainSlot(_) => {}
    case PointerSlot(at) => RefSet(at)
    case LabelsSlot(None) => {}
    case LabelsSlot(Some(refs)) => set i, a | 0 <= i < |refs| && a in ReachLabel(boxes, refs[i]) :: a
    case MapSlot(at) => RefSet(at)
    case NodeSlot(_) => {}
  }

  /** All addresses, of structs, maps, scalars and labels, that are reached from `at`. */
  ghost function Reach(cells: Cells, boxes: Boxes, at: Ref, t: Type): set<nat>
    decreases Depth(t), 1
  {
    if at.None? || at.value !in cells || !cells[at.value].StructCell? || |cells[at.value].slots| != Width(t) then {}
    else
      var slots := cells[at.value].slots;
      {at.value} + set i: nat, a | i < Width(t) && a in ReachField(cells, boxes, slots[i], t, i) :: a
  }

  ghost function ReachField(cells: Cells, boxes: Boxes, slot: Slot, t: Type, i: nat): set<nat>
    requires i < Width(t)
    decreases Depth(t), 0
  {
    match FieldKind(t, i)
    case LeafKind(_, _, _) => ReachLeaf(boxes, slot)
    case NodeKind(child) =>
      DepthDrops(t, i);
      if slot.NodeSlot? then Reach(cells, boxes, slot.node, child) else {}
  }
}
