/** Deep copies (apis/fgateway/v1alpha1/zz_generated.deepcopy.go): every struct, map, scalar
    and custom label of the copy is in memory of its own. */
module HeapCopies {
  import opened Options
  import opened GatewayParams
  import opened Schemas
  import opened Values
  import opened HeapMerge
  import opened HeapReading

  // ---- separation ----

  ghost function LabelPlaces(l: LabelTree): set<nat>
  {
    if l.NoLabel? then {} else {l.addr} + RefSet(l.space) + RefSet(l.delimiter)
  }

  /** All addresses of a tree: structs, maps, scalars and labels. */
  ghost function Places(t: Tree): set<nat>
    decreases t
  {
    if t.Absent? then {}
    else {t.addr} + set i, a | 0 <= i < |t.fields| && a in FieldPlaces(t.fields[i]) :: a
  }

  ghost function FieldPlaces(f: Field): set<nat>
    decreases f
  {
    match f
    case PlainField(_) => {}
    case PointerField(at, _) => RefSet(at)
    case LabelsField(None) => {}
    case LabelsField(Some(ls)) => set i, a | 0 <= i < |ls| && a in LabelPlaces(ls[i]) :: a
    case MapField(at, _) => RefSet(at)
    case NodeField(t) => Places(t)
  }

  ghost predicate SeparateLabel(l: LabelTree)
  {
    l.LabelAt? ==> l.addr !in RefSet(l.space) + RefSet(l.delimiter) && RefSet(l.space) !! RefSet(l.delimiter)
  }

  ghost predicate SeparateLabels(ls: seq<LabelTree>)
  {
    && (forall i | 0 <= i < |ls| :: SeparateLabel(ls[i]))
    && (forall i, j | 0 <= i < j < |ls| :: LabelPlaces(ls[i]) !! LabelPlaces(ls[j]))
  }

  /** Nothing at all is reached twice. */
  ghost predicate Separate(t: Tree)
    decreases t
  {
    t.Absent? ||
    (&& (forall i | 0 <= i < |t.fields| :: t.addr !in FieldPlaces(t.fields[i]))
     && (forall i, j | 0 <= i < j < |t.fields| :: FieldPlaces(t.fields[i]) !! FieldPlaces(t.fields[j]))
     && (forall i | 0 <= i < |t.fields| :: SeparateField(t.fields[i])))
  }

  ghost predicate SeparateField(f: Field)
    decreases f
  {
    match f
    case LabelsField(Some(ls)) => SeparateLabels(ls)
    case NodeField(t) => Separate(t)
    case _ => true
  }

  lemma {:induction false} AddrsArePlaces(t: Tree)
    ensures Addrs(t) <= Places(t)
    decreases t
  {
    if t.Absent? {
    } else {
      forall i | 0 <= i < |t.fields| ensures FieldAddrs(t.fields[i]) <= FieldPlaces(t.fields[i]) {
        FieldAddrsArePlaces(t.fields[i]);
      }
    }
  }

  lemma {:induction false} FieldAddrsArePlaces(f: Field)
    ensures FieldAddrs(f) <= FieldPlaces(f)
    decreases f
  {
    if !f.NodeField? {
    } else {
      AddrsArePlaces(f.tree);
    }
  }

  lemma {:induction false} SeparateIsUnshared(t: Tree)
    requires Separate(t)
    ensures Unshared(t)
    decreases t
  {
    if t.Absent? {
    } else {
      forall i | 0 <= i < |t.fields|
        ensures FieldAddrs(t.fields[i]) <= FieldPlaces(t.fields[i]) && UnsharedField(t.fields[i])
      {
        FieldAddrsArePlaces(t.fields[i]);
        assert SeparateField(t.fields[i]);
        if t.fields[i].NodeField? { SeparateIsUnshared(t.fields[i].tree); }
      }
      forall i, j | 0 <= i < j < |t.fields| ensures FieldAddrs(t.fields[i]) !! FieldAddrs(t.fields[j]) {
        assert FieldPlaces(t.fields[i]) !! FieldPlaces(t.fields[j]);
      }
    }
  }

  lemma ReachStoredLabels(boxes: Boxes, ls: seq<LabelTree>)
    requires forall l | l in ls :: StoredLabel(boxes, l)
    ensures ReachLeaf(boxes, LabelsSlot(Some(LabelRefs(ls)))) == FieldPlaces(LabelsField(Some(ls)))
  {
    var refs := LabelRefs(ls);
    forall i | 0 <= i < |ls| ensures ReachLabel(boxes, refs[i]) == LabelPlaces(ls[i]) {
      assert ls[i] in ls;
    }
  }

  lemma {:induction false} ReachStoredField(cells: Cells, boxes: Boxes, t: Type, i: nat, f: Field)
    requires i < Width(t) && TypedTreeField(FieldKind(t, i), f) && StoredField(cells, boxes, f)
    ensures ReachField(cells, boxes, SlotOf(f), t, i) == FieldPlaces(f)
    decreases f
  {
    hide FieldKind, Width;
    if FieldKind(t, i).NodeKind? {
      ReachStored(cells, boxes, FieldKind(t, i).node, f.tree);
    } else if f.LabelsField? && f.labels.Some? {
      ReachStoredLabels(boxes, f.labels.value);
    }
  }

  /** The places of a stored tree are the addresses a reader reaches. */
  lemma {:induction false} ReachStored(cells: Cells, boxes: Boxes, t: Type, tree: Tree)
    requires Stored(cells, boxes, tree) && TypedTree(t, tree)
    ensures Reach(cells, boxes, RefOf(tree), t) == Places(tree)
    decreases tree
  {
    hide FieldKind, Width, FieldPlaces, ReachField, TypedTreeField, StoredField, SlotOf;
    if tree.Absent? {
    } else {
      var slots := cells[tree.addr].slots;
      forall i: nat | i < |tree.fields|
        ensures |tree.fields| == |slots| == Width(t)
        ensures ReachField(cells, boxes, slots[i], t, i) == FieldPlaces(tree.fields[i])
      {
        TreeFieldTyped(t, tree, i);
        ReachStoredField(cells, boxes, t, i, tree.fields[i]);
      }
    }
  }

  // ---- allocation ----

  ghost predicate Within(places: set<nat>, lo: nat, hi: nat)
  {
    forall a | a in places :: lo <= a < hi
  }

  /** Nothing that was there has moved or changed, and what is new is below `next`. */
  ghost predicate Grew(was: Store, now: Store)
  {
    && Sound(now) && was.next <= now.next && Extends(was.boxes, now.boxes)
    && forall a | a in was.cells :: a in now.cells && now.cells[a] == was.cells[a]
  }

  lemma StillStored(was: Store, now: Store, f: Field)
    requires StoredField(was.cells, was.boxes, f) && Grew(was, now)
    ensures StoredField(now.cells, now.boxes, f)
  {
    StoredFieldElsewhere(was.cells, now.cells, was.boxes, now.boxes, f);
  }

  /** Field `f` is in memory from address `lo` on, as the schema says, with value `v`. */
  ghost predicate LaidField(m: Store, lo: nat, kind: Kind, v: Value, slot: Slot, f: Field)
  {
    && slot == SlotOf(f) && StoredField(m.cells, m.boxes, f) && TypedTreeField(kind, f)
    && FieldValue(f) == v && SeparateField(f) && Within(FieldPlaces(f), lo, m.next)
  }

  /** The first fields of a struct, each in memory of its own. */
  ghost predicate Laid(m: Store, lo: nat, t: Type, values: seq<Value>, slots: seq<Slot>, fields: seq<Field>)
  {
    && |slots| == |fields| <= |values|
    && (forall j: nat | j < |fields| :: LaidField(m, lo, FieldKind(t, j), values[j], slots[j], fields[j]))
    && (forall j, k | 0 <= j < k < |fields| :: FieldPlaces(fields[j]) !! FieldPlaces(fields[k]))
  }

  lemma LaidStep(was: Store, now: Store, lo: nat, t: Type, values: seq<Value>, slots: seq<Slot>, fields: seq<Field>,
                 slot: Slot, f: Field)
    requires Laid(was, lo, t, values, slots, fields) && Grew(was, now) && lo <= was.next
    requires |fields| < |values| && LaidField(now, was.next, FieldKind(t, |fields|), values[|fields|], slot, f)
    ensures Laid(now, lo, t, values, slots + [slot], fields + [f])
  {
    hide FieldKind, TypedTreeField, SeparateField, FieldValue, SlotOf, FieldPlaces;
    var more := fields + [f];
    forall j: nat | j < |more| ensures LaidField(now, lo, FieldKind(t, j), values[j], (slots + [slot])[j], more[j]) {
      if j < |fields| { StillStored(was, now, fields[j]); }
    }
    forall j, k | 0 <= j < k < |more| ensures FieldPlaces(more[j]) !! FieldPlaces(more[k]) {
      if k == |fields| {
        assert Within(FieldPlaces(more[j]), lo, was.next) && Within(FieldPlaces(more[k]), was.next, now.next);
      }
    }
  }

  /** A tree in memory of its own, from address `lo` on, of type `t` and with value `v`. */
  ghost predicate LaidTree(m: Store, lo: nat, t: Type, v: Value, tree: Tree)
  {
    && Stored(m.cells, m.boxes, tree) && TypedTree(t, tree) && ValueOf(tree) == v
    && Separate(tree) && Within(Places(tree), lo, m.next)
  }

  lemma LaidStored(was: Store, now: Store, lo: nat, t: Type, values: seq<Value>, slots: seq<Slot>, fields: seq<Field>)
    requires Laid(was, lo, t, values, slots, fields) && Grew(was, now)
    requires was.next in now.cells && now.cells[was.next] == StructCell(slots)
    ensures Stored(now.cells, now.boxes, Struct(was.next, fields))
  {
    hide FieldKind, TypedTreeField, SeparateField, SlotOf, FieldPlaces, FieldValue;
    forall j: nat | j < |fields|
      ensures slots[j] == SlotOf(fields[j]) && StoredField(now.cells, now.boxes, fields[j])
    {
      assert LaidField(was, lo, FieldKind(t, j), values[j], slots[j], fields[j]);
      StillStored(was, now, fields[j]);
    }
  }

  lemma LaidValue(m: Store, lo: nat, t: Type, values: seq<Value>, slots: seq<Slot>, fields: seq<Field>)
    requires Laid(m, lo, t, values, slots, fields) && |fields| == |values| == Width(t)
    ensures TypedTree(t, Struct(m.next, fields)) && ValueOf(Struct(m.next, fields)) == Node(values)
  {
    hide FieldKind, Width, TypedTreeField, SeparateField, SlotOf, FieldPlaces, FieldValue, StoredField;
    forall j: nat | j < |fields|
      ensures TypedTreeField(FieldKind(t, j), fields[j]) && FieldValue(fields[j]) == values[j]
    {
      assert LaidField(m, lo, FieldKind(t, j), values[j], slots[j], fields[j]);
    }
    assert ValueOf(Struct(m.next, fields)).fields == values;
  }

  lemma LaidSeparate(m: Store, lo: nat, t: Type, values: seq<Value>, slots: seq<Slot>, fields: seq<Field>)
    requires Laid(m, lo, t, values, slots, fields) && lo <= m.next
    ensures Separate(Struct(m.next, fields)) && Within(Places(Struct(m.next, fields)), lo, m.next + 1)
  {
    hide FieldKind, TypedTreeField, SeparateField, SlotOf, FieldPlaces, FieldValue, StoredField;
    forall j: nat | j < |fields| ensures SeparateField(fields[j]) && Within(FieldPlaces(fields[j]), lo, m.next) {
      assert LaidField(m, lo, FieldKind(t, j), values[j], slots[j], fields[j]);
    }
  }

  /** All fields are laid out and the struct itself is at the next free address. */
  lemma LaidDone(was: Store, now: Store, lo: nat, t: Type, values: seq<Value>, slots: seq<Slot>, fields: seq<Field>)
    requires Sound(was) && Laid(was, lo, t, values, slots, fields) && |fields| == |values| == Width(t) && lo <= was.next
    requires now == Store(was.cells[was.next := StructCell(slots)], was.boxes, was.next + 1)
    ensures Grew(was, now) && LaidTree(now, lo, t, Node(values), Struct(was.next, fields))
  {
    hide Laid, Stored, TypedTree, ValueOf, Separate, Places;
    LaidStored(was, now, lo, t, values, slots, fields);
    LaidValue(was, lo, t, values, slots, fields);
    LaidSeparate(was, lo, t, values, slots, fields);
  }

  // ---- copying ----

  method CopyPointer(m: Memory, at: Ref, ghost leaf: Leaf) returns (r: Ref)
    requires m.Valid() && StoredPointer(m.boxes, at, leaf)
    modifies m
    ensures Grew(old(m.Now()), m.Now()) && m.cells == old(m.cells)
    ensures r.Some? == at.Some? && StoredPointer(m.boxes, r, leaf) && Within(RefSet(r), old(m.next), m.next)
  {
    if at.None? { return None; }
    var a := m.NewBox(m.boxes[at.value]);
    return Some(a);
  }

  /** A custom label and its two optional strings. */
  method CopyLabel(m: Memory, at: Ref, ghost l: LabelTree) returns (r: Ref, ghost g: LabelTree)
    requires m.Valid() && at == LabelRef(l) && StoredLabel(m.boxes, l) && HousedLabel(l)
    modifies m
    ensures Grew(old(m.Now()), m.Now())
    ensures r == LabelRef(g) && StoredLabel(m.boxes, g) && HousedLabel(g) && LabelOf(g) == LabelOf(l)
    ensures SeparateLabel(g) && Within(LabelPlaces(g), old(m.next), m.next)
  {
    if at.None? { return None, NoLabel; }
    var box := m.boxes[at.value];
    var space := CopyPointer(m, box.space, Text(l.content.metadataNamespace));
    var delimiter := CopyPointer(m, box.delimiter, Text(l.content.keyDelimiter));
    var a := m.NewBox(LabelBox(box.name, space, box.key, delimiter));
    return Some(a), LabelAt(a, space, delimiter, l.content);
  }

  /** What a copied list of labels looks like to a reader. */
  lemma LabelsRead(b: Boxes, b': Boxes, ls: seq<LabelTree>, gs: seq<LabelTree>, lo: nat, hi: nat)
    requires forall l | l in ls :: StoredLabel(b, l) && HousedLabel(l)
    requires forall l | l in gs :: StoredLabel(b', l) && HousedLabel(l)
    requires LabelsOf(gs) == LabelsOf(ls) && SeparateLabels(gs) && Within(FieldPlaces(LabelsField(Some(gs))), lo, hi)
    ensures var refs, rs := LabelRefs(ls), LabelRefs(gs);
            && |rs| == |refs|
            && (forall i | 0 <= i < |rs| ::
                  && (rs[i].None? <==> refs[i].None?)
                  && (rs[i].Some? ==> lo <= rs[i].value < hi && rs[i].value in b')
                  && LoadLabel(b', rs[i]) == LoadLabel(b, refs[i]))
            && (forall i, j | 0 <= i < j < |rs| && rs[i].Some? :: rs[i] != rs[j])
  {
    hide LoadLabel;
    var refs, rs := LabelRefs(ls), LabelRefs(gs);
    assert |LabelsOf(gs)| == |gs| && |LabelsOf(ls)| == |ls|;
    LoadStoredLabels(b, ls);
    LoadStoredLabels(b', gs);
    forall i | 0 <= i < |rs|
      ensures rs[i].None? <==> refs[i].None?
      ensures rs[i].Some? ==> lo <= rs[i].value < hi && rs[i].value in b'
      ensures LoadLabel(b', rs[i]) == LoadLabel(b, refs[i])
    {
      assert LabelsOf(gs)[i] == LabelsOf(ls)[i] && gs[i] in gs && ls[i] in ls;
      assert LabelPlaces(gs[i]) <= FieldPlaces(LabelsField(Some(gs)));
    }
    forall i, j | 0 <= i < j < |rs| && rs[i].Some? ensures rs[i] != rs[j] {
      assert LabelPlaces(gs[i]) !! LabelPlaces(gs[j]);
    }
  }

  /** The list of labels, with a new cell for each element that is not nil. */
  method CopyLabels(m: Memory, refs: seq<Ref>, ghost ls: seq<LabelTree>)
    returns (rs: seq<Ref>, ghost gs: seq<LabelTree>)
    requires m.Valid() && refs == LabelRefs(ls)
    requires forall l | l in ls :: StoredLabel(m.boxes, l) && HousedLabel(l)
    modifies m
    ensures Grew(old(m.Now()), m.Now())
    ensures rs == LabelRefs(gs) && LabelsOf(gs) == LabelsOf(ls) && SeparateLabels(gs)
    ensures forall l | l in gs :: StoredLabel(m.boxes, l) && HousedLabel(l)
    ensures Within(FieldPlaces(LabelsField(Some(gs))), old(m.next), m.next)
    // Nil for nil, and else a fresh cell of its own with the same label.
    ensures |rs| == |refs|
    ensures forall i | 0 <= i < |rs| ::
              && (rs[i].None? <==> refs[i].None?)
              && (rs[i].Some? ==> old(m.next) <= rs[i].value < m.next && rs[i].value in m.boxes)
              && LoadLabel(m.boxes, rs[i]) == LoadLabel(old(m.boxes), refs[i])
    ensures forall i, j | 0 <= i < j < |rs| && rs[i].Some? :: rs[i] != rs[j]
  {
    hide LoadLabel;
    rs, gs := [], [];
    for i := 0 to |refs|
      invariant Grew(old(m.Now()), m.Now()) && |rs| == |gs| == i && SeparateLabels(gs)
      invariant forall j | 0 <= j < i ::
                  && rs[j] == LabelRef(gs[j]) && LabelOf(gs[j]) == LabelOf(ls[j]) && HousedLabel(gs[j])
                  && StoredLabel(m.boxes, gs[j]) && Within(LabelPlaces(gs[j]), old(m.next), m.next)
    {
      ghost var mark := m.next;
      assert ls[i] in ls;
      var r;
      ghost var g;
      r, g := CopyLabel(m, refs[i], ls[i]);
      assert Within(LabelPlaces(g), mark, m.next);
      rs, gs := rs + [r], gs + [g];
    }
    assert rs == LabelRefs(gs) && LabelsOf(gs) == LabelsOf(ls);
    LabelsRead(old(m.boxes), m.boxes, ls, gs, old(m.next), m.next);
  }

  /** A new map with the same entries. */
  method CopyMap(m: Memory, table: nat) returns (a: nat)
    requires m.Valid() && table in m.cells && m.cells[table].MapCell?
    modifies m
    ensures Grew(old(m.Now()), m.Now()) && a == old(m.next) && m.next == a + 1
    ensures a in m.cells && m.cells[a] == old(m.cells)[table]
  {
    var entries, copy: StringMap, todo := m.cells[table].entries, map[], m.cells[table].entries.Keys;
    while todo != {}
      invariant todo <= entries.Keys && copy.Keys == entries.Keys - todo
      invariant forall k | k in copy :: copy[k] == entries[k]
      decreases |todo|
    {
      var k :| k in todo;
      copy, todo := copy[k := entries[k]], todo - {k};
    }
    assert copy == entries;
    a := m.NewCell(MapCell(copy));
  }

  method CopySlot(m: Memory, slot: Slot, ghost kind: Kind, ghost f: Field) returns (r: Slot, ghost g: Field)
    requires m.Valid() && slot == SlotOf(f) && StoredField(m.cells, m.boxes, f) && TypedTreeField(kind, f)
    modifies m
    ensures Grew(old(m.Now()), m.Now()) && LaidField(m.Now(), old(m.next), kind, FieldValue(f), r, g)
    decreases f
  {
    match slot
    case PlainSlot(_) =>
      r, g := slot, f;
    case PointerSlot(at) =>
      var copy := CopyPointer(m, at, f.leaf);
      r, g := PointerSlot(copy), PointerField(copy, f.leaf);
    case LabelsSlot(None) =>
      r, g := slot, f;
    case LabelsSlot(Some(refs)) =>
      var copies;
      ghost var ls;
      copies, ls := CopyLabels(m, refs, f.labels.value);
      r, g := LabelsSlot(Some(copies)), LabelsField(Some(ls));
    case MapSlot(None) =>
      r, g := slot, f;
    case MapSlot(Some(table)) =>
      var a := CopyMap(m, table);
      r, g := MapSlot(Some(a)), MapField(Some(a), f.entries);
    case NodeSlot(node) =>
      var copy;
      ghost var c;
      copy, c := DeepCopy(m, node, kind.node, f.tree);
      r, g := NodeSlot(copy), NodeField(c);
  }

  method CopyFields(m: Memory, slots: seq<Slot>, ghost t: Type, ghost tree: Tree)
    returns (copies: seq<Slot>, ghost fields: seq<Field>)
    requires m.Valid() && tree.Struct? && TypedTree(t, tree) && Stored(m.cells, m.boxes, tree)
    requires slots == m.cells[tree.addr].slots
    modifies m
    ensures Grew(old(m.Now()), m.Now()) && |fields| == |tree.fields|
    ensures Laid(m.Now(), old(m.next), t, ValueOf(tree).fields, copies, fields)
    decreases tree, 0
  {
    hide FieldKind, TypedTree, TypedTreeField, StoredField, FieldValue, LaidField, FieldPlaces, SlotOf;
    copies, fields := [], [];
    ghost var values := ValueOf(tree).fields;
    for i := 0 to |slots|
      invariant Grew(old(m.Now()), m.Now())
      invariant |copies| == i && Laid(m.Now(), old(m.next), t, values, copies, fields)
    {
      ghost var before := m.Now();
      StillStored(old(m.Now()), before, tree.fields[i]);
      TreeFieldTyped(t, tree, i);
      var slot;
      ghost var field;
      slot, field := CopySlot(m, slots[i], FieldKind(t, i), tree.fields[i]);
      LaidStep(before, m.Now(), old(m.next), t, values, copies, fields, slot, field);
      copies, fields := copies + [slot], fields + [field];
    }
  }

  lemma CopyReads(c: Cells, b: Boxes, c': Cells, b': Boxes, t: Type, tree: Tree, copy: Tree)
    requires Stored(c, b, tree) && TypedTree(t, tree) && Stored(c', b', copy) && TypedTree(t, copy)
    requires ValueOf(copy) == ValueOf(tree)
    ensures Load(c', b', RefOf(copy), t) == Load(c, b, RefOf(tree), t)
    ensures Reach(c', b', RefOf(copy), t) == Places(copy)
  {
    LoadStored(c, b, t, tree);
    LoadStored(c', b', t, copy);
    ReachStored(c', b', t, copy);
  }

  /** A deep copy holds the same configuration in memory of its own: nothing in it is
      reached twice, all of it is fresh, and everything that was there is as it was. */
  method DeepCopy(m: Memory, ref: Ref, ghost t: Type, ghost tree: Tree) returns (r: Ref, ghost c: Tree)
    requires m.Valid() && ref == RefOf(tree) && Stored(m.cells, m.boxes, tree) && TypedTree(t, tree)
    modifies m
    ensures Grew(old(m.Now()), m.Now()) && r == RefOf(c)
    ensures LaidTree(m.Now(), old(m.next), t, ValueOf(tree), c)
    // A reader finds the same configuration, and reaches fresh addresses only.
    ensures Load(m.cells, m.boxes, r, t) == Load(old(m.cells), old(m.boxes), ref, t)
    ensures forall a | a in Reach(m.cells, m.boxes, r, t) :: old(m.next) <= a < m.next
    decreases tree, 1
  {
    hide Laid, FieldKind, Width, Load, Reach;
    if ref.None? {
      CopyReads(m.cells, m.boxes, m.cells, m.boxes, t, tree, Absent);
      return None, Absent;
    }
    var copies;
    ghost var fields;
    copies, fields := CopyFields(m, m.cells[ref.value].slots, t, tree);
    ghost var before := m.Now();
    var a := m.NewCell(StructCell(copies));
    LaidDone(before, m.Now(), old(m.next), t, ValueOf(tree).fields, copies, fields);
    CopyReads(old(m.cells), old(m.boxes), m.cells, m.boxes, t, tree, Struct(a, fields));
    return Some(a), Struct(a, fields);
  }
}
