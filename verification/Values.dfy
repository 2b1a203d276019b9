/** Configurations as generic trees, their merge as the schema prescribes it, and what is
    read from a merged tree.  Module Encoding ties generic trees to GatewayParams. */
module Values {
  import opened Options
  import opened GatewayParams
  import opened Schemas

  datatype Value = LeafValue(leaf: Leaf) | Nil | Node(fields: seq<Value>)

  ghost predicate TypedField(kind: Kind, v: Value)
    decreases v
  {
    match kind
    case LeafKind(_, zero, _) => v.LeafValue? && SameSort(zero, v.leaf)
    case NodeKind(t) => !v.LeafValue? && Typed(t, v)
  }

  ghost predicate Typed(t: Type, v: Value)
    decreases v, 0
  {
    v.Nil? ||
    (v.Node? && |v.fields| == Width(t) && forall i: nat | i < |v.fields| :: TypedField(FieldKind(t, i), v.fields[i]))
  }

  function MergeValues(t: Type, d: Value, s: Value): Value
    decreases d, 1
  {
    if s.Nil? then d
    else if d.Nil? then s
    else if d.Node? && s.Node? && |d.fields| == |s.fields| then
      Node(seq(|d.fields|, i requires 0 <= i < |d.fields| => MergeFields(t, d.fields, s.fields, i)))
    else d
  }

  function MergeFields(t: Type, d: seq<Value>, s: seq<Value>, i: nat): Value
    requires |d| == |s| && i < |d|
    decreases d, 0
  {
    match FieldKind(t, i)
    case LeafKind(policy, _, ahead) =>
      if i + ahead < |d| && d[i + ahead].LeafValue? && s[i + ahead].LeafValue?
      then LeafValue(Combine(policy, d[i + ahead].leaf, s[i + ahead].leaf))
      else d[i]
    case NodeKind(child) => MergeValues(child, d[i], s[i])
  }

  /** The nil rules and the fields together determine the merge of a struct. */
  lemma RowsMerge(t: Type, d: Value, s: Value, m: Value)
    requires s.Nil? ==> m == d
    requires d.Nil? && !s.Nil? ==> m == s
    requires !d.Nil? && !s.Nil? ==>
               && d.Node? && s.Node? && m.Node? && |d.fields| == |s.fields| == |m.fields|
               && forall i: nat | i < |d.fields| :: MergeFields(t, d.fields, s.fields, i) == m.fields[i]
    ensures MergeValues(t, d, s) == m
  {
    if d.Node? && s.Node? { assert MergeValues(t, d, s).fields == m.fields; }
  }

  lemma LeafRules()
    ensures forall d, s :: Combine(LastWins, Text(d), Text(s)) == Text(LastSet(d, s))
    ensures forall d, s :: Combine(LastWins, Number(d), Number(s)) == Number(LastSet(d, s))
    ensures forall d, s :: Combine(LastWins, Flag(d), Flag(s)) == Flag(LastSet(d, s))
    ensures forall d, s :: Combine(LastWins, Items(d), Items(s)) == Items(LastSet(d, s))
    ensures forall d, s :: Combine(LastWins, PlainText(d), PlainText(s)) == PlainText(LastNonZero("", d, s))
    ensures forall d, s :: Combine(LastWins, PlainNumber(d), PlainNumber(s)) == PlainNumber(LastNonZero(0, d, s))
    ensures forall d, s :: Combine(LastWins, PlainPort(d), PlainPort(s)) == PlainPort(LastNonZero(ZERO_PORT, d, s))
    ensures forall d, s :: Combine(FirstWins, Text(d), Text(s)) == Text(FirstSet(d, s))
    ensures forall d, s :: Combine(Union, Labels(d), Labels(s)) == Labels(UnionMaps(d, s))
    ensures forall d, s :: Combine(Append, Items(d), Items(s)) == Items(AppendLists(d, s))
    ensures forall d, s :: Combine(Append, CustomLabels(d), CustomLabels(s)) == CustomLabels(AppendLists(d, s))
    ensures forall d, s :: Combine(LastNonEmptyWins, Items(d), Items(s)) == Items(LastNonEmpty(d, s))
  {}

  // ---- reading along a path ----

  /** The fields to follow from the root down, by their positions. */
  datatype Path = Here | Into(i: nat, rest: Path)

  /** Below a nil pointer every read is nil. */
  function Read(v: Value, p: Path): Value
    decreases p
  {
    match p
    case Here => v
    case Into(i, rest) => if v.Node? && i < |v.fields| then Read(v.fields[i], rest) else Nil
  }

  /** What the schema says about a path; none if it leads nowhere. */
  function KindAt(kind: Kind, p: Path): Option<Kind>
    decreases p
  {
    match p
    case Here => Some(kind)
    case Into(i, rest) =>
      if kind.NodeKind? && i < Width(kind.node) then KindAt(FieldKind(kind.node, i), rest) else None
  }

  predicate IsNode(t: Type, p: Path)
  {
    var k := KindAt(NodeKind(t), p);
    k.Some? && k.value.NodeKind?
  }

  predicate IsLeaf(t: Type, p: Path)
  {
    var k := KindAt(NodeKind(t), p);
    k.Some? && k.value.LeafKind?
  }

  function PolicyAt(t: Type, p: Path): Policy
    requires IsLeaf(t, p)
  {
    KindAt(NodeKind(t), p).value.policy
  }

  /** The leaf whose values the merge of this one reads: itself, or a leaf further on in
      the same struct. */
  function Source(t: Type, p: Path): Path
    requires IsLeaf(t, p)
    decreases p
  {
    var Into(i, rest) := p;
    match FieldKind(t, i)
    case LeafKind(_, _, ahead) => Into(i + ahead, Here)
    case NodeKind(child) => Into(i, Source(child, rest))
  }

  /** A field borrows only from a leaf of its own sort and policy, which borrows nothing. */
  lemma FieldKindsSound(t: Type, i: nat)
    requires i < Width(t) && FieldKind(t, i).LeafKind?
    ensures IsZero(FieldKind(t, i).zero) && Fits(FieldKind(t, i).policy, FieldKind(t, i).zero)
    ensures var j := i + FieldKind(t, i).ahead;
            j < Width(t) && FieldKind(t, j) == FieldKind(t, i).(ahead := 0)
    ensures FieldKind(t, i).ahead != 0 ==> FieldKind(t, i).policy.LastWins? && FieldKind(t, i).zero.Text?
  {}

  lemma FieldTyped(t: Type, v: Value, i: nat)
    requires Typed(t, v) && v.Node? && i < Width(t)
    ensures i < |v.fields| && TypedField(FieldKind(t, i), v.fields[i])
  {}

  lemma FieldMerged(t: Type, d: Value, s: Value, i: nat)
    requires Typed(t, d) && Typed(t, s) && d.Node? && s.Node? && i < Width(t)
    ensures var m := MergeValues(t, d, s);
            && m.Node? && i < |m.fields| == |d.fields| == |s.fields|
            && m.fields[i] == MergeFields(t, d.fields, s.fields, i)
  {}

  /** One step along a path. */
  lemma PathStep(t: Type, p: Path)
    requires KindAt(NodeKind(t), p).Some? && p.Into?
    ensures p.i < Width(t)
    ensures FieldKind(t, p.i).LeafKind? ==> p.rest.Here?
    ensures KindAt(NodeKind(t), p) == KindAt(FieldKind(t, p.i), p.rest)
  {
    hide FieldKind, Width;
    assert p.rest.Into? ==> KindAt(FieldKind(t, p.i), p.rest) == None || FieldKind(t, p.i).NodeKind?;
  }

  lemma FieldPath(t: Type, v: Value, i: nat)
    requires i < Width(t)
    ensures KindAt(NodeKind(t), Into(i, Here)) == Some(FieldKind(t, i))
    ensures Read(v, Into(i, Here)) == if v.Node? && i < |v.fields| then v.fields[i] else Nil
  {
    hide FieldKind, Width;
    assert KindAt(FieldKind(t, i), Here) == Some(FieldKind(t, i));
    assert v.Node? && i < |v.fields| ==> Read(v.fields[i], Here) == v.fields[i];
  }

  /** Reads are of the kind the schema says, or nil below an absent node. */
  lemma {:induction false} TypedRead(t: Type, v: Value, p: Path)
    requires Typed(t, v) && KindAt(NodeKind(t), p).Some?
    ensures Read(v, p).Nil? || TypedField(KindAt(NodeKind(t), p).value, Read(v, p))
    decreases p
  {
    hide FieldKind, Width;
    if p.Here? || v.Nil? {
    } else {
      PathStep(t, p);
      FieldTyped(t, v, p.i);
      if FieldKind(t, p.i).NodeKind? { TypedRead(FieldKind(t, p.i).node, v.fields[p.i], p.rest); }
    }
  }

  /** A leaf and its source are in one struct: both are read, or neither. */
  lemma {:induction false} SourceRead(t: Type, v: Value, p: Path)
    requires Typed(t, v) && IsLeaf(t, p)
    ensures IsLeaf(t, Source(t, p))
    ensures KindAt(NodeKind(t), Source(t, p)).value == KindAt(NodeKind(t), p).value.(ahead := 0)
    ensures Read(v, p).Nil? <==> Read(v, Source(t, p)).Nil?
    decreases p
  {
    hide FieldKind, Width;
    var i := p.i;
    PathStep(t, p);
    match FieldKind(t, i)
    case LeafKind(_, _, ahead) =>
      FieldKindsSound(t, i);
      FieldPath(t, v, i);
      FieldPath(t, v, i + ahead);
      if v.Node? {
        FieldTyped(t, v, i);
        FieldTyped(t, v, i + ahead);
      }
    case NodeKind(child) =>
      if v.Node? { FieldTyped(t, v, i); }
      SourceRead(child, if v.Node? then v.fields[i] else Nil, p.rest);
  }

  /** What is read at a leaf of the merge: one side below a node only that side has, else
      the policy applied to the reads of the source. */
  function ReadsMerged(policy: Policy, x: Value, y: Value, dst: Value, src: Value): Value
  {
    if y.Nil? then x
    else if x.Nil? then y
    else if dst.LeafValue? && src.LeafValue? then LeafValue(Combine(policy, dst.leaf, src.leaf))
    else x
  }

  lemma NilReads(p: Path)
    ensures Read(Nil, p) == Nil
  {}

  /** Merging commutes with reading at every leaf, whichever nodes on the way are nil. */
  lemma {:induction false} MergeReads(t: Type, d: Value, s: Value, p: Path)
    requires Typed(t, d) && Typed(t, s) && IsLeaf(t, p)
    ensures var q := Source(t, p);
            Read(MergeValues(t, d, s), p) ==
            ReadsMerged(PolicyAt(t, p), Read(d, p), Read(s, p), Read(d, q), Read(s, q))
    decreases p
  {
    hide FieldKind, Width, Combine;
    if d.Node? && s.Node? {
      var i := p.i;
      PathStep(t, p);
      FieldMerged(t, d, s, i);
      FieldTyped(t, d, i);
      FieldTyped(t, s, i);
      match FieldKind(t, i)
      case NodeKind(child) => MergeReads(child, d.fields[i], s.fields[i], p.rest);
      case LeafKind(_, _, ahead) =>
        FieldKindsSound(t, i);
        FieldTyped(t, d, i + ahead);
        FieldTyped(t, s, i + ahead);
        FieldPath(t, d, i + ahead);
        FieldPath(t, s, i + ahead);
    } else {
      NilReads(p);
      NilReads(Source(t, p));
    }
  }

  /** A node of the merge is there exactly when one of the two has it. */
  lemma {:induction false} MergeReadsNode(t: Type, d: Value, s: Value, p: Path)
    requires Typed(t, d) && Typed(t, s) && IsNode(t, p)
    ensures Read(MergeValues(t, d, s), p).Node? <==> Read(d, p).Node? || Read(s, p).Node?
    decreases p
  {
    hide FieldKind, Width;
    if p.Here? || d.Nil? || s.Nil? {
    } else {
      PathStep(t, p);
      FieldMerged(t, d, s, p.i);
      FieldTyped(t, d, p.i);
      FieldTyped(t, s, p.i);
      MergeReadsNode(FieldKind(t, p.i).node, d.fields[p.i], s.fields[p.i], p.rest);
    }
  }

  /** The reads at all leaves, and which nodes are there, determine a tree. */
  lemma {:induction false} ReadsDetermine(t: Type, v: Value, w: Value)
    requires Typed(t, v) && Typed(t, w)
    requires forall p | IsLeaf(t, p) :: Read(v, p) == Read(w, p)
    requires forall p | IsNode(t, p) :: Read(v, p).Node? == Read(w, p).Node?
    ensures v == w
    decreases v
  {
    hide FieldKind, Width;
    assert IsNode(t, Here) && Read(v, Here) == v && Read(w, Here) == w;
    if v.Nil? {
    } else {
      forall i: nat | i < |v.fields| ensures v.fields[i] == w.fields[i] {
        FieldTyped(t, v, i);
        FieldTyped(t, w, i);
        match FieldKind(t, i)
        case LeafKind(_, _, _) =>
          FieldPath(t, v, i);
          FieldPath(t, w, i);
          assert IsLeaf(t, Into(i, Here));
        case NodeKind(child) =>
          forall p | IsLeaf(child, p) ensures Read(v.fields[i], p) == Read(w.fields[i], p) {
            assert IsLeaf(t, Into(i, p)) && Read(v, Into(i, p)) == Read(w, Into(i, p));
          }
          forall p | IsNode(child, p) ensures Read(v.fields[i], p).Node? == Read(w.fields[i], p).Node? {
            assert IsNode(t, Into(i, p)) && Read(v, Into(i, p)).Node? == Read(w, Into(i, p)).Node?;
          }
          ReadsDetermine(child, v.fields[i], w.fields[i]);
      }
    }
  }
}
