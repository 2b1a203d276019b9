/** The algebra of the merge on whole configurations, from the algebra of its leaves. */
module MergeAlgebra {
  import opened Options
  import opened GatewayParams
  import opened Schemas
  import opened Values
  import opened MergeView

  // ---- associativity ----

  predicate PresentButEmpty(x: Value)
  {
    x.LeafValue? &&
    (x.leaf == Labels(Some(map[])) || x.leaf == Items(Some([])) || x.leaf == CustomLabels(Some([])))
  }

  predicate ListsAssociate<T(==)>(x: Option<seq<T>>, y: Option<seq<T>>, z: Option<seq<T>>)
  {
    !(y == Some([]) && x.Some? && x.value != [] && z.Some? && z.value != [])
  }

  predicate MapsAssociate(x: Option<StringMap>, y: Option<StringMap>, z: Option<StringMap>)
  {
    !(y == Some(map[]) && x.Some? && z.Some? && z.value != map[] && !(x.value.Keys <= z.value.Keys))
  }

  /** Three leaves associate unless the middle one resets what the first holds while the
      last would have extended it. */
  predicate Associates(policy: Policy, a: Leaf, b: Leaf, c: Leaf)
  {
    match (policy, a, b, c)
    case (Append, Items(x), Items(y), Items(z)) => ListsAssociate(x, y, z)
    case (Append, CustomLabels(x), CustomLabels(y), CustomLabels(z)) => ListsAssociate(x, y, z)
    case (Union, Labels(x), Labels(y), Labels(z)) => MapsAssociate(x, y, z)
    case _ => true
  }

  lemma ListsAssociateExactly<T>(x: Option<seq<T>>, y: Option<seq<T>>, z: Option<seq<T>>)
    ensures AppendLists(AppendLists(x, y), z) == AppendLists(x, AppendLists(y, z)) <==> ListsAssociate(x, y, z)
  {
    if x.Some? && y.Some? && z.Some? {
      assert (x.value + y.value) + z.value == x.value + (y.value + z.value);
      assert y.value == [] ==> y.value + z.value == z.value;
      assert |x.value + z.value| == |x.value| + |z.value|;
    }
  }

  lemma MapsAssociateExactly(x: Option<StringMap>, y: Option<StringMap>, z: Option<StringMap>)
    ensures UnionMaps(UnionMaps(x, y), z) == UnionMaps(x, UnionMaps(y, z)) <==> MapsAssociate(x, y, z)
  {
    if x.Some? && y.Some? && z.Some? {
      assert (x.value + y.value) + z.value == x.value + (y.value + z.value);
      if y.value == map[] {
        assert y.value + z.value == z.value;
        assert (x.value + z.value).Keys == x.value.Keys + z.value.Keys;
        if x.value.Keys <= z.value.Keys { assert x.value + z.value == z.value; }
      } else {
        var k :| k in y.value;
        assert k in x.value + y.value && k in y.value + z.value;
      }
    }
  }

  lemma LeavesAssociate(policy: Policy, a: Leaf, b: Leaf, c: Leaf)
    requires SameSort(a, b) && SameSort(b, c) && Fits(policy, a)
    ensures Combine(policy, Combine(policy, a, b), c) == Combine(policy, a, Combine(policy, b, c))
            <==> Associates(policy, a, b, c)
  {
    if policy.Append? && a.Items? { ListsAssociateExactly(a.items, b.items, c.items); }
    if policy.Append? && a.CustomLabels? { ListsAssociateExactly(a.custom, b.custom, c.custom); }
    if policy.Union? { MapsAssociateExactly(a.labels, b.labels, c.labels); }
  }

  /** The leaves at a path associate; they do if one of them is below an absent node. */
  predicate AssociatesAt(a: Kube, b: Kube, c: Kube, p: Path)
    requires IsLeaf(ROOT, p)
  {
    At(a, p).LeafValue? && At(b, p).LeafValue? && At(c, p).LeafValue? ==>
      Associates(PolicyAt(ROOT, p), At(a, p).leaf, At(b, p).leaf, At(c, p).leaf)
  }

  lemma AtsAssociate(policy: Policy, a: Value, b: Value, c: Value, zero: Leaf)
    requires Fits(policy, zero)
    requires forall x | x in {a, b, c} :: x.Nil? || (x.LeafValue? && SameSort(zero, x.leaf))
    ensures var ab, bc := ReadsMerged(policy, a, b, a, b), ReadsMerged(policy, b, c, b, c);
            ReadsMerged(policy, ab, c, ab, c) == ReadsMerged(policy, a, bc, a, bc)
            <==> (a.LeafValue? && b.LeafValue? && c.LeafValue? ==> Associates(policy, a.leaf, b.leaf, c.leaf))
  {
    hide Combine, Associates;
    if a.LeafValue? && b.LeafValue? && c.LeafValue? { LeavesAssociate(policy, a.leaf, b.leaf, c.leaf); }
  }

  lemma OwnReadsAssociate(a: Kube, b: Kube, c: Kube, p: Path)
    requires IsLeaf(ROOT, p) && !Borrows(p)
    ensures At(Merge(Merge(a, b), c), p) == At(Merge(a, Merge(b, c)), p) <==> AssociatesAt(a, b, c, p)
  {
    hide At, Merge, KindAt, Source, Combine;
    KubeMergeReads(a, b, p);
    KubeMergeReads(Merge(a, b), c, p);
    KubeMergeReads(b, c, p);
    KubeMergeReads(a, Merge(b, c), p);
    AtIsLeaf(a, p);
    AtIsLeaf(b, p);
    AtIsLeaf(c, p);
    AtsAssociate(PolicyAt(ROOT, p), At(a, p), At(b, p), At(c, p), KindAt(NodeKind(ROOT), p).value.zero);
  }

  /** A leaf that borrows associates always: its source takes the last set value. */
  lemma BorrowedReadsAssociate(a: Kube, b: Kube, c: Kube, p: Path)
    requires IsLeaf(ROOT, p) && Borrows(p)
    ensures At(Merge(Merge(a, b), c), p) == At(Merge(a, Merge(b, c)), p) && AssociatesAt(a, b, c, p)
  {
    hide At, Merge, KindAt, Source;
    var q := Source(ROOT, p);
    LeafKindsSound(ROOT, p);
    forall k ensures IsLeaf(ROOT, q) && !Borrows(q) && PolicyAt(ROOT, q) == PolicyAt(ROOT, p)
                     && (At(k, q).Nil? <==> At(k, p).Nil?) && !At(k, p).Node? && !At(k, q).Node?
    {
      SourceIsLeaf(k, p);
      AtIsLeaf(k, p);
      AtIsLeaf(k, q);
    }
    KubeMergeReads(a, b, p);
    KubeMergeReads(Merge(a, b), c, p);
    KubeMergeReads(b, c, p);
    KubeMergeReads(a, Merge(b, c), p);
    KubeMergeReads(a, b, q);
    KubeMergeReads(b, c, q);
  }

  /** Merging three configurations associates exactly when every leaf does. */
  lemma MergeAssociatesExactly(a: Kube, b: Kube, c: Kube)
    ensures Merge(Merge(a, b), c) == Merge(a, Merge(b, c)) <==> forall p | IsLeaf(ROOT, p) :: AssociatesAt(a, b, c, p)
  {
    hide At, Merge, KindAt, Source, AssociatesAt;
    var l, r := Merge(Merge(a, b), c), Merge(a, Merge(b, c));
    forall p | IsLeaf(ROOT, p) ensures At(l, p) == At(r, p) <==> AssociatesAt(a, b, c, p) {
      if Borrows(p) { BorrowedReadsAssociate(a, b, c, p); } else { OwnReadsAssociate(a, b, c, p); }
    }
    if forall p | IsLeaf(ROOT, p) :: AssociatesAt(a, b, c, p) {
      forall p | IsNode(ROOT, p) ensures At(l, p).Node? == At(r, p).Node? {
        KubeMergeNodes(a, b, p);
        KubeMergeNodes(Merge(a, b), c, p);
        KubeMergeNodes(b, c, p);
        KubeMergeNodes(a, Merge(b, c), p);
      }
      KubeReadsDetermine(l, r);
    }
  }

  /** A middle override without present-but-empty collections can be merged either way. */
  lemma MergeAssociatesWithoutResets(a: Kube, b: Kube, c: Kube)
    requires forall p | IsLeaf(ROOT, p) :: !PresentButEmpty(At(b, p))
    ensures Merge(Merge(a, b), c) == Merge(a, Merge(b, c))
  {
    hide At, Merge, KindAt, Source;
    forall p | IsLeaf(ROOT, p) ensures AssociatesAt(a, b, c, p) {
      assert !PresentButEmpty(At(b, p));
    }
    MergeAssociatesExactly(a, b, c);
  }

  function WithSecrets(secrets: seq<Element>): Kube
  {
    Some(NO_KUBERNETES_PROXY_CONFIG.(podTemplate := Some(NO_POD.(imagePullSecrets := Some(secrets)))))
  }

  /** A reset in the middle: grouping decides whether the first list comes back. */
  lemma ResetDoesNotAssociate(x: Element, z: Element)
    ensures Merge(Merge(WithSecrets([x]), WithSecrets([])), WithSecrets([z])) == WithSecrets([z])
    ensures Merge(WithSecrets([x]), Merge(WithSecrets([]), WithSecrets([z]))) == WithSecrets([x, z])
  {
    assert [] + [z] == [z] && [x] + [z] == [x, z];
  }

  // ---- folding a list of overrides onto a default ----

  function MergeAll(base: Kube, overrides: seq<Kube>): Kube
  {
    if overrides == [] then base
    else Merge(MergeAll(base, overrides[..|overrides| - 1]), overrides[|overrides| - 1])
  }

  /** The trees of the fold; the default comes first. */
  function Layers(base: Kube, overrides: seq<Kube>): seq<Kube>
  {
    [base] + overrides
  }

  /** The fold of a leaf over the same leaf of all layers. */
  function CombineAll(policy: Policy, leaves: seq<Leaf>): Leaf
    requires |leaves| > 0
  {
    if |leaves| == 1 then leaves[0]
    else Combine(policy, CombineAll(policy, leaves[..|leaves| - 1]), leaves[|leaves| - 1])
  }

  function Gets(ks: seq<Kube>, p: Path): (r: seq<Leaf>)
    requires IsLeaf(ROOT, p)
    ensures |r| == |ks|
    ensures forall i | 0 <= i < |ks| :: r[i] == Get(ks[i], p)
  {
    seq(|ks|, i requires 0 <= i < |ks| => Get(ks[i], p))
  }

  lemma FrontGets(base: Kube, overrides: seq<Kube>, p: Path)
    requires |overrides| > 0 && IsLeaf(ROOT, p)
    ensures var n := |overrides|;
            && Layers(base, overrides)[..n] == Layers(base, overrides[..n - 1])
            && Gets(Layers(base, overrides), p)[..n] == Gets(Layers(base, overrides[..n - 1]), p)
            && Gets(Layers(base, overrides), p)[n] == Get(overrides[n - 1], p)
  {
    hide Get, IsLeaf;
    var n := |overrides|;
    assert Layers(base, overrides)[..n] == Layers(base, overrides[..n - 1]);
  }

  /** Folding configurations folds each leaf on its own. */
  lemma {:induction false} MergeAllGets(base: Kube, overrides: seq<Kube>, p: Path)
    requires IsLeaf(ROOT, p) && !Borrows(p) && !PolicyAt(ROOT, p).LastNonEmptyWins?
    ensures Get(MergeAll(base, overrides), p) == CombineAll(PolicyAt(ROOT, p), Gets(Layers(base, overrides), p))
    decreases |overrides|
  {
    hide Get, Merge, KindAt, Source, Combine;
    var n := |overrides|;
    if n == 0 {
    } else {
      MergeAllGets(base, overrides[..n - 1], p);
      KubeMergeGets(MergeAll(base, overrides[..n - 1]), overrides[n - 1], p);
      FrontGets(base, overrides, p);
    }
  }

  lemma {:induction false} LastSetLeaf(leaves: seq<Leaf>, k: nat)
    requires k < |leaves|
    requires forall j | k < j < |leaves| :: IsZero(leaves[j])
    requires !IsZero(leaves[k]) || k == 0
    ensures CombineAll(LastWins, leaves) == leaves[k]
    decreases |leaves|
  {
    var n := |leaves| - 1;
    if n == 0 || k == n {
    } else {
      LastSetLeaf(leaves[..n], k);
    }
  }

  lemma {:induction false} FirstSetLeaf(leaves: seq<Leaf>, k: nat)
    requires k < |leaves|
    requires forall j | 0 <= j < k :: IsZero(leaves[j])
    requires !IsZero(leaves[k]) || k == |leaves| - 1
    ensures CombineAll(FirstWins, leaves) == leaves[k]
    decreases |leaves|
  {
    var n := |leaves| - 1;
    if n == 0 {
    } else {
      FirstSetLeaf(leaves[..n], if k < n then k else n - 1);
    }
  }

  /** Every pointer leaf of the fold is the last non-nil one, and every plain leaf the last
      non-zero one; if no override sets it, it is the default's. */
  lemma LastSetWins(base: Kube, overrides: seq<Kube>, p: Path, k: nat)
    requires IsLeaf(ROOT, p) && PolicyAt(ROOT, p).LastWins? && !Borrows(p) && k <= |overrides|
    requires !IsZero(Get(Layers(base, overrides)[k], p)) || k == 0
    requires forall j: nat | k < j <= |overrides| :: IsZero(Get(Layers(base, overrides)[j], p))
    ensures Get(MergeAll(base, overrides), p) == Get(Layers(base, overrides)[k], p)
  {
    hide Get, Merge, KindAt, Source, Combine;
    MergeAllGets(base, overrides, p);
    LastSetLeaf(Gets(Layers(base, overrides), p), k);
  }

  /** Every protected Istio leaf of the fold is the first one that is set; if no layer sets
      it, it stays unset. */
  lemma FirstSetWins(base: Kube, overrides: seq<Kube>, p: Path, k: nat)
    requires IsLeaf(ROOT, p) && PolicyAt(ROOT, p).FirstWins? && k <= |overrides|
    requires !IsZero(Get(Layers(base, overrides)[k], p)) || k == |overrides|
    requires forall j: nat | j < k :: IsZero(Get(Layers(base, overrides)[j], p))
    ensures Get(MergeAll(base, overrides), p) == Get(Layers(base, overrides)[k], p)
  {
    hide Get, Merge, KindAt, Source, Combine;
    LeafKindsSound(ROOT, p);
    MergeAllGets(base, overrides, p);
    FirstSetLeaf(Gets(Layers(base, overrides), p), k);
  }

  /** No list of overrides can change a protected leaf the default has set. */
  lemma ProtectedNeverChanges(base: Kube, overrides: seq<Kube>, p: Path)
    requires IsLeaf(ROOT, p) && PolicyAt(ROOT, p).FirstWins? && !IsZero(Get(base, p))
    ensures Get(MergeAll(base, overrides), p) == Get(base, p)
  {
    hide Get, Merge, KindAt, Source;
    FirstSetWins(base, overrides, p, 0);
  }

  // ---- the leaf that borrows: the credential-spec name ----

  /** The number of layers that have the node around a leaf. */
  function Holders(ks: seq<Kube>, p: Path): nat
  {
    if ks == [] then 0 else Holders(ks[..|ks| - 1], p) + if At(ks[|ks| - 1], p).Nil? then 0 else 1
  }

  /** One merge of a leaf that borrows. */
  lemma BorrowedGet(dst: Kube, src: Kube, p: Path)
    requires IsLeaf(ROOT, p) && Borrows(p)
    ensures var q := Source(ROOT, p);
            && IsLeaf(ROOT, q) && !Borrows(q) && PolicyAt(ROOT, q).LastWins?
            && (At(Merge(dst, src), p).Nil? <==> At(dst, p).Nil? && At(src, p).Nil?)
            && (At(src, p).Nil? ==>
                  Get(Merge(dst, src), p) == Get(dst, p) && IsZero(Get(src, p)) && IsZero(Get(src, q)))
            && (At(dst, p).Nil? ==>
                  Get(Merge(dst, src), p) == Combine(LastWins, Get(dst, p), Get(src, p)) && IsZero(Get(dst, p)))
            && (!At(dst, p).Nil? && !At(src, p).Nil? ==>
                  Get(Merge(dst, src), p) == Combine(LastWins, Get(dst, q), Get(src, q)))
  {
    hide At, Merge, KindAt, Source, SameSort;
    var q := Source(ROOT, p);
    KubeMergeReads(dst, src, p);
    LeafKindsSound(ROOT, p);
    SourceIsLeaf(dst, p);
    SourceIsLeaf(src, p);
    AtIsLeaf(dst, p);
    AtIsLeaf(src, p);
    AtIsLeaf(dst, q);
    AtIsLeaf(src, q);
    ZeroesAgree(Get(dst, p), Get(src, p), KindAt(NodeKind(ROOT), p).value.zero);
  }

  lemma ZeroesAgree(x: Leaf, y: Leaf, zero: Leaf)
    requires SameSort(zero, x) && SameSort(zero, y)
    ensures IsZero(x) && IsZero(y) ==> x == y
  {}

  lemma HoldersStep(base: Kube, overrides: seq<Kube>, p: Path)
    requires |overrides| > 0
    ensures var n := |overrides|;
            Holders(Layers(base, overrides), p) ==
            Holders(Layers(base, overrides[..n - 1]), p) + if At(overrides[n - 1], p).Nil? then 0 else 1
  {
    hide At;
    assert Layers(base, overrides)[..|overrides|] == Layers(base, overrides[..|overrides| - 1]);
  }

  lemma {:induction false} BorrowedGetAll(base: Kube, overrides: seq<Kube>, p: Path)
    requires IsLeaf(ROOT, p) && Borrows(p)
    ensures IsLeaf(ROOT, Source(ROOT, p))
    ensures At(MergeAll(base, overrides), p).Nil? <==> Holders(Layers(base, overrides), p) == 0
    ensures Get(MergeAll(base, overrides), p) ==
            CombineAll(LastWins, Gets(Layers(base, overrides),
                                      if Holders(Layers(base, overrides), p) <= 1 then p else Source(ROOT, p)))
    decreases |overrides|
  {
    hide At, Get, Merge, KindAt, Source, SameSort;
    var n, q := |overrides|, Source(ROOT, p);
    if n == 0 {
      BorrowedGet(base, base, p);
      assert Layers(base, overrides) == [base] && Holders([], p) == 0;
    } else {
      var front, last := overrides[..n - 1], overrides[n - 1];
      BorrowedGetAll(base, front, p);
      BorrowedGet(MergeAll(base, front), last, p);
      MergeAllGets(base, front, q);
      FrontGets(base, overrides, p);
      FrontGets(base, overrides, q);
      HoldersStep(base, overrides, p);
    }
  }

  /** Over any fold, the credential-spec name is the last name set if and only if at most
      one layer has the node around it, or the last spec set is that name. */
  lemma NameRightExactly(base: Kube, overrides: seq<Kube>, p: Path)
    requires IsLeaf(ROOT, p) && Borrows(p)
    ensures IsLeaf(ROOT, Source(ROOT, p))
    ensures var layers := Layers(base, overrides);
            var names, specs := Gets(layers, p), Gets(layers, Source(ROOT, p));
            Get(MergeAll(base, overrides), p) == CombineAll(LastWins, names) <==>
            Holders(layers, p) <= 1 || CombineAll(LastWins, specs) == CombineAll(LastWins, names)
  {
    hide At, Get, Merge, KindAt, Source;
    BorrowedGetAll(base, overrides, p);
  }

  function WithPodWindows(w: WindowsOptions): Kube
  {
    var security := NO_POD_SECURITY_CONTEXT.(windowsOptions := Some(w));
    Some(NO_KUBERNETES_PROXY_CONFIG.(podTemplate := Some(NO_POD.(securityContext := Some(security)))))
  }

  /** For example, a name set without a spec is lost to an override whose Windows options set
      nothing. */
  lemma NameCanBeLost(name: string)
    ensures var k := Merge(WithPodWindows(WindowsOptions(Some(name), None, None, None)),
                           WithPodWindows(WindowsOptions(None, None, None, None)));
            Get(k, PodWindowsPath(0)) == Text(None)
  {
    var k := WithPodWindows(WindowsOptions(None, None, None, None));
    WindowsLeaves(k, 0);
    assert Merge(WithPodWindows(WindowsOptions(Some(name), None, None, None)), k) == k;
  }

  // ---- applying one override twice ----

  /** A list leaf with one more copy of the override's list behind it. */
  function WithOneMoreCopy(once: Leaf, src: Leaf): Leaf
  {
    match (once, src)
    case (Items(Some(xs)), Items(Some(ys))) => Items(Some(xs + ys))
    case (CustomLabels(Some(xs)), CustomLabels(Some(ys))) => CustomLabels(Some(xs + ys))
    case _ => once
  }

  /** The override has something to append here. */
  predicate Appends(src: Kube, p: Path)
    requires IsLeaf(ROOT, p)
  {
    && PolicyAt(ROOT, p).Append?
    && Get(src, p) != Items(Some([])) && Get(src, p) != CustomLabels(Some([])) && !IsZero(Get(src, p))
  }

  /** Grafting copies a credential-spec name that the next merge replaces by the spec. */
  predicate GraftedNameDiffers(dst: Kube, src: Kube, p: Path)
    requires IsLeaf(ROOT, p)
  {
    Borrows(p) && At(dst, p).Nil? && At(src, p) != At(src, Source(ROOT, p))
  }

  lemma CombineTwice(policy: Policy, d: Leaf, s: Leaf)
    requires SameSort(d, s) && Fits(policy, d)
    ensures var once := Combine(policy, d, s);
            && (policy.Append? ==> Combine(policy, once, s) == WithOneMoreCopy(once, s))
            && (!policy.Append? ==> Combine(policy, once, s) == once)
  {
    if policy.Append? && s.Items? && s.items == Some([]) { assert s.items.value + s.items.value == []; }
    if policy.Append? && s.CustomLabels? && s.custom == Some([]) { assert s.custom.value + s.custom.value == []; }
    if policy.Union? && s.labels.Some? {
      assert s.labels.value + s.labels.value == s.labels.value;
      if d.labels.Some? {
        assert (d.labels.value + s.labels.value) + s.labels.value == d.labels.value + s.labels.value;
      }
    }
  }

  lemma GraftTwice(policy: Policy, s: Leaf)
    requires Fits(policy, s)
    ensures policy.Append? ==> Combine(policy, s, s) == WithOneMoreCopy(s, s)
    ensures !policy.Append? ==> Combine(policy, s, s) == s
  {
    if policy.Append? && s == Items(Some([])) { assert s.items.value + s.items.value == []; }
    if policy.Append? && s == CustomLabels(Some([])) { assert s.custom.value + s.custom.value == []; }
    if policy.Union? && s.labels.Some? { assert s.labels.value + s.labels.value == s.labels.value; }
  }

  lemma CopyChangesNothing(once: Leaf, s: Leaf)
    requires SameSort(once, s) && (s.Items? || s.CustomLabels?) && (IsZero(once) ==> IsZero(s))
    ensures WithOneMoreCopy(once, s) == once <==> IsZero(s) || s == Items(Some([])) || s == CustomLabels(Some([]))
  {
    if s.Items? && s.items.Some? {
      assert |once.items.value + s.items.value| == |once.items.value| + |s.items.value|;
      if s.items.value == [] { assert once.items.value + [] == once.items.value; }
    }
    if s.CustomLabels? && s.custom.Some? {
      assert |once.custom.value + s.custom.value| == |once.custom.value| + |s.custom.value|;
      if s.custom.value == [] { assert once.custom.value + [] == once.custom.value; }
    }
  }

  lemma AppendTwice(dst: Kube, src: Kube, p: Path)
    requires IsLeaf(ROOT, p) && PolicyAt(ROOT, p).Append?
    ensures var once, twice := Merge(dst, src), Merge(Merge(dst, src), src);
            && Get(twice, p) == WithOneMoreCopy(Get(once, p), Get(src, p))
            && (At(twice, p) == At(once, p) <==> !Appends(src, p))
  {
    hide At, Merge, KindAt, Source, SameSort;
    var once := Merge(dst, src);
    LeafKindsSound(ROOT, p);
    AtIsLeaf(dst, p);
    AtIsLeaf(src, p);
    AtIsLeaf(once, p);
    AtIsLeaf(Merge(once, src), p);
    KubeMergeReads(dst, src, p);
    KubeMergeReads(once, src, p);
    KubeMergeGets(dst, src, p);
    KubeMergeGets(once, src, p);
    AppendCase(Get(dst, p), Get(src, p), KindAt(NodeKind(ROOT), p).value.zero);
  }

  lemma AppendCase(d: Leaf, s: Leaf, zero: Leaf)
    requires SameSort(zero, d) && SameSort(zero, s) && Fits(Append, zero)
    ensures var once := Combine(Append, d, s);
            && Combine(Append, once, s) == WithOneMoreCopy(once, s)
            && (Combine(Append, once, s) == once <==>
                  IsZero(s) || s == Items(Some([])) || s == CustomLabels(Some([])))
  {
    CombineTwice(Append, d, s);
    CopyChangesNothing(Combine(Append, d, s), s);
  }

  lemma OwnTwice(dst: Kube, src: Kube, p: Path)
    requires IsLeaf(ROOT, p) && !PolicyAt(ROOT, p).Append? && !Borrows(p)
    ensures At(Merge(Merge(dst, src), src), p) == At(Merge(dst, src), p)
  {
    hide At, Merge, KindAt, Source, Combine, SameSort;
    KubeMergeReads(dst, src, p);
    KubeMergeReads(Merge(dst, src), src, p);
    AtIsLeaf(dst, p);
    AtIsLeaf(src, p);
    if At(src, p).LeafValue? {
      OneSort(At(src, p).leaf, At(src, p).leaf, KindAt(NodeKind(ROOT), p).value.zero, PolicyAt(ROOT, p));
      GraftTwice(PolicyAt(ROOT, p), At(src, p).leaf);
      if At(dst, p).LeafValue? {
        OneSort(At(dst, p).leaf, At(src, p).leaf, KindAt(NodeKind(ROOT), p).value.zero, PolicyAt(ROOT, p));
        CombineTwice(PolicyAt(ROOT, p), At(dst, p).leaf, At(src, p).leaf);
      }
    }
  }

  lemma OneSort(x: Leaf, y: Leaf, zero: Leaf, policy: Policy)
    requires SameSort(zero, x) && SameSort(zero, y) && Fits(policy, zero)
    ensures SameSort(x, y) && Fits(policy, x)
  {}

  lemma BorrowedTwice(dst: Kube, src: Kube, p: Path)
    requires IsLeaf(ROOT, p) && Borrows(p)
    ensures At(Merge(Merge(dst, src), src), p) == At(Merge(dst, src), p) <==> !GraftedNameDiffers(dst, src, p)
  {
    hide At, Merge, KindAt, Source;
    var q, once := Source(ROOT, p), Merge(dst, src);
    LeafKindsSound(ROOT, p);
    forall k ensures IsLeaf(ROOT, q) && !Borrows(q) && PolicyAt(ROOT, q) == PolicyAt(ROOT, p)
                     && (At(k, q).Nil? <==> At(k, p).Nil?) && !At(k, p).Node? && !At(k, q).Node?
    {
      SourceIsLeaf(k, p);
      AtIsLeaf(k, p);
      AtIsLeaf(k, q);
    }
    KubeMergeReads(dst, src, p);
    KubeMergeReads(once, src, p);
    KubeMergeReads(dst, src, q);
  }

  /** The second application changes the appended lists only: each gains exactly one more
      copy of the override's list.  The credential-spec name is the one exception. */
  lemma MergeTwice(dst: Kube, src: Kube, p: Path)
    requires IsLeaf(ROOT, p)
    ensures var once, twice := Merge(dst, src), Merge(Merge(dst, src), src);
            && (PolicyAt(ROOT, p).Append? ==> Get(twice, p) == WithOneMoreCopy(Get(once, p), Get(src, p)))
            && (At(twice, p) == At(once, p) <==> !Appends(src, p) && !GraftedNameDiffers(dst, src, p))
  {
    hide At, Get, Merge, KindAt, Source;
    LeafKindsSound(ROOT, p);
    if PolicyAt(ROOT, p).Append? { AppendTwice(dst, src, p); }
    else if Borrows(p) { BorrowedTwice(dst, src, p); }
    else { OwnTwice(dst, src, p); }
  }

  /** Merging is idempotent exactly when the override appends nothing and grafts no
      credential-spec name that differs from its spec. */
  lemma MergeIdempotentExactly(dst: Kube, src: Kube)
    ensures Merge(Merge(dst, src), src) == Merge(dst, src) <==>
            forall p | IsLeaf(ROOT, p) :: !Appends(src, p) && !GraftedNameDiffers(dst, src, p)
  {
    hide At, Get, Merge, KindAt, Source;
    var once, twice := Merge(dst, src), Merge(Merge(dst, src), src);
    forall p | IsLeaf(ROOT, p)
      ensures At(twice, p) == At(once, p) <==> !Appends(src, p) && !GraftedNameDiffers(dst, src, p)
    {
      MergeTwice(dst, src, p);
    }
    forall p | IsNode(ROOT, p) ensures At(twice, p).Node? == At(once, p).Node? {
      KubeMergeNodes(dst, src, p);
      KubeMergeNodes(once, src, p);
    }
    if forall p | IsLeaf(ROOT, p) :: At(twice, p) == At(once, p) { KubeReadsDetermine(twice, once); }
  }

  // ---- custom sidecars over a fold ----

  /** Up to nil versus empty, a fold ends with the last non-empty list of sidecars. */
  lemma {:induction false} LastSidecarsWin(base: Kube, overrides: seq<Kube>, p: Path, k: nat)
    requires IsLeaf(ROOT, p) && PolicyAt(ROOT, p).LastNonEmptyWins? && k <= |overrides|
    requires ListOf(Get(Layers(base, overrides)[k], p)) != [] || k == 0
    requires forall j: nat | k < j <= |overrides| :: ListOf(Get(Layers(base, overrides)[j], p)) == []
    ensures ListOf(Get(MergeAll(base, overrides), p)) == ListOf(Get(Layers(base, overrides)[k], p))
    decreases |overrides|
  {
    hide Get, Merge, KindAt, Source;
    var n := |overrides|;
    if n == 0 {
    } else {
      var front := overrides[..n - 1];
      SidecarsUpToNil(MergeAll(base, front), overrides[n - 1], p);
      assert Layers(base, overrides)[..n] == Layers(base, front);
      assert Layers(base, overrides)[n] == overrides[n - 1];
      if k < n { LastSidecarsWin(base, front, p, k); }
    }
  }
}
