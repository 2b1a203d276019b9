/** Reading configurations leaf by leaf: merging commutes with reading at every path, and
    the reads at all paths determine the configuration. */
module MergeView {
  import opened Options
  import opened GatewayParams
  import opened Schemas
  import opened Values
  import opened Encoding

  type Kube = Option<KubernetesProxyConfig>

  const ROOT := KubernetesProxyConfigType

  function Merge(dst: Kube, src: Kube): Kube
  {
    MergeKubernetesProxyConfig(dst, src)
  }

  /** What is found at a path: nil below an absent node. */
  function At(k: Kube, p: Path): Value
  {
    Read(EncodeKubernetesProxyConfig(k), p)
  }

  /** A leaf through nil-safe getters: below an absent node it is zero. */
  function Get(k: Kube, p: Path): Leaf
    requires IsLeaf(ROOT, p)
  {
    if At(k, p).LeafValue? then At(k, p).leaf else KindAt(NodeKind(ROOT), p).value.zero
  }

  /** The merge of this leaf reads another leaf. */
  predicate Borrows(p: Path)
    requires IsLeaf(ROOT, p)
  {
    Source(ROOT, p) != p
  }

  lemma AtIsLeaf(k: Kube, p: Path)
    requires IsLeaf(ROOT, p)
    ensures At(k, p).Nil? || (At(k, p).LeafValue? && SameSort(KindAt(NodeKind(ROOT), p).value.zero, At(k, p).leaf))
    ensures SameSort(KindAt(NodeKind(ROOT), p).value.zero, Get(k, p))
    ensures IsZero(KindAt(NodeKind(ROOT), p).value.zero)
    ensures Fits(PolicyAt(ROOT, p), KindAt(NodeKind(ROOT), p).value.zero)
    ensures At(k, p).Nil? ==> IsZero(Get(k, p))
  {
    hide EncodeKubernetesProxyConfig, FieldKind, Width;
    KubernetesProxyConfigTyped(k);
    TypedRead(ROOT, EncodeKubernetesProxyConfig(k), p);
    LeafKindsSound(ROOT, p);
  }

  /** A leaf that borrows takes the last value set at its source, which borrows nothing. */
  lemma {:induction false} LeafKindsSound(t: Type, p: Path)
    requires IsLeaf(t, p)
    ensures IsZero(KindAt(NodeKind(t), p).value.zero)
    ensures Fits(PolicyAt(t, p), KindAt(NodeKind(t), p).value.zero)
    ensures Source(t, p) == p <==> KindAt(NodeKind(t), p).value.ahead == 0
    ensures Source(t, p) != p ==> PolicyAt(t, p).LastWins?
    decreases p
  {
    hide FieldKind, Width;
    PathStep(t, p);
    match FieldKind(t, p.i)
    case LeafKind(_, _, _) => FieldKindsSound(t, p.i);
    case NodeKind(child) => LeafKindsSound(child, p.rest);
  }

  lemma SourceIsLeaf(k: Kube, p: Path)
    requires IsLeaf(ROOT, p)
    ensures var q := Source(ROOT, p);
            && IsLeaf(ROOT, q) && !Borrows(q) && PolicyAt(ROOT, q) == PolicyAt(ROOT, p)
            && (At(k, q).Nil? <==> At(k, p).Nil?)
            && KindAt(NodeKind(ROOT), q).value.zero == KindAt(NodeKind(ROOT), p).value.zero
  {
    hide EncodeKubernetesProxyConfig, FieldKind, Width;
    KubernetesProxyConfigTyped(k);
    SourceRead(ROOT, EncodeKubernetesProxyConfig(k), p);
    LeafKindsSound(ROOT, Source(ROOT, p));
  }

  /** Merging commutes with reading at every leaf, whichever nodes on the way are nil. */
  lemma KubeMergeReads(dst: Kube, src: Kube, p: Path)
    requires IsLeaf(ROOT, p)
    ensures var q := Source(ROOT, p);
            At(Merge(dst, src), p) == ReadsMerged(PolicyAt(ROOT, p), At(dst, p), At(src, p), At(dst, q), At(src, q))
  {
    hide EncodeKubernetesProxyConfig, MergeKubernetesProxyConfig, MergeValues, FieldKind, Width;
    KubernetesProxyConfigTyped(dst);
    KubernetesProxyConfigTyped(src);
    KubernetesProxyConfigMerges(dst, src);
    MergeReads(ROOT, EncodeKubernetesProxyConfig(dst), EncodeKubernetesProxyConfig(src), p);
  }

  lemma KubeMergeNodes(dst: Kube, src: Kube, p: Path)
    requires IsNode(ROOT, p)
    ensures At(Merge(dst, src), p).Node? <==> At(dst, p).Node? || At(src, p).Node?
  {
    hide EncodeKubernetesProxyConfig, MergeKubernetesProxyConfig, MergeValues, FieldKind, Width;
    KubernetesProxyConfigTyped(dst);
    KubernetesProxyConfigTyped(src);
    KubernetesProxyConfigMerges(dst, src);
    MergeReadsNode(ROOT, EncodeKubernetesProxyConfig(dst), EncodeKubernetesProxyConfig(src), p);
  }

  /** The reads at all leaves, and which nodes are there, determine the configuration. */
  lemma KubeReadsDetermine(a: Kube, b: Kube)
    requires forall p | IsLeaf(ROOT, p) :: At(a, p) == At(b, p)
    requires forall p | IsNode(ROOT, p) :: At(a, p).Node? == At(b, p).Node?
    ensures a == b
  {
    hide EncodeKubernetesProxyConfig, FieldKind, Width;
    KubernetesProxyConfigTyped(a);
    KubernetesProxyConfigTyped(b);
    assert forall p :: At(a, p) == Read(EncodeKubernetesProxyConfig(a), p);
    assert forall p :: At(b, p) == Read(EncodeKubernetesProxyConfig(b), p);
    ReadsDetermine(ROOT, EncodeKubernetesProxyConfig(a), EncodeKubernetesProxyConfig(b));
    KubernetesProxyConfigInjective(a, b);
  }

  // ---- through nil-safe getters ----

  /** Zero is neutral for every policy but the one of the custom sidecars. */
  lemma ZeroIsNeutral(policy: Policy, x: Leaf, z: Leaf)
    requires SameSort(z, x) && IsZero(z) && Fits(policy, z) && !policy.LastNonEmptyWins?
    ensures Combine(policy, x, z) == x && Combine(policy, z, x) == x
  {}

  /** Through nil-safe getters a merged leaf is its policy applied to the same leaf of both. */
  lemma KubeMergeGets(dst: Kube, src: Kube, p: Path)
    requires IsLeaf(ROOT, p) && !Borrows(p) && !PolicyAt(ROOT, p).LastNonEmptyWins?
    ensures Get(Merge(dst, src), p) == Combine(PolicyAt(ROOT, p), Get(dst, p), Get(src, p))
  {
    hide At, Merge, KindAt, Source, Combine;
    KubeMergeReads(dst, src, p);
    AtIsLeaf(dst, p);
    AtIsLeaf(src, p);
    var zero := KindAt(NodeKind(ROOT), p).value.zero;
    ZeroIsNeutral(PolicyAt(ROOT, p), Get(dst, p), zero);
    ZeroIsNeutral(PolicyAt(ROOT, p), Get(src, p), zero);
  }

  // ---- maps and lists, entry by entry ----

  /** The entry of a map leaf under `k`. */
  function EntryOf(x: Leaf, k: string): Option<string>
  {
    if x.Labels? && x.labels.Some? && k in x.labels.value then Some(x.labels.value[k]) else None
  }

  /** A merged map has the override's entries and, unless the override is present but empty,
      the default's others; it is nil exactly if both are. */
  lemma MapEntries(dst: Kube, src: Kube, p: Path, k: string)
    requires IsLeaf(ROOT, p) && PolicyAt(ROOT, p).Union?
    ensures EntryOf(Get(Merge(dst, src), p), k) ==
            if EntryOf(Get(src, p), k).Some? then EntryOf(Get(src, p), k)
            else if Get(src, p) == Labels(Some(map[])) then None
            else EntryOf(Get(dst, p), k)
    ensures IsZero(Get(Merge(dst, src), p)) <==> IsZero(Get(dst, p)) && IsZero(Get(src, p))
  {
    hide Get, Merge, KindAt, Source;
    LeafKindsSound(ROOT, p);
    KubeMergeGets(dst, src, p);
    AtIsLeaf(dst, p);
    AtIsLeaf(src, p);
  }

  /** The length of a list leaf and its elements. */
  function LengthOf(x: Leaf): nat
  {
    if x.Items? && x.items.Some? then |x.items.value|
    else if x.CustomLabels? && x.custom.Some? then |x.custom.value|
    else 0
  }

  predicate SameElement(x: Leaf, i: nat, y: Leaf, j: nat)
  {
    || (x.Items? && y.Items? && x.items.Some? && y.items.Some? && i < |x.items.value| && j < |y.items.value|
        && x.items.value[i] == y.items.value[j])
    || (x.CustomLabels? && y.CustomLabels? && x.custom.Some? && y.custom.Some?
        && i < |x.custom.value| && j < |y.custom.value| && x.custom.value[i] == y.custom.value[j])
  }

  /** A merged appended list has the default's elements and then the override's, in order; a
      present but empty override resets it; it is nil exactly if both are. */
  lemma ListElements(dst: Kube, src: Kube, p: Path, i: nat)
    requires IsLeaf(ROOT, p) && PolicyAt(ROOT, p).Append?
    ensures var d, s, m := Get(dst, p), Get(src, p), Get(Merge(dst, src), p);
            var kept := if !IsZero(s) && LengthOf(s) == 0 then 0 else LengthOf(d);
            && LengthOf(m) == kept + LengthOf(s)
            && (i < kept ==> SameElement(m, i, d, i))
            && (i < LengthOf(s) ==> SameElement(m, kept + i, s, i))
            && (IsZero(m) <==> IsZero(d) && IsZero(s))
  {
    hide Get, Merge, KindAt, Source;
    LeafKindsSound(ROOT, p);
    KubeMergeGets(dst, src, p);
    AtIsLeaf(dst, p);
    AtIsLeaf(src, p);
  }

  // ---- what counts as unset ----

  /** Nil pointers, maps and lists, the empty string, zero, and the port that is the number
      zero with no name. */
  lemma ZeroExactly(x: Leaf)
    ensures x.Text? ==> (IsZero(x) <==> x.text == None)
    ensures x.Number? ==> (IsZero(x) <==> x.number == None)
    ensures x.Flag? ==> (IsZero(x) <==> x.flag == None)
    ensures x.PlainText? ==> (IsZero(x) <==> x.plain == "")
    ensures x.PlainNumber? ==> (IsZero(x) <==> x.count == 0)
    ensures x.PlainPort? ==> (IsZero(x) <==> !x.port.isString && x.port.intVal == 0 && x.port.strVal == "")
    ensures x.Labels? ==> (IsZero(x) <==> x.labels == None)
    ensures x.Items? ==> (IsZero(x) <==> x.items == None)
    ensures x.CustomLabels? ==> (IsZero(x) <==> x.custom == None)
  {}

  /** The readiness or the liveness probe of the pod template. */
  function ProbeOf(k: Kube, live: bool): Option<Probe>
  {
    if k.None? || k.value.podTemplate.None? then None
    else if live then k.value.podTemplate.value.livenessProbe
    else k.value.podTemplate.value.readinessProbe
  }

  function HttpPortOf(k: Kube, live: bool): Option<IntOrString>
  {
    match ProbeOf(k, live)
    case None => None
    case Some(p) => if p.httpGet.None? then None else Some(p.httpGet.value.port)
  }

  function TcpPortOf(k: Kube, live: bool): Option<IntOrString>
  {
    match ProbeOf(k, live)
    case None => None
    case Some(p) => if p.tcpSocket.None? then None else Some(p.tcpSocket.value.port)
  }

  /** The override's port, unless it is not set or the number zero with no name. */
  function ChosenPort(dst: Option<IntOrString>, src: Option<IntOrString>): Option<IntOrString>
  {
    if dst.None? then src
    else if src.None? || (!src.value.isString && src.value.intVal == 0 && src.value.strVal == "") then dst
    else src
  }

  /** A probe's port is never a mixture: it is the override's exactly if that is set. */
  lemma ProbePorts(dst: Kube, src: Kube, live: bool)
    ensures HttpPortOf(Merge(dst, src), live) == ChosenPort(HttpPortOf(dst, live), HttpPortOf(src, live))
    ensures TcpPortOf(Merge(dst, src), live) == ChosenPort(TcpPortOf(dst, live), TcpPortOf(src, live))
  {
    MergedProbe(dst, src, live);
  }

  lemma MergedProbe(dst: Kube, src: Kube, live: bool)
    ensures ProbeOf(Merge(dst, src), live) == MergeProbe(ProbeOf(dst, live), ProbeOf(src, live))
  {}

  // ---- the leaves with policies of their own, by name ----

  /** Log level, discovery address, mesh id and cluster id of the Istio proxy container are its
      fields 3 to 6; the last three are protected. */
  function IstioContainerPath(i: nat): (p: Path)
    requires 3 <= i < 7
    ensures IsLeaf(ROOT, p) && !Borrows(p) && (PolicyAt(ROOT, p).FirstWins? <==> 4 <= i)
  {
    Into(6, Into(0, Into(i, Here)))
  }

  function IstioContainerOf(k: Kube): Option<IstioContainer>
  {
    if k.Some? && k.value.istio.Some? then k.value.istio.value.istioProxyContainer else None
  }

  /** In every configuration the leaves at these paths are those fields. */
  lemma ProtectedLeaves(k: Kube, i: nat)
    requires 3 <= i < 7
    ensures Get(k, IstioContainerPath(i)) ==
            match IstioContainerOf(k)
            case None => Text(None)
            case Some(c) =>
              Text([c.logLevel, c.istioDiscoveryAddress, c.istioMetaMeshId, c.istioMetaClusterId][i - 3])
  {}

  /** The Windows options of the pod: name and spec of the credentials, user name, host process.
      The name is merged from the spec. */
  function PodWindowsPath(i: nat): (p: Path)
    requires i < 4
    ensures IsLeaf(ROOT, p) && PolicyAt(ROOT, p).LastWins? && (Borrows(p) <==> i == 0)
    ensures i == 0 ==> Source(ROOT, p) == Into(3, Into(2, Into(1, Into(1, Here))))
  {
    Into(3, Into(2, Into(1, Into(i, Here))))
  }

  function PodWindowsOf(k: Kube): Option<WindowsOptions>
  {
    if k.Some? && k.value.podTemplate.Some? && k.value.podTemplate.value.securityContext.Some?
    then k.value.podTemplate.value.securityContext.value.windowsOptions
    else None
  }

  /** In every configuration the leaves at these paths are those fields. */
  lemma WindowsLeaves(k: Kube, i: nat)
    requires i < 4
    ensures Get(k, PodWindowsPath(i)) ==
            match PodWindowsOf(k)
            case None => if i == 3 then Flag(None) else Text(None)
            case Some(w) =>
              if i == 3 then Flag(w.hostProcess)
              else Text([w.gmsaCredentialSpecName, w.gmsaCredentialSpec, w.runAsUserName][i])
  {}

  /** In the whole schema only that name borrows, only those three Istio fields are
      protected, only the custom sidecars ignore empty lists, only the exec command overrides a
      list as a whole; all other lists are appended, all maps are united, and of all other
      leaves the last set one wins. */
  lemma SpecialFields(t: Type, i: nat)
    requires i < Width(t) && FieldKind(t, i).LeafKind?
    ensures FieldKind(t, i).ahead != 0 <==> t.WindowsOptionsType? && i == 0
    ensures FieldKind(t, i).policy.FirstWins? <==> t.IstioContainerType? && 4 <= i
    ensures FieldKind(t, i).policy.LastNonEmptyWins? <==> t.IstioIntegrationType? && i == 1
    ensures FieldKind(t, i).zero.Items? && FieldKind(t, i).policy.LastWins? <==> t.ExecActionType?
    ensures FieldKind(t, i).policy.Union? <==> FieldKind(t, i).zero.Labels?
    ensures FieldKind(t, i).policy.Append? <==>
            || FieldKind(t, i).zero.CustomLabels?
            || (FieldKind(t, i).zero.Items? && !t.ExecActionType? && !t.IstioIntegrationType?)
  {}

  /** A list as a caller sees it, nil and empty alike. */
  function ListOf(x: Leaf): seq<Element>
  {
    if x.Items? && x.items.Some? then x.items.value else []
  }

  /** Up to nil versus empty, the last non-empty list of custom sidecars wins. */
  lemma SidecarsUpToNil(dst: Kube, src: Kube, p: Path)
    requires IsLeaf(ROOT, p) && PolicyAt(ROOT, p).LastNonEmptyWins?
    ensures ListOf(Get(Merge(dst, src), p)) ==
            if ListOf(Get(src, p)) != [] then ListOf(Get(src, p)) else ListOf(Get(dst, p))
    ensures !At(dst, p).Nil? && !At(src, p).Nil? ==>
              Get(Merge(dst, src), p) == if ListOf(Get(src, p)) != [] then Get(src, p) else Get(dst, p)
  {
    hide At, Merge, KindAt, Source;
    KubeMergeReads(dst, src, p);
    LeafKindsSound(ROOT, p);
    AtIsLeaf(dst, p);
    AtIsLeaf(src, p);
  }
}
