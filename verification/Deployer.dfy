/** Which parameters a Gateway gets, and whether anything is deployed for it
    (internal/fgateway/deployer/deployer.go, internal/fgateway/deployer/merge.go:73-107). */
module Deployer {
  import opened Options
  import opened MergeView
  import opened HeapMerge
  import opened HeapRefinement

  /** `selfManaged` says whether the pointer to the (empty) self-managed struct is set. */
  datatype Parameters = Parameters(name: string, kube: Kube, selfManaged: bool)

  /** The rule of the custom resource: exactly one of the two is set. */
  predicate ExactlyOne(p: Parameters)
  {
    p.kube.Some? != p.selfManaged
  }

  /** What the merge hands back, and what has become of the default it was given. */
  datatype MergeOutcome = Panicked | Merged(returned: Option<Parameters>, dst: Option<Parameters>)

  /** deepMergeGatewayParameters: a self-managed override writes through `dst` before any
      nil check; a default without Kube makes it return the override and leave `dst` alone. */
  function DeepMerge(dst: Option<Parameters>, src: Option<Parameters>): MergeOutcome
  {
    if src.Some? && src.value.selfManaged then
      if dst.None? then Panicked
      else
        var d := Some(dst.value.(selfManaged := true, kube := None));
        Merged(d, d)
    else if src.None? || src.value.kube.None? then Merged(dst, dst)
    else if dst.None? || dst.value.kube.None? then Merged(src, dst)
    else
      var d := Some(dst.value.(kube := Merge(dst.value.kube, src.value.kube)));
      Merged(d, d)
  }

  /** The exclusivity rule survives the merge, in the result and in the default; the two
      are the same exactly when the default is Kube or the override is self-managed. */
  lemma MergeKeepsExclusivity(d: Parameters, s: Parameters)
    requires ExactlyOne(d) && ExactlyOne(s)
    ensures var m := DeepMerge(Some(d), Some(s));
            && m.Merged? && m.returned.Some? && m.dst.Some?
            && ExactlyOne(m.returned.value) && ExactlyOne(m.dst.value)
            && (m.returned == m.dst <==> d.kube.Some? || s.selfManaged)
            && (m.dst.value.selfManaged <==> d.selfManaged || s.selfManaged)
            && (m.returned.value.selfManaged <==> s.selfManaged)
  {}

  /** Without an override the default is returned, without a default a Kube override is, and
      an override with neither part changes nothing. */
  lemma MergeWithoutOne(dst: Option<Parameters>, src: Option<Parameters>)
    ensures src.None? || (src.value.kube.None? && !src.value.selfManaged) ==> DeepMerge(dst, src) == Merged(dst, dst)
    ensures dst.None? && src.Some? && src.value.kube.Some? && !src.value.selfManaged ==>
              DeepMerge(dst, src) == Merged(src, None)
  {}

  // ---- the merge of two resources in memory ----

  lemma NilKube(m: Store)
    ensures Stored(m.cells, m.boxes, Absent) && Represents(Absent, None)
  {}

  /** A nil pointer represents no Kube part, and only a nil pointer does. */
  lemma NilRepresents(t: Tree, k: Kube)
    requires Represents(t, k)
    ensures t.Absent? <==> k.None?
  {}

  /** A GatewayParameters object: its name, the pointer to its Kube part, and whether the
      pointer to the self-managed struct is set. */
  class Resource {
    const name: string
    var kube: Ref
    var selfManaged: bool

    constructor (name: string, kube: Ref, selfManaged: bool)
      ensures this.name == name && this.kube == kube && this.selfManaged == selfManaged
    {
      this.name, this.kube, this.selfManaged := name, kube, selfManaged;
    }

    /** The object holds parameters `p`, with their Kube part in tree `t`. */
    ghost predicate Holds(m: Store, t: Tree, p: Parameters)
      reads this
    {
      && name == p.name && selfManaged == p.selfManaged && kube == RefOf(t)
      && Stored(m.cells, m.boxes, t) && Represents(t, p.kube)
    }
  }

  ghost predicate MaybeHolds(o: Resource?, m: Store, t: Tree, p: Option<Parameters>)
    reads o
  {
    if o == null then p.None? else p.Some? && o.Holds(m, t, p.value)
  }

  /** deepMergeGatewayParameters in place.  It panics exactly without a default for a
      self-managed override.  Otherwise the default ends up holding what `DeepMerge` says
      has become of it, the override holds what it held, and what is returned is the one
      of the two that holds the result. */
  method DeepMergeInPlace(m: Memory, dst: Resource?, src: Resource?,
                          ghost d: Tree, ghost s: Tree, ghost dp: Option<Parameters>, ghost sp: Option<Parameters>)
    returns (panicked: bool, r: Resource?, ghost after: Tree)
    requires MaybeHolds(dst, m.Now(), d, dp) && MaybeHolds(src, m.Now(), s, sp) && (dst != null ==> dst != src)
    requires Mergeable(ROOT, d, s)
    modifies m`cells, dst
    ensures panicked <==> DeepMerge(dp, sp).Panicked?
    ensures panicked <==> dst == null && src != null && src.selfManaged
    ensures MaybeHolds(src, m.Now(), s, sp)
    ensures var o := DeepMerge(dp, sp);
            o.Merged? ==>
              && MaybeHolds(dst, m.Now(), after, o.dst)
              && (r == dst || r == src) && MaybeHolds(r, m.Now(), if r == dst then after else s, o.returned)
    ensures Confined(old(m.cells), m.cells, Written(ROOT, d, s))
  {
    hide Represents, Stored, MergeTrees, Mergeable, Merge, Written;
    panicked, r, after := false, dst, d;
    if src != null && src.selfManaged {
      if dst == null { return true, null, d; }
      dst.selfManaged, dst.kube := true, None;
      after := Absent;
      NilKube(m.Now());
      return;
    }
    if src != null { NilRepresents(s, sp.value.kube); }
    if dst != null { NilRepresents(d, dp.value.kube); }
    if src == null || src.kube.None? {
      return;
    }
    if dst == null || dst.kube.None? {
      r := src;
      return;
    }
    var kube := MergeInPlace(m, dst.kube, src.kube, d, s, dp.value.kube, sp.value.kube);
    after := MergeTrees(ROOT, d, s);
  }

  /** getGatewayParametersForGateway after its lookups: the result of the merge is dropped
      and the default it was merged into is what counts. */
  method Resolve(m: Memory, base: Resource, override: Resource,
                 ghost d: Tree, ghost s: Tree, ghost dp: Parameters, ghost sp: Parameters) returns (ghost after: Tree)
    requires base.Holds(m.Now(), d, dp) && override.Holds(m.Now(), s, sp) && base != override && Mergeable(ROOT, d, s)
    modifies m`cells, base
    ensures override.Holds(m.Now(), s, sp)
    ensures DeepMerge(Some(dp), Some(sp)).Merged? && DeepMerge(Some(dp), Some(sp)).dst.Some?
    ensures base.Holds(m.Now(), after, DeepMerge(Some(dp), Some(sp)).dst.value)
  {
    hide Represents, Stored, MergeTrees, Mergeable, Merge;
    var panicked, r;
    panicked, r, after := DeepMergeInPlace(m, base, override, d, s, Some(dp), Some(sp));
  }

  // ---- lookups ----

  datatype Key = Key(namespace: string, name: string)

  datatype ParametersRef = ParametersRef(name: string, namespace: Option<string>)

  /** The objects the API client can find; a class may carry no reference. */
  datatype Cluster = Cluster(parameters: map<Key, Parameters>, classes: map<string, Option<ParametersRef>>)

  /** `annotation` is the parameters name on the Gateway, empty when it is not there. */
  datatype Gateway = Gateway(namespace: string, className: string, annotation: string)

  function DefaultParameters(c: Cluster, gw: Gateway): Option<Parameters>
  {
    if gw.className == "" || gw.className !in c.classes || c.classes[gw.className].None? then None
    else
      var ref := c.classes[gw.className].value;
      var key := Key(if ref.namespace.Some? then ref.namespace.value else "", ref.name);
      if ref.name == "" || key !in c.parameters then None else Some(c.parameters[key])
  }

  /** The default is found exactly under the name and the namespace of the reference of the
      Gateway's class, with the empty namespace if it gives none. */
  lemma DefaultExactly(c: Cluster, gw: Gateway, p: Parameters)
    ensures DefaultParameters(c, gw) == Some(p) <==>
            && gw.className != "" && gw.className in c.classes && c.classes[gw.className].Some?
            && var ref := c.classes[gw.className].value;
               && ref.name != ""
               && (exists key ::
                     && key in c.parameters && c.parameters[key] == p && key.name == ref.name
                     && (ref.namespace.Some? ==> key.namespace == ref.namespace.value)
                     && (ref.namespace.None? ==> key.namespace == ""))
  {}

  /** getGatewayParametersForGateway: None is an error.  The merge's result is dropped; what
      counts is the default it was merged into. */
  function ParametersFor(c: Cluster, gw: Gateway): Option<Parameters>
  {
    if gw.annotation == "" then DefaultParameters(c, gw)
    else if Key(gw.namespace, gw.annotation) !in c.parameters then None
    else
      var override := c.parameters[Key(gw.namespace, gw.annotation)];
      var base := DefaultParameters(c, gw);
      if base.None? then None
      else
        var m := DeepMerge(base, Some(override));
        if m.Panicked? then None else m.dst
  }

  datatype Plan = Error | Nothing | Render(parameters: Parameters)

  function PlanOf(p: Parameters): Plan
  {
    if p.selfManaged then Nothing else Render(p)
  }

  /** GetObjsToDeploy up to rendering. */
  function PlanFor(c: Cluster, gw: Gateway): Plan
  {
    match ParametersFor(c, gw)
    case None => Error
    case Some(p) => PlanOf(p)
  }

  ghost predicate ObeysRule(c: Cluster)
  {
    forall k | k in c.parameters :: ExactlyOne(c.parameters[k])
  }

  /** What a Gateway gets, in a cluster whose parameters obey the rule.  Nothing is deployed
      exactly when the default or the override is self-managed, so a Kube override cannot
      bring a self-managed default back; otherwise the merged Kube part is rendered. */
  lemma PlanExactly(c: Cluster, gw: Gateway)
    requires ObeysRule(c)
    ensures var base := DefaultParameters(c, gw);
            var key := Key(gw.namespace, gw.annotation);
            var plan := PlanFor(c, gw);
            && (plan.Error? <==> base.None? || (gw.annotation != "" && key !in c.parameters))
            && (base.Some? && gw.annotation == "" ==>
                  plan == if base.value.selfManaged then Nothing else Render(base.value))
            && (base.Some? && gw.annotation != "" && key in c.parameters ==>
                  var override := c.parameters[key];
                  plan == if base.value.selfManaged || override.selfManaged then Nothing
                          else Render(base.value.(kube := Merge(base.value.kube, override.kube))))
            && (plan.Render? ==> ExactlyOne(plan.parameters) && plan.parameters.kube.Some?)
  {}

  /** Dropping the result of the merge makes a difference exactly for a Kube override of a
      self-managed default: with the result, the override would be rendered on its own. */
  lemma DroppedResultExactly(c: Cluster, gw: Gateway)
    requires ObeysRule(c) && !PlanFor(c, gw).Error? && gw.annotation != ""
    ensures var base, override := DefaultParameters(c, gw), c.parameters[Key(gw.namespace, gw.annotation)];
            var m := DeepMerge(base, Some(override));
            && m.Merged? && m.returned.Some?
            && (PlanOf(m.returned.value) != PlanFor(c, gw) <==> base.value.selfManaged && override.kube.Some?)
            && (PlanOf(m.returned.value) != PlanFor(c, gw) ==> PlanFor(c, gw).Nothing? && m.returned == Some(override))
  {
    hide Merge;
    PlanExactly(c, gw);
  }
}
