/** Clients (internal/fgateway/ir/model.go) and the pods their identity is taken from
    (internal/fgateway/krtcollections/pods.go). */
module Pods {
  import opened Options
  import opened Words
  import opened LabelHash
  import opened ResourceNames

  // The three topology label keys, as defined by Kubernetes and Istio.
  const REGION := "topology.kubernetes.io/region"
  const ZONE := "topology.kubernetes.io/zone"
  const SUBZONE := "topology.istio.io/subzone"

  datatype Locality = Locality(region: string, zone: string, subzone: string)

  const NO_LOCALITY := Locality("", "", "")

  datatype Client = Client(
    role: string,
    labels: Labels,
    locality: Locality,
    namespace: string,
    resourceName: string)

  const ZERO_CLIENT := Client("", map[], NO_LOCALITY, "", "")

  datatype LocalityPod = LocalityPod(name: string, namespace: string, locality: Locality, labels: Labels)

  // ---- clients ----

  ghost function ClientOf(h: EntryHash, role: string, namespace: string, labels: Labels, locality: Locality): Client
  {
    Client(role, labels, locality, namespace, ResourceName(role, HashOf(h, labels), namespace))
  }

  method NewUniqlyConnectedClient(h: EntryHash, role: string, namespace: string, labels: Labels, locality: Locality)
    returns (c: Client)
    ensures c == ClientOf(h, role, namespace, labels, locality)
    ensures c.role == role && c.namespace == namespace && c.labels == labels && c.locality == locality
    ensures namespace == "" ==> c.resourceName == role
    ensures namespace != "" ==> c.resourceName == role + "~" + Decimal(HashOf(h, labels)) + "~" + namespace
    ensures namespace != "" && '~' !in namespace ==>
              Decode(c.resourceName) == Some(Parts(role, HashOf(h, labels), namespace))
  {
    var resourceName := role;
    if namespace != "" {
      var hash := HashLabels(h, labels);
      resourceName := role + [KEY_DELIMITER] + Decimal(hash) + [KEY_DELIMITER] + namespace;
    }
    c := Client(role, labels, locality, namespace, resourceName);
    if namespace != "" && '~' !in namespace {
      DecodeExact(resourceName, Parts(role, HashOf(h, labels), namespace));
    }
  }

  /** The record and the name of a client, part by part. */
  lemma ClientParts(h: EntryHash, role: string, namespace: string, labels: Labels, locality: Locality)
    ensures var c := ClientOf(h, role, namespace, labels, locality);
            && c.role == role && c.namespace == namespace && c.labels == labels && c.locality == locality
            && (namespace == "" ==> c.resourceName == role)
            && (namespace != "" ==> c.resourceName == role + "~" + Decimal(HashOf(h, labels)) + "~" + namespace)
            && (namespace != "" && '~' !in namespace ==>
                  Decode(c.resourceName) == Some(Parts(role, HashOf(h, labels), namespace)))
  {
    var c := ClientOf(h, role, namespace, labels, locality);
    if namespace != "" && '~' !in namespace {
      DecodeExact(c.resourceName, Parts(role, HashOf(h, labels), namespace));
    }
  }

  // ---- locality augmentation ----

  /** Reading a missing key of a map yields the empty string. */
  function Lookup(labels: Labels, key: string): string
  {
    if key in labels then labels[key] else ""
  }

  function LocalityFromLabels(labels: Labels): Locality
  {
    Locality(Lookup(labels, REGION), Lookup(labels, ZONE), Lookup(labels, SUBZONE))
  }

  function SetUnlessEmpty(labels: Labels, key: string, value: string): Labels
  {
    if value != "" then labels[key := value] else labels
  }

  function Augmented(locality: Locality, labels: Labels): Labels
  {
    SetUnlessEmpty(
      SetUnlessEmpty(SetUnlessEmpty(labels, REGION, locality.region), ZONE, locality.zone),
      SUBZONE, locality.subzone)
  }

  /** A label map that is updated in place. */
  class LabelMap {
    var entries: Labels
    constructor (entries: Labels)
      ensures this.entries == entries
    {
      this.entries := entries;
    }
  }

  /** Under `key`, `after` holds `value` unless that is empty, and else what `before` held. */
  predicate Overwritten(before: Labels, after: Labels, key: string, value: string)
  {
    if value != "" then key in after && after[key] == value
    else (key in after <==> key in before) && (key in before ==> after[key] == before[key])
  }

  method AugmentLabels(locality: Locality, labels: LabelMap)
    modifies labels
    ensures labels.entries == Augmented(locality, old(labels.entries))
    ensures Overwritten(old(labels.entries), labels.entries, "topology.kubernetes.io/region", locality.region)
    ensures Overwritten(old(labels.entries), labels.entries, "topology.kubernetes.io/zone", locality.zone)
    ensures Overwritten(old(labels.entries), labels.entries, "topology.istio.io/subzone", locality.subzone)
    ensures forall k | k !in {REGION, ZONE, SUBZONE} ::
              (k in labels.entries <==> k in old(labels.entries))
              && Lookup(labels.entries, k) == Lookup(old(labels.entries), k)
  {
    TopologyKeysDiffer();
    if locality.region != "" { labels.entries := labels.entries[REGION := locality.region]; }
    if locality.zone != "" { labels.entries := labels.entries[ZONE := locality.zone]; }
    if locality.subzone != "" { labels.entries := labels.entries[SUBZONE := locality.subzone]; }
  }

  datatype KubePod = KubePod(name: string, namespace: string, labels: Option<LabelMap>, nodeName: string)

  function LocalityOfNode(nodeName: string, nodes: map<string, Labels>): Locality
  {
    if nodeName != "" && nodeName in nodes then LocalityFromLabels(nodes[nodeName]) else NO_LOCALITY
  }

  /** The value of `labels` under `key`, empty if there is none. */
  predicate ReadsAs(labels: Labels, key: string, value: string)
  {
    if key in labels then value == labels[key] else value == ""
  }

  /** augmentPodLabels: the pod's own map is cloned, so it is not changed.  With a known node
      the locality is read from the labels of the node and its parts overwrite the pod's
      topology labels; without one the locality is empty and the labels are the pod's own. */
  method AugmentPodLabels(pod: KubePod, nodes: map<string, Labels>) returns (p: LocalityPod)
    ensures p.name == pod.name && p.namespace == pod.namespace
    ensures p.locality == LocalityOfNode(pod.nodeName, nodes)
    ensures p.labels == Augmented(p.locality, if pod.labels.Some? then pod.labels.value.entries else map[])
    ensures var own := if pod.labels.Some? then pod.labels.value.entries else map[];
            if pod.nodeName != "" && pod.nodeName in nodes then
              var node := nodes[pod.nodeName];
              && ReadsAs(node, "topology.kubernetes.io/region", p.locality.region)
              && ReadsAs(node, "topology.kubernetes.io/zone", p.locality.zone)
              && ReadsAs(node, "topology.istio.io/subzone", p.locality.subzone)
              && Overwritten(own, p.labels, "topology.kubernetes.io/region", p.locality.region)
              && Overwritten(own, p.labels, "topology.kubernetes.io/zone", p.locality.zone)
              && Overwritten(own, p.labels, "topology.istio.io/subzone", p.locality.subzone)
              && (forall k | k !in {REGION, ZONE, SUBZONE} :: Overwritten(own, p.labels, k, ""))
            else
              p.locality == Locality("", "", "") && p.labels == own
    ensures pod.labels.Some? ==> pod.labels.value.entries == old(pod.labels.value.entries)
    // Without topology labels of its own the pod is one of those that can be told apart.
    ensures var own := if pod.labels.Some? then pod.labels.value.entries else map[];
            REGION !in own && ZONE !in own && SUBZONE !in own ==> CleanlyAugmented(p)
  {
    var labels := new LabelMap(if pod.labels.Some? then pod.labels.value.entries else map[]);
    var locality := NO_LOCALITY;
    if pod.nodeName != "" && pod.nodeName in nodes {
      locality := LocalityFromLabels(nodes[pod.nodeName]);
      AugmentLabels(locality, labels);
    }
    p := LocalityPod(pod.name, pod.namespace, locality, labels.entries);
    ghost var own := if pod.labels.Some? then pod.labels.value.entries else map[];
    if REGION !in own && ZONE !in own && SUBZONE !in own {
      assert p.labels == Augmented(p.locality, own) && OwnTopologyHidden(p.locality, own);
    }
  }

  /** The keys are those of Kubernetes and Istio. */
  lemma TopologyKeys()
    ensures REGION == "topology.kubernetes.io/region"
    ensures ZONE == "topology.kubernetes.io/zone"
    ensures SUBZONE == "topology.istio.io/subzone"
  {}

  /** The own topology labels are absent, empty or overwritten. */
  predicate OwnTopologyHidden(locality: Locality, own: Labels)
  {
    && (locality.region != "" || Lookup(own, REGION) == "")
    && (locality.zone != "" || Lookup(own, ZONE) == "")
    && (locality.subzone != "" || Lookup(own, SUBZONE) == "")
  }

  lemma TopologyKeysDiffer()
    ensures REGION != ZONE && ZONE != SUBZONE && REGION != SUBZONE
  {
    assert |REGION| == 29 && |ZONE| == 27 && |SUBZONE| == 25;
  }

  /** The locality can be read back from the augmented labels exactly when no own
      topology label of the pod shows through. */
  lemma LocalityRecoverable(locality: Locality, own: Labels)
    ensures LocalityFromLabels(Augmented(locality, own)) == locality <==> OwnTopologyHidden(locality, own)
  {
    TopologyKeysDiffer();
  }

  /** What writing `value` under `key` does to the hash. */
  function HashDelta(h: EntryHash, own: Labels, key: string, value: string): uint64
  {
    if value == "" then 0 else Xor(EntryAt(h, own, key), h(key, value))
  }

  lemma HashOfSet(h: EntryHash, m: Labels, key: string, value: string)
    ensures HashOf(h, SetUnlessEmpty(m, key, value)) == Xor(HashOf(h, m), HashDelta(h, m, key, value))
  {
    if value != "" {
      HashOfUpdate(h, m, key, value);
      XorGroup(HashOf(h, m), EntryAt(h, m, key), h(key, value));
    } else {
      XorGroup(HashOf(h, m), 0, 0);
    }
  }

  /** Augmentation changes the hash by exactly the XOR of old and new topology entries. */
  lemma HashOfAugmented(h: EntryHash, locality: Locality, own: Labels)
    ensures HashOf(h, Augmented(locality, own)) ==
            Xor(Xor(Xor(HashOf(h, own), HashDelta(h, own, REGION, locality.region)),
                    HashDelta(h, own, ZONE, locality.zone)),
                HashDelta(h, own, SUBZONE, locality.subzone))
  {
    TopologyKeysDiffer();
    var m1 := SetUnlessEmpty(own, REGION, locality.region);
    var m2 := SetUnlessEmpty(m1, ZONE, locality.zone);
    HashOfSet(h, own, REGION, locality.region);
    HashOfSet(h, m1, ZONE, locality.zone);
    HashOfSet(h, m2, SUBZONE, locality.subzone);
    assert EntryAt(h, m1, ZONE) == EntryAt(h, own, ZONE);
    assert EntryAt(h, m2, SUBZONE) == EntryAt(h, own, SUBZONE);
  }

  // ---- which sets of pods can be told apart by name ----

  ghost predicate GoodNamespaces(pods: iset<LocalityPod>)
  {
    forall p | p in pods :: p.namespace != "" && KEY_DELIMITER !in p.namespace
  }

  ghost predicate CollisionFree(h: EntryHash, pods: iset<LocalityPod>)
  {
    forall p, q | p in pods && q in pods :: HashOf(h, p.labels) == HashOf(h, q.labels) ==> p.labels == q.labels
  }

  /** Within a namespace, pods with one label hash share labels and locality. */
  ghost predicate Faithful(h: EntryHash, pods: iset<LocalityPod>)
  {
    forall p, q | p in pods && q in pods && p.namespace == q.namespace ::
      HashOf(h, p.labels) == HashOf(h, q.labels) ==> p.labels == q.labels && p.locality == q.locality
  }

  /** A pod as augmentPodLabels makes it, from own labels that hide no locality. */
  ghost predicate CleanlyAugmented(p: LocalityPod)
  {
    exists own :: p.labels == Augmented(p.locality, own) && OwnTopologyHidden(p.locality, own)
  }

  lemma CleanPodsAreFaithful(h: EntryHash, pods: iset<LocalityPod>)
    requires CollisionFree(h, pods)
    requires forall p | p in pods :: CleanlyAugmented(p)
    ensures Faithful(h, pods)
  {
    forall p | p in pods ensures p.locality == LocalityFromLabels(p.labels) {
      var own :| p.labels == Augmented(p.locality, own) && OwnTopologyHidden(p.locality, own);
      LocalityRecoverable(p.locality, own);
    }
  }

  /** With own topology labels two pods can share labels and namespace and differ in locality. */
  lemma OwnTopologyLabelBreaksFaithfulness(h: EntryHash)
    ensures exists p: LocalityPod, q: LocalityPod ::
              && p.namespace == q.namespace && p.labels == q.labels && p.locality != q.locality
              && p.labels == Augmented(p.locality, map[REGION := "r"])
              && q.labels == Augmented(q.locality, map[])
              && !Faithful(h, iset{p, q})
  {
    var p := LocalityPod("p", "ns", NO_LOCALITY, map[REGION := "r"]);
    var q := LocalityPod("q", "ns", Locality("r", "", ""), map[REGION := "r"]);
    assert p in iset{p, q} && q in iset{p, q};
    assert Augmented(q.locality, map[]) == map[REGION := "r"];
  }
}
