/** The stream callbacks as they run: objects whose fields are updated in place
    (internal/fgateway/krtcollections/callbackscollections.go and callbacks.go). */
module Callbacks {
  import opened Options
  import opened Words
  import opened LabelHash
  import opened ResourceNames
  import opened Pods
  import opened Xds
  import opened Registry

  /** How a callback ends.  `Panicked` is a nil dereference. */
  datatype Outcome = Done | Failed | Panicked

  function FindPod(pods: Option<map<string, LocalityPod>>, node: Option<Node>): Option<LocalityPod>
  {
    if pods.Some? && node.Some? then
      var key := PodKey(GetRef(node.value.id));
      if key in pods.value then Some(pods.value[key]) else None
    else None
  }

  /** A pod collection keeps every pod under `namespace/name`; neither part has a slash in it,
      and names are not empty. */
  ghost predicate IsPodCollection(pods: map<string, LocalityPod>)
  {
    forall k | k in pods ::
      var p := pods[k];
      k == p.namespace + "/" + p.name && '/' !in p.namespace && '/' !in p.name && p.name != ""
  }

  /** A node id names a pod: `name.namespace`, with no dot in the name. */
  predicate Names(id: string, p: LocalityPod)
  {
    '.' !in p.name && id == p.name + "." + p.namespace
  }

  lemma SlashSplits(a: string, b: string, c: string, d: string)
    requires a + "/" + b == c + "/" + d && '/' !in c && '/' !in d
    ensures a == c && b == d
  {
    var s := a + "/" + b;
    assert s[|a|] == '/';
    assert forall i | 0 <= i < |s| && i != |c| :: s[i] in c + d;
    assert a == s[..|c|] && c == s[..|c|] && b == s[|c| + 1..] && d == s[|c| + 1..];
  }

  /** The lookup finds a pod if and only if it is stored and the node id names it. */
  lemma FindPodExactly(pods: map<string, LocalityPod>, node: Node, p: LocalityPod)
    requires IsPodCollection(pods)
    ensures FindPod(Some(pods), Some(node)) == Some(p) <==> p in pods.Values && Names(node.id, p)
  {
    var ref := GetRef(node.id);
    if p in pods.Values && Names(node.id, p) {
      GetRefExact(node.id, NamespacedName(p.name, p.namespace));
      var k :| k in pods && pods[k] == p;
      assert k == p.namespace + "/" + p.name;
    }
    if FindPod(Some(pods), Some(node)) == Some(p) {
      SlashSplits(ref.namespace, ref.name, p.namespace, p.name);
      GetRefExact(node.id, ref);
    }
  }

  /** The name of a client with this role on pod `p`. */
  ghost function NameOn(h: EntryHash, role: string, p: LocalityPod): string
  {
    if p.namespace == "" then role else role + "~" + Decimal(HashOf(h, p.labels)) + "~" + p.namespace
  }

  ghost predicate NoPodNamed(pods: map<string, LocalityPod>, id: string)
  {
    forall p | p in pods.Values :: !Names(id, p)
  }

  lemma FoundOrNot(pods: map<string, LocalityPod>, node: Node)
    requires IsPodCollection(pods)
    ensures FindPod(Some(pods), Some(node)).None? <==> NoPodNamed(pods, node.id)
  {
    var found := FindPod(Some(pods), Some(node));
    if found.Some? {
      FindPodExactly(pods, node, found.value);
    } else {
      forall p | p in pods.Values ensures !Names(node.id, p) { FindPodExactly(pods, node, p); }
    }
  }

  class CallbacksCollection {
    const h: EntryHash
    /** The pod collection; its content changes under the callbacks' feet. */
    var augmentedPods: Option<map<string, LocalityPod>>
    var clients: map<int64, string>
    var uniqClientCount: map<string, uint64>
    var uniqClients: map<string, Client>
    /** How often a recomputation has been triggered. */
    var triggers: nat

    constructor (h: EntryHash, augmentedPods: Option<map<string, LocalityPod>>)
      ensures this.h == h && this.augmentedPods == augmentedPods
      ensures Index() == EMPTY && Registry.Valid(Index()) && triggers == 0
    {
      this.h := h;
      this.augmentedPods := augmentedPods;
      clients, uniqClientCount, uniqClients, triggers := map[], map[], map[], 0;
    }

    ghost function Index(): State
      reads this
    {
      State(clients, uniqClientCount, uniqClients)
    }

    ghost function Settings(): Config
      reads this
    {
      Config(h, augmentedPods.Some?)
    }

    ghost predicate Valid()
      reads this
    {
      Registry.Valid(Index())
    }

    method Add(streamId: int64, r: DiscoveryRequest) returns (name: string, isNew: bool, found: bool)
      modifies `clients, `uniqClientCount, `uniqClients
      ensures var (after, result) :=
                AddStep(Settings(), old(Index()), streamId, RoleOf(r.node), FindPod(augmentedPods, r.node));
              && Index() == after
              && (found <==> result.Registered?)
              && (found ==> name == result.name && isNew == result.isNew)
    {
      hide HashOf, Decimal, Decode;
      var usePod := augmentedPods.Some?;
      var pod := FindPod(augmentedPods, r.node);
      name, isNew, found := "", false, true;
      if streamId in clients {
        name := clients[streamId];
      } else {
        var locality, ns, labels := NO_LOCALITY, "", map[];
        if usePod {
          if pod.None? {
            found := false;
            return;
          }
          locality, ns, labels := pod.value.locality, pod.value.namespace, pod.value.labels;
        }
        var ucc := NewUniqlyConnectedClient(h, RoleOf(r.node), ns, labels, locality);
        name := ucc.resourceName;
        clients := clients[streamId := name];
        var current := if name in uniqClientCount then uniqClientCount[name] else 0;
        if current == 0 {
          uniqClients := uniqClients[name := ucc];
          isNew := true;
        }
        uniqClientCount := uniqClientCount[name := (current + 1) % UINT64_LIMIT];
      }
    }

    method Cleanup(streamId: int64) returns (dropped: Option<Client>)
      modifies `clients, `uniqClientCount, `uniqClients
      ensures (Index(), dropped) == CleanupStep(old(Index()), streamId)
    {
      dropped := None;
      if streamId in clients {
        var name := clients[streamId];
        clients := clients - {streamId};
        var current := if name in uniqClientCount then uniqClientCount[name] else 0;
        uniqClientCount := uniqClientCount[name := (current - 1) % UINT64_LIMIT];
        if current == 1 {
          dropped := Some(if name in uniqClients then uniqClients[name] else ZERO_CLIENT);
          uniqClientCount := uniqClientCount - {name};
          uniqClients := uniqClients - {name};
          assert uniqClientCount == old(uniqClientCount) - {name};
        }
      }
    }

    /** Registers the stream, rewrites the role of the request to the stream's name and
        triggers a recomputation for a new client. */
    method OnStreamRequest(streamId: int64, r: DiscoveryRequest) returns (o: Outcome)
      modifies `clients, `uniqClientCount, `uniqClients, `triggers, r
      ensures var (after, result) :=
                AddStep(Settings(), old(Index()), streamId, RoleOf(old(r.node)), FindPod(augmentedPods, old(r.node)));
              && Index() == after
              && match result {
                   case PodNotFound =>
                     o == Failed && r.node == old(r.node) && triggers == old(triggers)
                   case Registered(name, isNew) =>
                     if name == "" then
                       o == Done && r.node == old(r.node) && triggers == old(triggers)
                     else if old(r.node).None? then
                       o == Panicked && r.node == old(r.node) && triggers == old(triggers)
                     else
                       && o == Done
                       && r.node == Some(WithRole(old(r.node).value, name))
                       && triggers == old(triggers) + (if isNew then 1 else 0)
                 }
      // A fresh stream is registered on the stored pod that its node id names, and fails without one.
      ensures augmentedPods.Some? && IsPodCollection(augmentedPods.value)
              && old(r.node).Some? && streamId !in old(clients) ==>
                && (forall p | p in augmentedPods.value.Values && Names(old(r.node).value.id, p) ::
                      var name := NameOn(h, RoleOf(old(r.node)), p);
                      && o == Done && clients == old(clients)[streamId := name]
                      && (name != "" ==> r.node == Some(WithRole(old(r.node).value, name))))
                && (NoPodNamed(augmentedPods.value, old(r.node).value.id) ==>
                      o == Failed && Index() == old(Index()) && r.node == old(r.node))
    {
      if augmentedPods.Some? && IsPodCollection(augmentedPods.value) && r.node.Some? {
        FoundOrNot(augmentedPods.value, r.node.value);
        forall p | p in augmentedPods.value.Values && Names(r.node.value.id, p)
          ensures FindPod(augmentedPods, r.node) == Some(p)
          ensures ClientOf(h, RoleOf(r.node), p.namespace, p.labels, p.locality).resourceName ==
                  NameOn(h, RoleOf(r.node), p)
        {
          FindPodExactly(augmentedPods.value, r.node.value, p);
          ClientParts(h, RoleOf(r.node), p.namespace, p.labels, p.locality);
        }
      }
      var name, isNew, found := Add(streamId, r);
      if !found {
        return Failed;
      }
      if name != "" {
        if r.node.None? {
          return Panicked;
        }
        r.node := Some(WithRole(r.node.value, name));
        if isNew {
          triggers := triggers + 1;
        }
      }
      return Done;
    }

    method OnStreamClosed(streamId: int64)
      modifies `clients, `uniqClientCount, `uniqClients, `triggers
      ensures Index() == CleanupStep(old(Index()), streamId).0
      ensures triggers == old(triggers) + (if CleanupStep(old(Index()), streamId).1.Some? then 1 else 0)
      // A trigger fires exactly when the set of unique names shrank.
      ensures old(Valid()) ==>
                && Valid()
                && uniqClients.Keys <= old(uniqClients).Keys
                && triggers == old(triggers) + (if uniqClients.Keys != old(uniqClients).Keys then 1 else 0)
                && streamId !in clients
    {
      if Registry.Valid(Index()) {
        CleanupKeepsValid(Index(), streamId);
        CleanupReportsShrinkage(Index(), streamId);
      }
      var dropped := Cleanup(streamId);
      if dropped.Some? {
        triggers := triggers + 1;
      }
    }

    /** A fetch keeps no state: it only rewrites the role, to the name a fresh stream
        with this role and pod would get.  A missing pod is dereferenced. */
    method OnFetchRequest(r: DiscoveryRequest) returns (o: Outcome)
      modifies r
      ensures var pod := FindPod(augmentedPods, old(r.node));
              && (o == Panicked <==> augmentedPods.Some? && old(r.node).Some? && pod.None?)
              && (o == Failed <==> augmentedPods.Some? && old(r.node).None?)
              && (o != Done || augmentedPods.None? ==> r.node == old(r.node))
              && (o == Done && augmentedPods.Some? ==>
                    forall s: State, id | id !in s.clients ::
                      AddStep(Settings(), s, id, RoleOf(old(r.node)), pod).1.Registered?
                      && r.node == Some(WithRole(old(r.node).value,
                                                 AddStep(Settings(), s, id, RoleOf(old(r.node)), pod).1.name)))
      // The role becomes the name on the stored pod that the node id names; without one it panics.
      ensures augmentedPods.Some? && IsPodCollection(augmentedPods.value) && old(r.node).Some? ==>
                && (forall p | p in augmentedPods.value.Values && Names(old(r.node).value.id, p) ::
                      o == Done && r.node == Some(WithRole(old(r.node).value, NameOn(h, RoleOf(old(r.node)), p))))
                && (NoPodNamed(augmentedPods.value, old(r.node).value.id) ==> o == Panicked)
    {
      if augmentedPods.Some? && IsPodCollection(augmentedPods.value) && r.node.Some? {
        FoundOrNot(augmentedPods.value, r.node.value);
        forall p | p in augmentedPods.value.Values && Names(r.node.value.id, p)
          ensures FindPod(augmentedPods, r.node) == Some(p)
        {
          FindPodExactly(augmentedPods.value, r.node.value, p);
        }
      }
      if augmentedPods.None? {
        return Done;
      }
      if r.node.None? {
        return Failed;
      }
      var pod := FindPod(augmentedPods, r.node);
      if pod.None? {
        return Panicked;
      }
      var ucc := NewUniqlyConnectedClient(h, RoleOf(r.node), pod.value.namespace, pod.value.labels, pod.value.locality);
      r.node := Some(WithRole(r.node.value, ucc.resourceName));
      return Done;
    }

    /** A snapshot of the unique clients, in the map's iteration order. */
    method GetClients() returns (cs: seq<Client>)
      ensures |cs| == |uniqClients|
      ensures (set c | c in cs) == uniqClients.Values
      ensures Valid() ==> forall i, j | 0 <= i < j < |cs| :: cs[i].resourceName != cs[j].resourceName
    {
      cs := [];
      var todo := uniqClients.Keys;
      ghost var order: seq<string> := [];
      while todo != {}
        invariant todo <= uniqClients.Keys
        invariant |cs| == |order| && |cs| + |todo| == |uniqClients|
        invariant forall i | 0 <= i < |order| ::
                    order[i] in uniqClients && order[i] !in todo && cs[i] == uniqClients[order[i]]
        invariant forall n | n in uniqClients :: n in todo || n in order
        invariant forall i, j | 0 <= i < j < |order| :: order[i] != order[j]
        decreases |todo|
      {
        var n :| n in todo;
        cs := cs + [uniqClients[n]];
        todo := todo - {n};
        order := order + [n];
      }
      forall c | c in uniqClients.Values ensures c in cs {
        var n :| n in uniqClients && uniqClients[n] == c;
        var i :| 0 <= i < |order| && order[i] == n;
        assert cs[i] == c;
      }
    }
  }

  /** The callbacks handed to the xDS server: the role gate in front of a collection
      that is published when it has been built. */
  class GatedCallbacks {
    var collection: CallbacksCollection?

    constructor ()
      ensures collection == null
    {
      collection := null;
    }

    /** What the gate adds to a stream request, for a valid collection and the positive
        ids the server hands out: it never panics, it fails exactly on a fresh stream
        without a pod and then changes nothing, and otherwise the cache key of the
        rewritten node is the registered name of the stream and passes the gate again. */
    method OnStreamRequest(streamId: int64, r: DiscoveryRequest) returns (o: Outcome)
      modifies (if collection == null then {} else {collection as object}) + {r}
      ensures collection == old(collection)
      ensures !IsKubeGatewayCacheKey(RoleOf(old(r.node))) ==>
                o == Done && unchanged(r) && (collection != null ==> unchanged(collection))
      ensures IsKubeGatewayCacheKey(RoleOf(old(r.node))) && collection == null ==> o == Failed && unchanged(r)
      ensures IsKubeGatewayCacheKey(RoleOf(old(r.node))) && collection != null
              && streamId > 0 && old(collection.Valid()) && old(KeysPassGate(collection)) ==>
                var c := collection;
                && c.Valid() && KeysPassGate(c)
                && o != Panicked
                && (o == Failed <==> old(streamId !in c.clients && c.augmentedPods.Some?
                                         && FindPod(c.augmentedPods, r.node).None?))
                && (o == Failed ==>
                      c.Index() == old(c.Index()) && c.triggers == old(c.triggers) && r.node == old(r.node))
                && (o == Done ==>
                      && streamId in c.clients && c.clients[streamId] in c.uniqClients
                      && CacheKey(r.node) == c.clients[streamId]
                      && IsKubeGatewayCacheKey(RoleOf(r.node))
                      && old(c.uniqClients.Keys) <= c.uniqClients.Keys
                      && (old(streamId in c.clients) ==> c.clients == old(c.clients))
                      && c.triggers == old(c.triggers) + if c.uniqClients.Keys != old(c.uniqClients.Keys) then 1 else 0)
    {
      var role := RoleOf(r.node);
      if !IsKubeGatewayCacheKey(role) {
        return Done;
      }
      var c := collection;
      if c == null {
        return Failed;
      }
      ghost var was, cfg, pod := c.Index(), c.Settings(), FindPod(c.augmentedPods, r.node);
      o := c.OnStreamRequest(streamId, r);
      if streamId > 0 && Registry.Valid(was) && NamesPassGate(was) {
        AddKeepsValid(cfg, was, streamId, role, pod);
        AddReportsGrowth(cfg, was, streamId, role, pod);
        NamesKeepPassingGate(cfg, was, streamId, role, pod);
      }
    }

    method OnStreamClosed(streamId: int64)
      modifies if collection == null then {} else {collection}
      ensures collection == old(collection)
      ensures collection != null ==>
                && collection.Index() == CleanupStep(old(collection.Index()), streamId).0
                && (old(collection.Valid()) ==>
                      && collection.Valid()
                      && collection.triggers == old(collection.triggers) +
                           if collection.uniqClients.Keys != old(collection.uniqClients.Keys) then 1 else 0)
    {
      if collection != null {
        collection.OnStreamClosed(streamId);
      }
    }

    /** A fetch never touches the collection.  Past the gate it writes the role that a fresh
        stream with this role and pod would get, and that role passes the gate again. */
    method OnFetchRequests(r: DiscoveryRequest) returns (o: Outcome)
      modifies r
      ensures !IsKubeGatewayCacheKey(RoleOf(old(r.node))) ==> o == Done && unchanged(r)
      ensures IsKubeGatewayCacheKey(RoleOf(old(r.node))) && collection == null ==> o == Failed && unchanged(r)
      ensures o == Panicked <==>
                && IsKubeGatewayCacheKey(RoleOf(old(r.node))) && collection != null
                && collection.augmentedPods.Some? && FindPod(collection.augmentedPods, old(r.node)).None?
      ensures IsKubeGatewayCacheKey(RoleOf(old(r.node))) && collection != null && collection.augmentedPods.None? ==>
                o == Done && r.node == old(r.node)
      ensures IsKubeGatewayCacheKey(RoleOf(old(r.node))) && collection != null && collection.augmentedPods.Some?
              && FindPod(collection.augmentedPods, old(r.node)).Some? ==>
                var name := ClientFor(collection.Settings(), RoleOf(old(r.node)),
                                      FindPod(collection.augmentedPods, old(r.node))).resourceName;
                && o == Done && old(r.node).Some? && r.node == Some(WithRole(old(r.node).value, name))
                && CacheKey(r.node) == name && IsKubeGatewayCacheKey(name)
                && (forall s: State, id | id !in s.clients ::
                      AddStep(collection.Settings(), s, id, RoleOf(old(r.node)),
                              FindPod(collection.augmentedPods, old(r.node))).1.Registered?
                      && AddStep(collection.Settings(), s, id, RoleOf(old(r.node)),
                                 FindPod(collection.augmentedPods, old(r.node))).1.name == name)
    {
      if !IsKubeGatewayCacheKey(RoleOf(r.node)) {
        return Done;
      }
      if collection == null {
        return Failed;
      }
      ghost var role, pod := RoleOf(r.node), FindPod(collection.augmentedPods, r.node);
      o := collection.OnFetchRequest(r);
      if pod.Some? {
        GateSurvivesEncoding(role, HashOf(collection.h, pod.value.labels), pod.value.namespace);
        assert 0 !in EMPTY.clients;
      }
    }
  }

  // ---- names behind the gate ----

  ghost predicate NamesPassGate(s: State)
  {
    forall id | id in s.clients :: IsKubeGatewayCacheKey(s.clients[id])
  }

  ghost predicate KeysPassGate(c: CallbacksCollection)
    reads c
  {
    NamesPassGate(c.Index())
  }

  lemma NamesKeepPassingGate(cfg: Config, s: State, id: int64, role: string, pod: Option<LocalityPod>)
    requires IsKubeGatewayCacheKey(role) && NamesPassGate(s)
    ensures NamesPassGate(AddStep(cfg, s, id, role, pod).0)
    ensures var r := AddStep(cfg, s, id, role, pod).1;
            r.Registered? ==> IsKubeGatewayCacheKey(r.name) && r.name != ""
  {
    if cfg.usePods && pod.Some? {
      GateSurvivesEncoding(role, HashOf(cfg.h, pod.value.labels), pod.value.namespace);
    } else if !cfg.usePods {
      GateSurvivesEncoding(role, HashOf(cfg.h, map[]), "");
    }
    if id in s.clients {
      assert GATEWAY_API_PROXY_VALUE <= s.clients[id];
    }
  }

  /** A record without a name, the one case in which a new client triggers nothing, needs an
      empty role: the gate never lets it through. */
  lemma NamelessExactly(cfg: Config, role: string, pod: Option<LocalityPod>)
    requires cfg.usePods ==> pod.Some?
    ensures ClientFor(cfg, role, pod).resourceName == ""
            <==> role == "" && (cfg.usePods ==> pod.value.namespace == "")
    ensures ClientFor(cfg, role, pod).resourceName == "" ==> !IsKubeGatewayCacheKey(role)
  {
    if role == "" {
      assert |GATEWAY_API_PROXY_VALUE| > |role|;
    }
  }
}
