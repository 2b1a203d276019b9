/** Whole runs of the registry: callbacks racing each other, the pod collection and the
    recomputation of the published client list.

    A callback is a thread.  It looks its pod up outside the lock, takes the lock once,
    and triggers a recomputation after the lock is released.  A recomputation consumes
    the trigger, reads the clients under the lock and publishes what it read; anything
    may happen in between (callbackscollections.go:32-145, uniqueclients.go:37-56).
 */
module RegistryRuns {
  import opened Options
  import opened Words
  import opened LabelHash
  import opened ResourceNames
  import opened Pods
  import opened Xds
  import opened Registry
  import opened Callbacks

  datatype Thread =
    | Requesting(id: int64, role: string, pod: Option<LocalityPod>)
    | Closing(id: int64)
    | OwesTrigger

  datatype Recompute = Idle | Started | Holding(read: set<Client>)

  /** `records` remembers, for the statements only, the record each open stream got. */
  datatype World = World(
    index: State,
    records: map<int64, Client>,
    threads: map<nat, Thread>,
    triggered: bool,
    recompute: Recompute,
    published: set<Client>)

  /** The collection is published empty and its first computation is under way. */
  const INITIAL := World(EMPTY, map[], map[], false, Started, {})

  datatype Step =
    | Request(t: nat, id: int64, role: string, pod: Option<LocalityPod>)  // past the gate, pod looked up
    | Close(t: nat, id: int64)
    | LockedAdd(t: nat)
    | LockedCleanup(t: nat)
    | Trigger(t: nat)
    | StartRecompute
    | ReadClients
    | Publish

  predicate Enabled(w: World, s: Step)
  {
    match s
    case Request(t, id, role, pod) =>
      t !in w.threads && id > 0 && IsKubeGatewayCacheKey(role)
    case Close(t, id) => t !in w.threads
    case LockedAdd(t) => t in w.threads && w.threads[t].Requesting?
    case LockedCleanup(t) => t in w.threads && w.threads[t].Closing?
    case Trigger(t) => t in w.threads && w.threads[t].OwesTrigger?
    case StartRecompute => w.triggered && w.recompute.Idle?
    case ReadClients => w.recompute.Started?
    case Publish => w.recompute.Holding?
  }

  /** A thread that reported a change still owes its trigger; any other is done. */
  function Finish(threads: map<nat, Thread>, t: nat, changed: bool): map<nat, Thread>
  {
    if changed then threads[t := OwesTrigger] else threads - {t}
  }

  ghost function Apply(cfg: Config, w: World, s: Step): World
    requires Enabled(w, s)
  {
    match s
    case Request(t, id, role, pod) => w.(threads := w.threads[t := Requesting(id, role, pod)])
    case Close(t, id) => w.(threads := w.threads[t := Closing(id)])
    case LockedAdd(t) =>
      var th := w.threads[t];
      var (after, result) := AddStep(cfg, w.index, th.id, th.role, th.pod);
      w.(index := after,
         records := if th.id in after.clients && th.id !in w.index.clients
                    then w.records[th.id := ClientFor(cfg, th.role, th.pod)] else w.records,
         threads := Finish(w.threads, t, result.Registered? && result.name != "" && result.isNew))
    case LockedCleanup(t) =>
      var (after, dropped) := CleanupStep(w.index, w.threads[t].id);
      w.(index := after,
         records := w.records - {w.threads[t].id},
         threads := Finish(w.threads, t, dropped.Some?))
    case Trigger(t) => w.(threads := w.threads - {t}, triggered := true)
    case StartRecompute => w.(triggered := false, recompute := Started)
    case ReadClients => w.(recompute := Holding(w.index.uniq.Values))
    case Publish => w.(recompute := Idle, published := w.recompute.read)
  }

  /** `pods` are the pods the collection may ever hold. */
  ghost predicate FindsOnly(pods: iset<LocalityPod>, s: Step)
  {
    s.Request? && s.pod.Some? ==> s.pod.value in pods
  }

  ghost predicate Legal(cfg: Config, pods: iset<LocalityPod>, w: World, run: seq<Step>)
    decreases |run|
  {
    run == []
    || (Enabled(w, run[0]) && FindsOnly(pods, run[0]) && Legal(cfg, pods, Apply(cfg, w, run[0]), run[1..]))
  }

  ghost function After(cfg: Config, pods: iset<LocalityPod>, w: World, run: seq<Step>): World
    requires Legal(cfg, pods, w, run)
    decreases |run|
  {
    if run == [] then w else After(cfg, pods, Apply(cfg, w, run[0]), run[1..])
  }

  ghost predicate Reachable(cfg: Config, pods: iset<LocalityPod>, w: World)
  {
    exists run :: Legal(cfg, pods, INITIAL, run) && After(cfg, pods, INITIAL, run) == w
  }

  // ---- the index and its notifications ----

  ghost predicate TriggerPending(w: World)
  {
    w.triggered || exists t :: t in w.threads && w.threads[t].OwesTrigger?
  }

  /** The index is valid and all names, registered or on their way, are past the gate. */
  ghost predicate Sound(w: World)
  {
    && Valid(w.index)
    && NamesPassGate(w.index)
    && (forall t | t in w.threads && w.threads[t].Requesting? ::
          w.threads[t].id > 0 && IsKubeGatewayCacheKey(w.threads[t].role))
  }

  /** The records name the open streams. */
  ghost predicate Recorded(w: World)
  {
    && w.records.Keys == w.index.clients.Keys
    && (forall id | id in w.records :: w.records[id].resourceName == w.index.clients[id])
  }

  /** What was published, or is about to be, is current unless a trigger is on its way. */
  ghost predicate Notified(w: World)
  {
    match w.recompute
    case Idle => w.published == w.index.uniq.Values || TriggerPending(w)
    case Started => true
    case Holding(read) => read == w.index.uniq.Values || TriggerPending(w)
  }

  ghost predicate Invariant(w: World)
  {
    Sound(w) && Recorded(w) && Notified(w)
  }

  /** Pending triggers survive every step that does not consume them. */
  lemma PendingAfterFinish(w: World, v: World, t: nat, changed: bool)
    requires v.threads == Finish(w.threads, t, changed) && v.triggered == w.triggered
    requires t in w.threads && !w.threads[t].OwesTrigger?
    ensures changed ==> TriggerPending(v)
    ensures TriggerPending(w) ==> TriggerPending(v)
  {
    if changed {
      assert v.threads[t].OwesTrigger?;
    }
    if x :| x in w.threads && w.threads[x].OwesTrigger? {
      assert x in v.threads && v.threads[x].OwesTrigger?;
    }
  }

  lemma LockedAddKeepsSound(cfg: Config, w: World, t: nat)
    requires Sound(w) && Enabled(w, LockedAdd(t))
    ensures Sound(Apply(cfg, w, LockedAdd(t)))
  {
    var th := w.threads[t];
    AddKeepsValid(cfg, w.index, th.id, th.role, th.pod);
    NamesKeepPassingGate(cfg, w.index, th.id, th.role, th.pod);
  }

  lemma LockedAddKeepsRecorded(cfg: Config, w: World, t: nat)
    requires Recorded(w) && Enabled(w, LockedAdd(t))
    ensures Recorded(Apply(cfg, w, LockedAdd(t)))
  {}

  lemma LockedAddKeepsNotified(cfg: Config, w: World, t: nat)
    requires Sound(w) && Notified(w) && Enabled(w, LockedAdd(t))
    ensures Notified(Apply(cfg, w, LockedAdd(t)))
  {
    var th := w.threads[t];
    var (after, result) := AddStep(cfg, w.index, th.id, th.role, th.pod);
    AddReportsGrowth(cfg, w.index, th.id, th.role, th.pod);
    NamesKeepPassingGate(cfg, w.index, th.id, th.role, th.pod);
    PendingAfterFinish(w, Apply(cfg, w, LockedAdd(t)), t, result.Registered? && result.name != "" && result.isNew);
  }

  lemma LockedCleanupKeepsSound(cfg: Config, w: World, t: nat)
    requires Sound(w) && Enabled(w, LockedCleanup(t))
    ensures Sound(Apply(cfg, w, LockedCleanup(t)))
  {
    CleanupKeepsValid(w.index, w.threads[t].id);
    assert forall id | id in CleanupStep(w.index, w.threads[t].id).0.clients :: id in w.index.clients;
  }

  lemma LockedCleanupKeepsRecorded(cfg: Config, w: World, t: nat)
    requires Recorded(w) && Enabled(w, LockedCleanup(t))
    ensures Recorded(Apply(cfg, w, LockedCleanup(t)))
  {}

  lemma LockedCleanupKeepsNotified(cfg: Config, w: World, t: nat)
    requires Sound(w) && Notified(w) && Enabled(w, LockedCleanup(t))
    ensures Notified(Apply(cfg, w, LockedCleanup(t)))
  {
    var id := w.threads[t].id;
    CleanupReportsShrinkage(w.index, id);
    PendingAfterFinish(w, Apply(cfg, w, LockedCleanup(t)), t, CleanupStep(w.index, id).1.Some?);
  }

  lemma ArrivalKeepsInvariant(cfg: Config, w: World, s: Step)
    requires Invariant(w) && Enabled(w, s) && (s.Request? || s.Close?)
    ensures Invariant(Apply(cfg, w, s))
  {
    var v := Apply(cfg, w, s);
    if x :| x in w.threads && w.threads[x].OwesTrigger? {
      assert x in v.threads && v.threads[x].OwesTrigger?;
    }
  }

  lemma StepKeepsInvariant(cfg: Config, w: World, s: Step)
    requires Invariant(w) && Enabled(w, s)
    ensures Invariant(Apply(cfg, w, s))
  {
    match s
    case Request(_, _, _, _) => ArrivalKeepsInvariant(cfg, w, s);
    case Close(_, _) => ArrivalKeepsInvariant(cfg, w, s);
    case LockedAdd(t) =>
      LockedAddKeepsSound(cfg, w, t);
      LockedAddKeepsRecorded(cfg, w, t);
      LockedAddKeepsNotified(cfg, w, t);
    case LockedCleanup(t) =>
      LockedCleanupKeepsSound(cfg, w, t);
      LockedCleanupKeepsRecorded(cfg, w, t);
      LockedCleanupKeepsNotified(cfg, w, t);
    case Trigger(t) =>
    case StartRecompute =>
    case ReadClients =>
    case Publish =>
      var v := Apply(cfg, w, s);
      if x :| x in w.threads && w.threads[x].OwesTrigger? {
        assert v.threads[x].OwesTrigger?;
      }
  }

  lemma {:induction false} RunKeepsInvariant(cfg: Config, pods: iset<LocalityPod>, w: World, run: seq<Step>)
    requires Legal(cfg, pods, w, run) && Invariant(w)
    ensures Invariant(After(cfg, pods, w, run))
    decreases |run|
  {
    if run == [] {
    } else {
      StepKeepsInvariant(cfg, w, run[0]);
      RunKeepsInvariant(cfg, pods, Apply(cfg, w, run[0]), run[1..]);
    }
  }

  lemma ReachableInvariant(cfg: Config, pods: iset<LocalityPod>, w: World)
    requires Reachable(cfg, pods, w)
    ensures Invariant(w)
  {
    var run :| Legal(cfg, pods, INITIAL, run) && After(cfg, pods, INITIAL, run) == w;
    assert NamesPassGate(EMPTY) && Valid(EMPTY);
    RunKeepsInvariant(cfg, pods, INITIAL, run);
  }

  /** In every reachable world the three maps agree with the open streams, the counters sum
      to their number, the next registration wraps no counter, and neither does the next
      close: the counter of every open stream is at least one. */
  lemma ReachableIndex(cfg: Config, pods: iset<LocalityPod>, w: World)
    requires Reachable(cfg, pods, w)
    ensures Valid(w.index)
    ensures Total(w.index.counts) == |w.index.clients|
    ensures forall id: int64, name | id > 0 && id !in w.index.clients :: Count(w.index, name) + 1 < UINT64_LIMIT
    ensures forall id | id in w.index.clients :: Count(w.index, w.index.clients[id]) >= 1
  {
    ReachableInvariant(cfg, pods, w);
    ValidTotal(w.index);
    forall id: int64, name | id > 0 && id !in w.index.clients ensures Count(w.index, name) + 1 < UINT64_LIMIT {
      CounterNeverOverflows(w.index, id, name);
    }
    forall id | id in w.index.clients ensures Count(w.index, w.index.clients[id]) >= 1 {
      NamedStreams(w.index, w.index.clients[id]);
      assert id in StreamsNamed(w.index.clients, w.index.clients[id]);
    }
  }

  /** No lost update: in every reachable world, once no recomputation runs and no trigger
      is pending, the published list is exactly the registered unique clients. */
  lemma NoLostUpdate(cfg: Config, pods: iset<LocalityPod>, w: World)
    requires Reachable(cfg, pods, w)
    requires w.recompute.Idle? && !TriggerPending(w)
    ensures w.published == w.index.uniq.Values
  {
    ReachableInvariant(cfg, pods, w);
  }

  // ---- draining ----

  function Remaining(r: Recompute): nat
  {
    match r case Idle => 0 case Holding(_) => 1 case Started => 2
  }

  /** An upper bound on the steps until the published list is current. */
  ghost function Effort(w: World): nat
  {
    |w.threads| + (if TriggerPending(w) then 3 else 0) + Remaining(w.recompute)
  }

  ghost predicate Settled(w: World)
  {
    w.recompute.Idle? && !TriggerPending(w)
  }

  predicate IsBackgroundStep(s: Step)
  {
    s.Trigger? || s.StartRecompute? || s.ReadClients? || s.Publish?
  }

  lemma TriggerLowersEffort(cfg: Config, w: World, t: nat)
    requires Enabled(w, Trigger(t))
    ensures Effort(Apply(cfg, w, Trigger(t))) < Effort(w)
  {
    assert (w.threads - {t}).Keys == w.threads.Keys - {t};
  }

  lemma DrainStep(cfg: Config, w: World) returns (s: Step)
    requires !Settled(w)
    ensures Enabled(w, s) && IsBackgroundStep(s)
    ensures Apply(cfg, w, s).index == w.index
    ensures Effort(Apply(cfg, w, s)) < Effort(w)
  {
    if t :| t in w.threads && w.threads[t].OwesTrigger? {
      s := Trigger(t);
      TriggerLowersEffort(cfg, w, t);
    } else {
      s := match w.recompute case Started => ReadClients case Holding(_) => Publish case Idle => StartRecompute;
      var v := Apply(cfg, w, s);
      assert v.threads == w.threads;
      assert TriggerPending(v) == v.triggered && TriggerPending(w) == w.triggered;
    }
  }

  /** From every world a bounded run of triggers and recomputations alone, with no new
      request or close, brings the published list up to date. */
  lemma Drain(cfg: Config, pods: iset<LocalityPod>, w: World) returns (run: seq<Step>)
    requires Invariant(w)
    ensures Legal(cfg, pods, w, run)
    ensures forall i | 0 <= i < |run| :: IsBackgroundStep(run[i])
    ensures |run| <= Effort(w)
    ensures var v := After(cfg, pods, w, run);
            v.index == w.index && Settled(v) && v.published == w.index.uniq.Values
    decreases Effort(w)
  {
    if Settled(w) {
      run := [];
    } else {
      var s := DrainStep(cfg, w);
      StepKeepsInvariant(cfg, w, s);
      var rest := Drain(cfg, pods, Apply(cfg, w, s));
      run := [s] + rest;
      assert run[1..] == rest;
    }
  }

  // ---- building runs ----

  lemma {:induction false} LegalSnoc(cfg: Config, pods: iset<LocalityPod>, w: World, run: seq<Step>, s: Step)
    requires Legal(cfg, pods, w, run)
    requires Enabled(After(cfg, pods, w, run), s) && FindsOnly(pods, s)
    ensures Legal(cfg, pods, w, run + [s])
    ensures After(cfg, pods, w, run + [s]) == Apply(cfg, After(cfg, pods, w, run), s)
    decreases |run|
  {
    var longer := run + [s];
    if run == [] {
      assert longer[1..] == [];
    } else {
      LegalSnoc(cfg, pods, Apply(cfg, w, run[0]), run[1..], s);
      assert longer[1..] == run[1..] + [s];
    }
  }

  lemma ReachableNext(cfg: Config, pods: iset<LocalityPod>, w: World, s: Step)
    requires Reachable(cfg, pods, w) && Enabled(w, s) && FindsOnly(pods, s)
    ensures Reachable(cfg, pods, Apply(cfg, w, s))
  {
    var run :| Legal(cfg, pods, INITIAL, run) && After(cfg, pods, INITIAL, run) == w;
    LegalSnoc(cfg, pods, INITIAL, run, s);
  }

  // ---- one shared record stands for all its streams ----

  /** The record stored under a name is the record of every open stream of that name. */
  ghost predicate Shared(w: World)
  {
    forall id | id in w.records ::
      && id in w.index.clients
      && w.index.clients[id] in w.index.uniq
      && w.index.uniq[w.index.clients[id]] == w.records[id]
  }

  ghost predicate Originates(cfg: Config, pods: iset<LocalityPod>, c: Client)
  {
    exists role, pod: Option<LocalityPod> ::
      && (cfg.usePods ==> pod.Some? && pod.value in pods)
      && c == ClientFor(cfg, role, pod)
  }

  ghost predicate AllOriginate(cfg: Config, pods: iset<LocalityPod>, w: World)
  {
    && (forall id | id in w.records :: Originates(cfg, pods, w.records[id]))
    && (forall n | n in w.index.uniq :: Originates(cfg, pods, w.index.uniq[n]))
    && (forall t | t in w.threads && w.threads[t].Requesting? && w.threads[t].pod.Some? ::
          w.threads[t].pod.value in pods)
  }

  lemma LockedAddKeepsOrigins(cfg: Config, pods: iset<LocalityPod>, w: World, t: nat)
    requires AllOriginate(cfg, pods, w) && Enabled(w, LockedAdd(t))
    ensures AllOriginate(cfg, pods, Apply(cfg, w, LockedAdd(t)))
  {
    var th := w.threads[t];
    if th.id !in w.index.clients && !(cfg.usePods && th.pod.None?) {
      assert Originates(cfg, pods, ClientFor(cfg, th.role, th.pod));
    }
  }

  lemma StepKeepsOrigins(cfg: Config, pods: iset<LocalityPod>, w: World, s: Step)
    requires AllOriginate(cfg, pods, w) && Enabled(w, s) && FindsOnly(pods, s)
    ensures AllOriginate(cfg, pods, Apply(cfg, w, s))
  {
    if s.LockedAdd? {
      LockedAddKeepsOrigins(cfg, pods, w, s.t);
    }
  }

  lemma {:induction false} RunKeepsOrigins(cfg: Config, pods: iset<LocalityPod>, w: World, run: seq<Step>)
    requires Legal(cfg, pods, w, run) && AllOriginate(cfg, pods, w)
    ensures AllOriginate(cfg, pods, After(cfg, pods, w, run))
    decreases |run|
  {
    if run == [] {
    } else {
      StepKeepsOrigins(cfg, pods, w, run[0]);
      RunKeepsOrigins(cfg, pods, Apply(cfg, w, run[0]), run[1..]);
    }
  }

  /** Joins name encoding, label hashing and locality: equal names mean equal records. */
  lemma NameDeterminesRecord(cfg: Config, pods: iset<LocalityPod>, c: Client, d: Client)
    requires Originates(cfg, pods, c) && Originates(cfg, pods, d)
    requires c.resourceName == d.resourceName
    requires cfg.usePods ==> GoodNamespaces(pods) && Faithful(cfg.h, pods)
    ensures c == d
  {
    if cfg.usePods {
      EncodingInjective(Parts(c.role, HashOf(cfg.h, c.labels), c.namespace),
                        Parts(d.role, HashOf(cfg.h, d.labels), d.namespace));
    }
  }

  lemma SharedInRuns(cfg: Config, pods: iset<LocalityPod>, w: World)
    requires Reachable(cfg, pods, w)
    requires cfg.usePods ==> GoodNamespaces(pods) && Faithful(cfg.h, pods)
    ensures Shared(w)
  {
    ReachableInvariant(cfg, pods, w);
    var run :| Legal(cfg, pods, INITIAL, run) && After(cfg, pods, INITIAL, run) == w;
    RunKeepsOrigins(cfg, pods, INITIAL, run);
    forall id | id in w.records
      ensures w.index.clients[id] in w.index.uniq && w.index.uniq[w.index.clients[id]] == w.records[id]
    {
      assert w.index.clients[id] in w.index.clients.Values;
      NameDeterminesRecord(cfg, pods, w.index.uniq[w.index.clients[id]], w.records[id]);
    }
  }

  /** A request on a fresh stream with a pod can always run to its registration. */
  lemma RegisterFresh(cfg: Config, pods: iset<LocalityPod>, w: World, t: nat, id: int64, pod: LocalityPod)
    returns (v: World)
    requires Reachable(cfg, pods, w) && pod in pods
    requires t !in w.threads && id > 0 && id !in w.index.clients
    ensures Reachable(cfg, pods, v)
    ensures var c := ClientFor(cfg, GATEWAY_API_PROXY_VALUE, Some(pod));
            v.index == Enter(w.index, id, c) && v.records == w.records[id := c]
    ensures forall u | u in v.threads :: u == t || u in w.threads
  {
    var s := Request(t, id, GATEWAY_API_PROXY_VALUE, Some(pod));
    ReachableNext(cfg, pods, w, s);
    var u := Apply(cfg, w, s);
    ReachableNext(cfg, pods, u, LockedAdd(t));
    v := Apply(cfg, u, LockedAdd(t));
  }

  /** Two pods that share name but not record: the second stream is served the first's. */
  lemma UnfaithfulPodsBreakSharing(cfg: Config, pods: iset<LocalityPod>, p: LocalityPod, q: LocalityPod)
    returns (w: World)
    requires cfg.usePods && p in pods && q in pods
    requires p.namespace == q.namespace && HashOf(cfg.h, p.labels) == HashOf(cfg.h, q.labels)
    requires p.labels != q.labels || p.locality != q.locality
    ensures Reachable(cfg, pods, w) && !Shared(w)
  {
    assert Legal(cfg, pods, INITIAL, []) && After(cfg, pods, INITIAL, []) == INITIAL;
    var v := RegisterFresh(cfg, pods, INITIAL, 0, 1, p);
    w := RegisterFresh(cfg, pods, v, 1, 2, q);
    var c, d := ClientFor(cfg, GATEWAY_API_PROXY_VALUE, Some(p)), ClientFor(cfg, GATEWAY_API_PROXY_VALUE, Some(q));
    assert c.resourceName == d.resourceName && c != d;
    assert Count(v.index, d.resourceName) == 1;
    assert w.records[2] == d && w.index.uniq[d.resourceName] == c;
  }

  /** Exactly the faithful pod sets make every shared record true in every run: also
      after the stream that created the record has closed. */
  lemma SharedRecordExact(cfg: Config, pods: iset<LocalityPod>)
    requires cfg.usePods && GoodNamespaces(pods)
    ensures (forall w | Reachable(cfg, pods, w) :: Shared(w)) <==> Faithful(cfg.h, pods)
  {
    if Faithful(cfg.h, pods) {
      forall w | Reachable(cfg, pods, w) ensures Shared(w) { SharedInRuns(cfg, pods, w); }
    } else {
      var p, q :| p in pods && q in pods && p.namespace == q.namespace
                  && HashOf(cfg.h, p.labels) == HashOf(cfg.h, q.labels)
                  && !(p.labels == q.labels && p.locality == q.locality);
      var w := UnfaithfulPodsBreakSharing(cfg, pods, p, q);
    }
  }

  /** The promise in the repository's own terms: no hash collision among the labels seen, no
      delimiter in namespaces, no own topology label showing through. */
  lemma CleanPodsShareTruly(cfg: Config, pods: iset<LocalityPod>, w: World)
    requires Reachable(cfg, pods, w)
    requires GoodNamespaces(pods) && CollisionFree(cfg.h, pods) && (forall p | p in pods :: CleanlyAugmented(p))
    ensures Shared(w)
  {
    CleanPodsAreFaithful(cfg.h, pods);
    SharedInRuns(cfg, pods, w);
  }

  lemma SameStreamsSameIndex(s: State, t: State)
    requires Valid(s) && Valid(t) && s.clients == t.clients
    requires forall id | id in s.clients ::
               s.clients[id] in s.uniq && s.clients[id] in t.uniq && s.uniq[s.clients[id]] == t.uniq[s.clients[id]]
    ensures s == t
  {
    assert s.counts == t.counts;
    forall n | n in s.uniq ensures s.uniq[n] == t.uniq[n] {
      assert n in s.clients.Values;
      var id :| id in s.clients && s.clients[id] == n;
    }
    assert s.uniq == t.uniq;
  }

  lemma SameRecordsSameClients(w: World, v: World)
    requires Recorded(w) && Recorded(v) && w.records == v.records
    ensures w.index.clients == v.index.clients
  {
    assert w.index.clients.Keys == v.index.clients.Keys;
    assert forall id | id in w.index.clients :: id in w.records && id in v.records;
  }

  lemma SameRecordsSameShares(w: World, v: World)
    requires Shared(w) && Shared(v) && w.records == v.records && w.records.Keys == w.index.clients.Keys
    requires w.index.clients == v.index.clients
    ensures forall id | id in w.index.clients ::
              var n := w.index.clients[id];
              n in w.index.uniq && n in v.index.uniq && w.index.uniq[n] == v.index.uniq[n]
  {}

  /** The incremental index is a function of the open streams alone: whatever the two
      histories, equal open streams mean equal maps. */
  lemma IndexForgetsHistory(cfg: Config, pods: iset<LocalityPod>, w: World, v: World)
    requires Reachable(cfg, pods, w) && Reachable(cfg, pods, v)
    requires cfg.usePods ==> GoodNamespaces(pods) && Faithful(cfg.h, pods)
    requires w.records == v.records
    ensures w.index == v.index
  {
    ReachableInvariant(cfg, pods, w);
    ReachableInvariant(cfg, pods, v);
    SharedInRuns(cfg, pods, w);
    SharedInRuns(cfg, pods, v);
    SameRecordsSameClients(w, v);
    SameRecordsSameShares(w, v);
    SameStreamsSameIndex(w.index, v.index);
  }

  // ---- a stream keeps its key ----

  ghost predicate Closes(w: World, s: Step, id: int64)
  {
    s.LockedCleanup? && s.t in w.threads && w.threads[s.t] == Closing(id)
  }

  ghost predicate StaysOpen(cfg: Config, pods: iset<LocalityPod>, w: World, run: seq<Step>, id: int64)
    requires Legal(cfg, pods, w, run)
    decreases |run|
  {
    run == [] || (!Closes(w, run[0], id) && StaysOpen(cfg, pods, Apply(cfg, w, run[0]), run[1..], id))
  }

  lemma {:induction false} RunKeepsName(cfg: Config, pods: iset<LocalityPod>, w: World, run: seq<Step>, id: int64)
    requires Legal(cfg, pods, w, run) && id in w.index.clients
    requires StaysOpen(cfg, pods, w, run, id)
    ensures var v := After(cfg, pods, w, run);
            id in v.index.clients && v.index.clients[id] == w.index.clients[id]
    decreases |run|
  {
    if run == [] {
    } else {
      RunKeepsName(cfg, pods, Apply(cfg, w, run[0]), run[1..], id);
    }
  }

  /** From registration to close, through any run, a stream keeps its name, the name stays
      registered, and every later request on the stream succeeds with that name whatever
      role it carries and whether or not its pod can still be found.  The name passes the
      gate, so a request that carries the rewritten role is admitted, and it is the cache
      key of the rewritten node. */
  lemma KeyIsSticky(cfg: Config, pods: iset<LocalityPod>, w: World, run: seq<Step>, id: int64)
    requires Invariant(w) && Legal(cfg, pods, w, run) && id in w.index.clients
    requires StaysOpen(cfg, pods, w, run, id)
    ensures var v := After(cfg, pods, w, run);
            && id in v.index.clients && v.index.clients[id] == w.index.clients[id]
            && v.index.clients[id] in v.index.uniq
            && (forall role, pod ::
                  AddStep(cfg, v.index, id, role, pod) == (v.index, Registered(w.index.clients[id], false)))
            && IsKubeGatewayCacheKey(v.index.clients[id])
            && (forall t, node, pod | t !in v.threads ::
                  Enabled(v, Request(t, id, RoleOf(Some(WithRole(node, v.index.clients[id]))), pod)))
            && (forall node :: CacheKey(Some(WithRole(node, v.index.clients[id]))) == v.index.clients[id])
  {
    RunKeepsName(cfg, pods, w, run, id);
    RunKeepsInvariant(cfg, pods, w, run);
    var v := After(cfg, pods, w, run);
    assert v.index.clients[id] in v.index.clients.Values;
  }
}
