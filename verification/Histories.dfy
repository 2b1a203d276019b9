/** The registry against its history.  The ledger is kept from the steps of a run alone: who
    asked for what, which streams are open and what record each was promised.  In every run
    the three maps are what the ledger says. */
module Histories {
  import opened Options
  import opened LabelHash
  import opened ResourceNames
  import opened Pods
  import opened Xds
  import opened Registry
  import opened Callbacks
  import opened RegistryRuns

  // ---- the ledger ----

  datatype Task = Register(id: int64, record: Option<Client>) | Leave(id: int64)

  datatype Ledger = Ledger(tasks: map<nat, Task>, open: map<int64, Client>)

  const BLANK := Ledger(map[], map[])

  /** The record a request asks for; none if its pod is needed and missing. */
  ghost function RecordOn(cfg: Config, role: string, pod: Option<LocalityPod>): Option<Client>
  {
    if !cfg.usePods then Some(Client(role, map[], Locality("", "", ""), "", role))
    else
      match pod
      case None => None
      case Some(p) => Some(Client(role, p.labels, p.locality, p.namespace, NameOn(cfg.h, role, p)))
  }

  /** A locked add opens its stream unless it is open or its pod is missing; a locked cleanup
      closes its stream; no other step opens or closes anything. */
  ghost function Note(cfg: Config, l: Ledger, s: Step): Ledger
  {
    match s
    case Request(t, id, role, pod) => l.(tasks := l.tasks[t := Register(id, RecordOn(cfg, role, pod))])
    case Close(t, id) => l.(tasks := l.tasks[t := Leave(id)])
    case LockedAdd(t) =>
      if t in l.tasks && l.tasks[t].Register? && l.tasks[t].id !in l.open && l.tasks[t].record.Some?
      then l.(open := l.open[l.tasks[t].id := l.tasks[t].record.value])
      else l
    case LockedCleanup(t) =>
      if t in l.tasks && l.tasks[t].Leave? then l.(open := l.open - {l.tasks[t].id}) else l
    case _ => l
  }

  ghost function NoteAll(cfg: Config, l: Ledger, run: seq<Step>): Ledger
    decreases |run|
  {
    if run == [] then l else NoteAll(cfg, Note(cfg, l, run[0]), run[1..])
  }

  // ---- the world agrees with the ledger ----

  ghost predicate Agrees(cfg: Config, w: World, l: Ledger)
  {
    && w.records == l.open
    && w.index.clients.Keys == l.open.Keys
    && (forall id | id in l.open :: w.index.clients[id] == l.open[id].resourceName)
    && (forall t | t in w.threads && w.threads[t].Requesting? ::
          var th := w.threads[t];
          t in l.tasks && l.tasks[t] == Register(th.id, RecordOn(cfg, th.role, th.pod)))
    && (forall t | t in w.threads && w.threads[t].Closing? :: t in l.tasks && l.tasks[t] == Leave(w.threads[t].id))
  }

  lemma RecordIsClientFor(cfg: Config, role: string, pod: Option<LocalityPod>)
    ensures RecordOn(cfg, role, pod).Some? <==> (cfg.usePods ==> pod.Some?)
    ensures RecordOn(cfg, role, pod).Some? ==> RecordOn(cfg, role, pod).value == ClientFor(cfg, role, pod)
  {
    if !cfg.usePods {
      ClientParts(cfg.h, role, "", map[], NO_LOCALITY);
    } else if pod.Some? {
      ClientParts(cfg.h, role, pod.value.namespace, pod.value.labels, pod.value.locality);
    }
  }

  lemma AddAgrees(cfg: Config, w: World, l: Ledger, t: nat)
    requires Agrees(cfg, w, l) && Enabled(w, LockedAdd(t))
    ensures Agrees(cfg, Apply(cfg, w, LockedAdd(t)), Note(cfg, l, LockedAdd(t)))
  {
    hide RecordOn, ClientFor;
    var th := w.threads[t];
    RecordIsClientFor(cfg, th.role, th.pod);
  }

  lemma CleanupAgrees(cfg: Config, w: World, l: Ledger, t: nat)
    requires Agrees(cfg, w, l) && Enabled(w, LockedCleanup(t))
    ensures Agrees(cfg, Apply(cfg, w, LockedCleanup(t)), Note(cfg, l, LockedCleanup(t)))
  {
    hide RecordOn;
  }

  lemma StepAgrees(cfg: Config, w: World, l: Ledger, s: Step)
    requires Agrees(cfg, w, l) && Enabled(w, s)
    ensures Agrees(cfg, Apply(cfg, w, s), Note(cfg, l, s))
  {
    hide RecordOn, AddStep, CleanupStep;
    match s
    case LockedAdd(t) => AddAgrees(cfg, w, l, t);
    case LockedCleanup(t) => CleanupAgrees(cfg, w, l, t);
    case _ =>
  }

  lemma {:induction false} RunAgrees(cfg: Config, pods: iset<LocalityPod>, w: World, l: Ledger, run: seq<Step>)
    requires Legal(cfg, pods, w, run) && Agrees(cfg, w, l)
    ensures Agrees(cfg, After(cfg, pods, w, run), NoteAll(cfg, l, run))
    decreases |run|
  {
    if run == [] {
    } else {
      StepAgrees(cfg, w, l, run[0]);
      RunAgrees(cfg, pods, Apply(cfg, w, run[0]), Note(cfg, l, run[0]), run[1..]);
    }
  }

  /** The open streams of a name. */
  ghost function OpenNamed(open: map<int64, Client>, name: string): set<int64>
  {
    set id | id in open && open[id].resourceName == name
  }

  /** After every run the maps are those one gets by recomputing them from the open streams of
      the ledger: each stream under the name of its record, each name with the number of its
      streams; and, if no two pods are confused, each name with the record of its streams. */
  lemma HistoryDecides(cfg: Config, pods: iset<LocalityPod>, run: seq<Step>)
    requires Legal(cfg, pods, INITIAL, run)
    ensures var w, open := After(cfg, pods, INITIAL, run), NoteAll(cfg, BLANK, run).open;
            && w.index.clients == (map id | id in open :: open[id].resourceName)
            && (forall n :: n in w.index.counts <==> OpenNamed(open, n) != {})
            && (forall n | n in w.index.counts :: w.index.counts[n] == |OpenNamed(open, n)|)
            && w.index.uniq.Keys == w.index.counts.Keys
            && ((cfg.usePods ==> GoodNamespaces(pods) && Faithful(cfg.h, pods)) ==>
                  forall id | id in open ::
                    open[id].resourceName in w.index.uniq && w.index.uniq[open[id].resourceName] == open[id])
  {
    var w, open := After(cfg, pods, INITIAL, run), NoteAll(cfg, BLANK, run).open;
    RunAgrees(cfg, pods, INITIAL, BLANK, run);
    assert Reachable(cfg, pods, w);
    ReachableInvariant(cfg, pods, w);
    forall n ensures OpenNamed(open, n) == StreamsNamed(w.index.clients, n)
             ensures n in w.index.counts <==> OpenNamed(open, n) != {}
    {
      assert OpenNamed(open, n) == StreamsNamed(w.index.clients, n);
      NamedStreams(w.index, n);
    }
    if cfg.usePods ==> GoodNamespaces(pods) && Faithful(cfg.h, pods) { SharedInRuns(cfg, pods, w); }
  }

  // ---- opening and closing in a run ----

  lemma TwoSteps(cfg: Config, pods: iset<LocalityPod>, w: World, a: Step, b: Step)
    requires Reachable(cfg, pods, w) && Enabled(w, a) && FindsOnly(pods, a)
    requires Enabled(Apply(cfg, w, a), b) && FindsOnly(pods, b)
    ensures Legal(cfg, pods, w, [a, b])
    ensures After(cfg, pods, w, [a, b]) == Apply(cfg, Apply(cfg, w, a), b)
    ensures Reachable(cfg, pods, After(cfg, pods, w, [a, b]))
  {
    hide Apply, Enabled;
    LegalSnoc(cfg, pods, w, [], a);
    LegalSnoc(cfg, pods, w, [a], b);
    assert [] + [a] == [a] && [a] + [b] == [a, b];
    ReachableNext(cfg, pods, w, a);
    ReachableNext(cfg, pods, Apply(cfg, w, a), b);
  }

  /** Everything but the index, the records and the threads is as it was, and the threads but
      for a trigger that `t` owes exactly if the unique names changed. */
  ghost predicate OnlyOwes(w: World, v: World, t: nat)
  {
    && v.threads == (if v.index.uniq.Keys != w.index.uniq.Keys then w.threads[t := OwesTrigger] else w.threads)
    && v.triggered == w.triggered && v.recompute == w.recompute && v.published == w.published
  }

  lemma FinishedThreads(threads: map<nat, Thread>, t: nat, th: Thread, changed: bool)
    requires t !in threads
    ensures Finish(threads[t := th], t, changed) == if changed then threads[t := OwesTrigger] else threads
  {}

  /** Every stream can be closed: it is removed and no other, its name is dropped if it was
      the last of that name, and a trigger is owed exactly then. */
  lemma CloseInRun(cfg: Config, pods: iset<LocalityPod>, w: World, t: nat, id: int64)
    requires Reachable(cfg, pods, w) && t !in w.threads
    ensures var run := [Close(t, id), LockedCleanup(t)];
            && Legal(cfg, pods, w, run)
            && var v := After(cfg, pods, w, run);
               && Reachable(cfg, pods, v) && OnlyOwes(w, v, t)
               && v.index.clients == w.index.clients - {id}
               && v.index.uniq == (map n | n in w.index.uniq && n in v.index.clients.Values :: w.index.uniq[n])
  {
    TwoSteps(cfg, pods, w, Close(t, id), LockedCleanup(t));
    CloseEffect(cfg, pods, w, t, id);
  }

  lemma CloseEffect(cfg: Config, pods: iset<LocalityPod>, w: World, t: nat, id: int64)
    requires Reachable(cfg, pods, w) && t !in w.threads
    ensures var v := Apply(cfg, Apply(cfg, w, Close(t, id)), LockedCleanup(t));
            && OnlyOwes(w, v, t) && v.index.clients == w.index.clients - {id}
            && v.index.uniq == (map n | n in w.index.uniq && n in v.index.clients.Values :: w.index.uniq[n])
  {
    hide Valid, CleanupStep, Finish;
    ReachableInvariant(cfg, pods, w);
    CleanupReportsShrinkage(w.index, id);
    CleanupKeepsNames(w.index, id);
    FinishedThreads(w.threads, t, Closing(id), CleanupStep(w.index, id).1.Some?);
  }

  /** A request that has passed the gate runs to its registration: a fresh stream with its pod
      is opened under its own name, any other request changes nothing, and a trigger is owed
      exactly if the name is new. */
  lemma RequestInRun(cfg: Config, pods: iset<LocalityPod>, w: World, t: nat, id: int64, role: string,
                     pod: Option<LocalityPod>)
    requires Reachable(cfg, pods, w) && t !in w.threads && id > 0 && IsKubeGatewayCacheKey(role)
    requires pod.Some? ==> pod.value in pods
    ensures var run := [Request(t, id, role, pod), LockedAdd(t)];
            && Legal(cfg, pods, w, run)
            && var v, record := After(cfg, pods, w, run), RecordOn(cfg, role, pod);
               && Reachable(cfg, pods, v) && OnlyOwes(w, v, t)
               && if id !in w.index.clients && record.Some? then
                    var c := record.value;
                    && v.index.clients == w.index.clients[id := c.resourceName]
                    && v.index.uniq == (if c.resourceName in w.index.uniq then w.index.uniq
                                        else w.index.uniq[c.resourceName := c])
                  else v.index == w.index
  {
    TwoSteps(cfg, pods, w, Request(t, id, role, pod), LockedAdd(t));
    RequestEffect(cfg, pods, w, t, id, role, pod);
  }

  lemma RequestEffect(cfg: Config, pods: iset<LocalityPod>, w: World, t: nat, id: int64, role: string,
                      pod: Option<LocalityPod>)
    requires Reachable(cfg, pods, w) && t !in w.threads && id > 0 && IsKubeGatewayCacheKey(role)
    ensures var v := Apply(cfg, Apply(cfg, w, Request(t, id, role, pod)), LockedAdd(t));
            var record := RecordOn(cfg, role, pod);
            && OnlyOwes(w, v, t)
            && if id !in w.index.clients && record.Some? then
                 var c := record.value;
                 && v.index.clients == w.index.clients[id := c.resourceName]
                 && v.index.uniq == (if c.resourceName in w.index.uniq then w.index.uniq
                                     else w.index.uniq[c.resourceName := c])
               else v.index == w.index
  {
    hide RecordOn, ClientFor;
    ReachableInvariant(cfg, pods, w);
    RecordIsClientFor(cfg, role, pod);
    AddReportsGrowth(cfg, w.index, id, role, pod);
    NamesKeepPassingGate(cfg, w.index, id, role, pod);
    var result := AddStep(cfg, w.index, id, role, pod).1;
    FinishedThreads(w.threads, t, Requesting(id, role, pod), result.Registered? && result.name != "" && result.isNew);
    if id !in w.index.clients && RecordOn(cfg, role, pod).Some? {
      NamedStreams(w.index, RecordOn(cfg, role, pod).value.resourceName);
    }
  }

  lemma {:induction false} FreshThread(taken: set<nat>, from: nat) returns (t: nat)
    ensures t !in taken && t >= from
    decreases |taken|
  {
    if from !in taken {
      t := from;
    } else {
      t := FreshThread(taken - {from}, from + 1);
    }
  }

  lemma {:induction false} RunReachable(cfg: Config, pods: iset<LocalityPod>, w: World, run: seq<Step>)
    requires Reachable(cfg, pods, w) && Legal(cfg, pods, w, run)
    ensures Reachable(cfg, pods, After(cfg, pods, w, run))
    decreases |run|
  {
    if run == [] {
    } else {
      ReachableNext(cfg, pods, w, run[0]);
      RunReachable(cfg, pods, Apply(cfg, w, run[0]), run[1..]);
    }
  }

  /** From every reachable world a run of closes leaves three empty maps, and a run of triggers
      and recomputations then publishes the empty list. */
  lemma CloseAllInRun(cfg: Config, pods: iset<LocalityPod>, w: World) returns (v: World)
    requires Reachable(cfg, pods, w)
    ensures Reachable(cfg, pods, v) && v.index == EMPTY && Settled(v) && v.published == {}
    decreases |w.index.clients|
  {
    ReachableInvariant(cfg, pods, w);
    if w.index.clients == map[] {
      assert w.index.counts.Keys == {} && w.index.uniq.Keys == {};
      assert w.index.counts == map[] && w.index.uniq == map[];
      var run := Drain(cfg, pods, w);
      RunReachable(cfg, pods, w, run);
      v := After(cfg, pods, w, run);
    } else {
      var id :| id in w.index.clients;
      var t := FreshThread(w.threads.Keys, 0);
      CloseInRun(cfg, pods, w, t, id);
      var u := After(cfg, pods, w, [Close(t, id), LockedCleanup(t)]);
      assert u.index.clients.Keys == w.index.clients.Keys - {id};
      v := CloseAllInRun(cfg, pods, u);
    }
  }

  /** The name of every registered client decodes to the role, the label hash and the
      namespace of its record. */
  lemma RegisteredNamesDecode(cfg: Config, pods: iset<LocalityPod>, w: World, name: string)
    requires Reachable(cfg, pods, w) && cfg.usePods && GoodNamespaces(pods) && name in w.index.uniq
    ensures var c := w.index.uniq[name];
            c.resourceName == name && Decode(name) == Some(Parts(c.role, HashOf(cfg.h, c.labels), c.namespace))
  {
    ReachableInvariant(cfg, pods, w);
    var run :| Legal(cfg, pods, INITIAL, run) && After(cfg, pods, INITIAL, run) == w;
    RunKeepsOrigins(cfg, pods, INITIAL, run);
    var c := w.index.uniq[name];
    var role, pod: Option<LocalityPod> :|
      pod.Some? && pod.value in pods && c == ClientFor(cfg, role, pod);
    ClientParts(cfg.h, role, pod.value.namespace, pod.value.labels, pod.value.locality);
  }
}
