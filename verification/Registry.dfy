/** The reference-counted index of unique clients over open streams
    (internal/fgateway/krtcollections/callbackscollections.go).

    `AddStep` and `CleanupStep` are the two locked sections on values; the class in
    Callbacks.dfy updates its fields in place and is proved against them.
 */
module Registry {
  import opened Options
  import opened Words
  import opened LabelHash
  import opened ResourceNames
  import opened Pods

  type int64 = x: int | -0x8000_0000_0000_0000 <= x < 0x8000_0000_0000_0000

  datatype State = State(
    clients: map<int64, string>,
    counts: map<string, uint64>,
    uniq: map<string, Client>)

  const EMPTY := State(map[], map[], map[])

  /** Where identities come from: the entry hash, and whether pods are consulted. */
  datatype Config = Config(h: EntryHash, usePods: bool)

  datatype AddResult = PodNotFound | Registered(name: string, isNew: bool)

  /** Reading a missing counter yields zero. */
  function Count(s: State, name: string): uint64
  {
    if name in s.counts then s.counts[name] else 0
  }

  /** The record a fresh stream gets. */
  ghost function ClientFor(cfg: Config, role: string, pod: Option<LocalityPod>): Client
    requires cfg.usePods ==> pod.Some?
  {
    if cfg.usePods
    then ClientOf(cfg.h, role, pod.value.namespace, pod.value.labels, pod.value.locality)
    else ClientOf(cfg.h, role, "", map[], NO_LOCALITY)
  }

  /** Entering stream `id` with record `c`; the counter wraps as a 64-bit word does. */
  function Enter(s: State, id: int64, c: Client): State
  {
    var n := Count(s, c.resourceName);
    State(
      s.clients[id := c.resourceName],
      s.counts[c.resourceName := (n + 1) % UINT64_LIMIT],
      if n == 0 then s.uniq[c.resourceName := c] else s.uniq)
  }

  /** The locked section of `add`. */
  ghost function AddStep(cfg: Config, s: State, id: int64, role: string, pod: Option<LocalityPod>): (State, AddResult)
  {
    if id in s.clients then (s, Registered(s.clients[id], false))
    else if cfg.usePods && pod.None? then (s, PodNotFound)
    else
      var c := ClientFor(cfg, role, pod);
      (Enter(s, id, c), Registered(c.resourceName, Count(s, c.resourceName) == 0))
  }

  /** The locked section of `cleanup`. */
  function CleanupStep(s: State, id: int64): (State, Option<Client>)
  {
    if id !in s.clients then (s, None)
    else
      var name := s.clients[id];
      var n := Count(s, name);
      var rest := s.clients - {id};
      if n == 1
      then (State(rest, s.counts - {name}, s.uniq - {name}),
            Some(if name in s.uniq then s.uniq[name] else ZERO_CLIENT))
      else (State(rest, s.counts[name := (n - 1) % UINT64_LIMIT], s.uniq), None)
  }

  // ---- the index agrees with the open streams ----

  ghost function StreamsNamed(clients: map<int64, string>, name: string): set<int64>
  {
    set id | id in clients && clients[id] == name
  }

  /** Stream ids are positive, the three maps name the same clients, every counter is
      the number of open streams of that name, and records carry their key. */
  ghost predicate Valid(s: State)
  {
    && (forall id | id in s.clients :: id > 0)
    && s.counts.Keys == s.uniq.Keys == s.clients.Values
    && (forall n | n in s.counts :: s.counts[n] == |StreamsNamed(s.clients, n)|)
    && (forall n | n in s.uniq :: s.uniq[n].resourceName == n)
  }

  /** A set of positive 64-bit stream ids is smaller than any counter limit. */
  lemma {:induction false} FewPositiveIds(ids: set<int64>, top: nat)
    requires forall id | id in ids :: 0 < id <= top
    ensures |ids| <= top
    decreases top
  {
    if top == 0 {
      assert ids == {};
    } else if top < 0x8000_0000_0000_0000 && top in ids {
      FewPositiveIds(ids - {top}, top - 1);
    } else {
      FewPositiveIds(ids, top - 1);
    }
  }

  lemma NamedStreams(s: State, name: string)
    requires Valid(s)
    ensures Count(s, name) == |StreamsNamed(s.clients, name)|
    ensures Count(s, name) > 0 <==> name in s.counts
  {
    if name in s.counts {
      assert name in s.clients.Values;
      var id :| id in s.clients && s.clients[id] == name;
      assert id in StreamsNamed(s.clients, name);
    } else {
      assert StreamsNamed(s.clients, name) == {} by {
        forall id | id in s.clients ensures s.clients[id] != name {
          assert s.clients[id] in s.clients.Values;
        }
      }
    }
  }

  lemma StreamsAfterEnter(clients: map<int64, string>, id: int64, name: string)
    requires id !in clients
    ensures clients[id := name].Values == clients.Values + {name}
    ensures StreamsNamed(clients[id := name], name) == StreamsNamed(clients, name) + {id}
    ensures |StreamsNamed(clients[id := name], name)| == |StreamsNamed(clients, name)| + 1
    ensures forall n | n != name :: StreamsNamed(clients[id := name], n) == StreamsNamed(clients, n)
  {
    var after := clients[id := name];
    forall n | n in clients.Values ensures n in after.Values {
      var i :| i in clients && clients[i] == n;
      assert after[i] == n;
    }
    assert after[id] == name;
    assert StreamsNamed(after, name) == StreamsNamed(clients, name) + {id};
    assert id !in StreamsNamed(clients, name);
  }

  /** With positive stream ids no counter wraps upwards. */
  lemma CounterNeverOverflows(s: State, id: int64, name: string)
    requires Valid(s) && id > 0 && id !in s.clients
    ensures Count(s, name) + 1 < UINT64_LIMIT
  {
    NamedStreams(s, name);
    FewPositiveIds(StreamsNamed(s.clients, name), 0x7fff_ffff_ffff_ffff);
  }

  lemma EnterCounts(s: State, id: int64, c: Client)
    requires Valid(s) && id > 0 && id !in s.clients
    ensures var t := Enter(s, id, c);
            && Count(t, c.resourceName) == Count(s, c.resourceName) + 1
            && (forall n | n in t.counts :: t.counts[n] == |StreamsNamed(t.clients, n)|)
  {
    CounterNeverOverflows(s, id, c.resourceName);
    NamedStreams(s, c.resourceName);
    StreamsAfterEnter(s.clients, id, c.resourceName);
  }

  lemma EnterKeepsValid(s: State, id: int64, c: Client)
    requires Valid(s) && id > 0 && id !in s.clients
    ensures Valid(Enter(s, id, c))
  {
    var name := c.resourceName;
    EnterCounts(s, id, c);
    NamedStreams(s, name);
    StreamsAfterEnter(s.clients, id, name);
    var t := Enter(s, id, c);
    assert t.counts.Keys == s.counts.Keys + {name};
    assert t.uniq.Keys == s.uniq.Keys + {name};
  }

  lemma StreamsAfterLeave(clients: map<int64, string>, id: int64)
    requires id in clients
    ensures var rest, name := clients - {id}, clients[id];
            && StreamsNamed(rest, name) == StreamsNamed(clients, name) - {id}
            && |StreamsNamed(rest, name)| == |StreamsNamed(clients, name)| - 1
            && (forall n | n != name :: StreamsNamed(rest, n) == StreamsNamed(clients, n))
            && rest.Values == (if |StreamsNamed(clients, name)| == 1 then clients.Values - {name} else clients.Values)
  {
    var rest, name := clients - {id}, clients[id];
    assert StreamsNamed(rest, name) == StreamsNamed(clients, name) - {id};
    assert id in StreamsNamed(clients, name);
    forall n | n in clients.Values && n != name ensures n in rest.Values {
      var i :| i in clients && clients[i] == n;
      assert i in rest && rest[i] == n;
    }
    if StreamsNamed(rest, name) != {} {
      var i :| i in StreamsNamed(rest, name);
      assert i in rest && rest[i] == name;
    }
  }

  /** A close keeps the index valid; no counter wraps downwards. */
  lemma CleanupKeepsValid(s: State, id: int64)
    requires Valid(s)
    ensures Valid(CleanupStep(s, id).0)
    ensures id in s.clients ==> Count(s, s.clients[id]) >= 1
    ensures id in s.clients ==> Count(CleanupStep(s, id).0, s.clients[id]) == Count(s, s.clients[id]) - 1
  {
    if id in s.clients {
      var name := s.clients[id];
      NamedStreams(s, name);
      assert id in StreamsNamed(s.clients, name);
      assert name in s.clients.Values;
      StreamsAfterLeave(s.clients, id);
      var t := CleanupStep(s, id).0;
      forall n | n in t.counts ensures t.counts[n] == |StreamsNamed(t.clients, n)| {
        if n != name { assert StreamsNamed(t.clients, n) == StreamsNamed(s.clients, n); }
      }
      assert t.counts.Keys == t.clients.Values;
    }
  }

  lemma AddKeepsValid(cfg: Config, s: State, id: int64, role: string, pod: Option<LocalityPod>)
    requires Valid(s) && id > 0
    ensures Valid(AddStep(cfg, s, id, role, pod).0)
  {
    if id !in s.clients && !(cfg.usePods && pod.None?) {
      EnterKeepsValid(s, id, ClientFor(cfg, role, pod));
    }
  }

  // ---- what a step reports ----

  /** `add` reports a new client exactly when the set of unique names grew, and leaves
      the record map alone otherwise; a failed add changes nothing. */
  lemma AddReportsGrowth(cfg: Config, s: State, id: int64, role: string, pod: Option<LocalityPod>)
    requires Valid(s) && id > 0
    ensures var (t, r) := AddStep(cfg, s, id, role, pod);
            && s.uniq.Keys <= t.uniq.Keys
            && (r.Registered? && r.isNew <==> t.uniq.Keys != s.uniq.Keys)
            && (t.uniq.Keys == s.uniq.Keys ==> t.uniq == s.uniq)
            && (r.PodNotFound? ==> t == s)
            && (r.Registered? ==> id in t.clients && t.clients[id] == r.name && r.name in t.uniq)
            && (r.PodNotFound? <==> id !in s.clients && cfg.usePods && pod.None?)
            && (id in s.clients ==> t == s && r == Registered(s.clients[id], false))
            && (id !in s.clients && r.Registered? ==> t.clients == s.clients[id := r.name])
  {
    var (t, r) := AddStep(cfg, s, id, role, pod);
    AddKeepsValid(cfg, s, id, role, pod);
    if id in t.clients { assert t.clients[id] in t.clients.Values; }
    if id !in s.clients && !(cfg.usePods && pod.None?) {
      NamedStreams(s, ClientFor(cfg, role, pod).resourceName);
    }
  }

  /** A fresh stream is registered under the name of its own record, made from the role of
      the request and, if pods are consulted, from its pod; a new name gets that record. */
  lemma AddEntersRecord(cfg: Config, s: State, id: int64, role: string, pod: Option<LocalityPod>)
    requires Valid(s) && id > 0 && id !in s.clients && (cfg.usePods ==> pod.Some?)
    ensures var (t, r) := AddStep(cfg, s, id, role, pod);
            var (namespace, labels, locality) :=
              if cfg.usePods then (pod.value.namespace, pod.value.labels, pod.value.locality)
              else ("", map[], Locality("", "", ""));
            var name := if namespace == "" then role
                        else role + "~" + Decimal(HashOf(cfg.h, labels)) + "~" + namespace;
            && r.Registered? && r.name == name && t.clients == s.clients[id := name]
            && (r.isNew ==> t.uniq == s.uniq[name := Client(role, labels, locality, namespace, name)])
            && (!r.isNew ==> t.uniq == s.uniq)
  {
    var (t, r) := AddStep(cfg, s, id, role, pod);
    AddReportsGrowth(cfg, s, id, role, pod);
    if cfg.usePods {
      ClientParts(cfg.h, role, pod.value.namespace, pod.value.labels, pod.value.locality);
    } else {
      ClientParts(cfg.h, role, "", map[], NO_LOCALITY);
    }
  }

  /** `cleanup` returns a client exactly when the set of unique names shrank, and then
      it is the record that was dropped. */
  lemma CleanupReportsShrinkage(s: State, id: int64)
    requires Valid(s)
    ensures var (t, r) := CleanupStep(s, id);
            && t.clients == s.clients - {id}
            && t.uniq.Keys <= s.uniq.Keys
            && (r.Some? <==> t.uniq.Keys != s.uniq.Keys)
            && (r.None? ==> t.uniq == s.uniq)
            && (r.Some? ==> id in s.clients && s.clients[id] in s.uniq
                            && r.value == s.uniq[s.clients[id]] && t.uniq == s.uniq - {s.clients[id]})
  {
    if id in s.clients {
      NamedStreams(s, s.clients[id]);
      assert s.clients[id] in s.clients.Values;
    }
  }

  /** A close drops exactly the names that no open stream has any more. */
  lemma CleanupKeepsNames(s: State, id: int64)
    requires Valid(s)
    ensures var t := CleanupStep(s, id).0;
            t.uniq == (map n | n in s.uniq && n in t.clients.Values :: s.uniq[n])
  {
    CleanupKeepsValid(s, id);
    CleanupReportsShrinkage(s, id);
  }

  // ---- reversibility ----

  lemma UpdateThenRestore<K, V>(m: map<K, V>, k: K, v: V)
    ensures k in m ==> m[k := v][k := m[k]] == m
    ensures k !in m ==> m[k := v] - {k} == m
  {}

  lemma EnterThenClose(s: State, id: int64, c: Client)
    requires Valid(s) && id > 0 && id !in s.clients
    ensures CleanupStep(Enter(s, id, c), id).0 == s
  {
    var name := c.resourceName;
    EnterCounts(s, id, c);
    NamedStreams(s, name);
    UpdateThenRestore(s.clients, id, name);
    UpdateThenRestore(s.counts, name, Count(s, name) + 1);
    UpdateThenRestore(s.uniq, name, c);
  }

  /** Registering a fresh stream and closing it restores all three maps. */
  lemma AddThenClose(cfg: Config, s: State, id: int64, role: string, pod: Option<LocalityPod>)
    requires Valid(s) && id > 0 && id !in s.clients
    ensures CleanupStep(AddStep(cfg, s, id, role, pod).0, id).0 == s
  {
    if !(cfg.usePods && pod.None?) {
      EnterThenClose(s, id, ClientFor(cfg, role, pod));
    }
  }

  function CloseAll(s: State, ids: seq<int64>): State
    decreases |ids|
  {
    if ids == [] then s else CloseAll(CleanupStep(s, ids[0]).0, ids[1..])
  }

  /** Closing every stream, in any order, leaves nothing behind. */
  lemma {:induction false} CloseAllEmpties(s: State, ids: seq<int64>)
    requires Valid(s)
    requires forall id | id in s.clients :: id in ids
    ensures CloseAll(s, ids) == EMPTY
    decreases |ids|
  {
    if ids == [] {
      assert s.clients == map[];
      assert s.counts.Keys == {} && s.uniq.Keys == {};
      assert s.counts == map[] && s.uniq == map[];
    } else {
      CleanupKeepsValid(s, ids[0]);
      CloseAllEmpties(CleanupStep(s, ids[0]).0, ids[1..]);
    }
  }

  // ---- conservation ----

  ghost function Total(counts: map<string, uint64>): nat
    decreases |counts|
  {
    if counts == map[] then 0
    else
      var n :| n in counts;
      counts[n] + Total(counts - {n})
  }

  /** Dropping all streams of one name leaves the other groups alone. */
  lemma DropName(clients: map<int64, string>, name: string)
    ensures var mine := StreamsNamed(clients, name);
            && |clients| == |clients - mine| + |mine|
            && (forall id | id in clients - mine :: id in clients && (clients - mine)[id] == clients[id] != name)
            && (forall m | m != name :: StreamsNamed(clients - mine, m) == StreamsNamed(clients, m))
  {
    var mine := StreamsNamed(clients, name);
    var rest := clients - mine;
    assert rest.Keys == clients.Keys - mine;
    assert clients.Keys == rest.Keys + mine;
  }

  /** The counters sum to the number of open streams. */
  lemma {:induction false} CountsSumToStreams(clients: map<int64, string>, counts: map<string, uint64>)
    requires forall id | id in clients :: clients[id] in counts
    requires forall n | n in counts :: counts[n] == |StreamsNamed(clients, n)|
    ensures Total(counts) == |clients|
    decreases |counts|
  {
    if counts == map[] {
      assert clients == map[];
    } else {
      var n :| n in counts && Total(counts) == counts[n] + Total(counts - {n});
      var rest, fewer := clients - StreamsNamed(clients, n), counts - {n};
      DropName(clients, n);
      forall m | m in fewer ensures fewer[m] == |StreamsNamed(rest, m)| {
        assert StreamsNamed(rest, m) == StreamsNamed(clients, m);
      }
      CountsSumToStreams(rest, fewer);
    }
  }

  /** In a valid index nothing is counted twice and nothing is missed. */
  lemma ValidTotal(s: State)
    requires Valid(s)
    ensures Total(s.counts) == |s.clients|
  {
    forall id | id in s.clients ensures s.clients[id] in s.counts {
      assert s.clients[id] in s.clients.Values;
    }
    CountsSumToStreams(s.clients, s.counts);
  }
}
