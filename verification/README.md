# Verified model of fgateway's client registry and parameter merge

The project models two parts of fgateway and proves properties of them with Dafny.
`dafny verify dfyconfig.toml` checks all of it.

**The registry of unique xDS clients.** Envoy proxies open streams to the control plane. Each
stream is identified by the role its node reports and, when pods are consulted, by the labels,
namespace and locality of its pod. The registry keeps one record per identity and counts the
streams that share it; a recomputation publishes the list of records.

- `Words`, `LabelHash`: the XOR fold over labels. The FNV hash of one entry is the parameter `h`.
- `ResourceNames`: the name `role~hash~namespace` and its exact decoding.
- `Pods`: records, locality augmentation, and which sets of pods can be told apart by name.
- `Xds`: nodes, the role gate, the cache key, node ids.
- `Registry`: the two locked sections on values; what every step keeps, reports and undoes.
- `Callbacks`: the callbacks as methods that update the fields in place, with and without the gate.
- `RegistryRuns`: all interleavings of requests, closes, triggers and recomputations.
- `Histories`: the registry against a ledger that is kept from the steps of a run alone.

**The merge of GatewayParameters.** A default and an override are merged, deep and in place.

- `GatewayParams`: the structs below `kube` and every node merge, as typed values.
- `Schemas`: the static schema: for every field of every struct its merge policy.
- `Values`: generic trees, their merge as the schema prescribes it, and reading along paths.
- `Encoding`: the typed structs as generic trees; the typed merge is the merge of the schema.
- `MergeView`: reading a configuration leaf by leaf; merging commutes with reading.
- `MergeAlgebra`: associativity, folding, idempotence, all with their exact conditions.
- `HeapMerge`: memory with structs, maps, scalars and labels, and the in-place grafting merge.
- `HeapReading`: what a reader finds, and which addresses it reaches, by following the pointers.
- `HeapCopies`: deep copies.
- `HeapRefinement`: which configuration a tree in memory represents; the in-place merge computes the
  merge on values.
- `Grafts`: what becomes of an override when the next one is merged, and exactly when it survives.
- `Folds`: folding a list of overrides in place, and what becomes of every one of them.
- `Deployer`: the top-level merge, its caller and the self-managed cut-off.

## How the model reads the code

- A stream id is a signed 64-bit number and counters wrap at 64 bits. The server hands out positive
  ids, and the registry's invariant says so.
- A nil dereference is the outcome `Panicked`. It happens on a missing pod in a fetch, on a nil node
  in an ungated request for a named stream, and on a nil default with a self-managed override.
- The lock makes `add` and `cleanup` atomic; the pod lookup before the lock and the trigger after it
  are steps of their own, and so are the three parts of a recomputation. The pods a request may find
  are an arbitrary set, since the pod collection changes at any time.
- In `RegistryRuns`, `records` only remembers what each open stream was given; no step reads it.
- A nil map or list is absent; a present but empty one resets. `mergeComparable` on pointers
  (merge.go:120-122) compares pointers, so it is the last-non-nil rule.
- `GMSACredentialSpecName` is merged from the two specs, as merge.go:204 does, although the field's
  own values were clearly meant: in the schema that field borrows from the one after it. The caller
  at deployer.go:297 drops the merge's result.
- A path is the list of field positions from the root down, in the order of the schema; the four
  pointers of the embedded ProbeHandler are fields of the probe.
- In memory a struct is the row of its fields. The struct merges in merge.go all have the form of
  `MergeStruct`: the nil rules, then an assignment per field. Which field is merged how is taken from
  the schema, never from memory, and `Encoding` proves the schema right against the typed merge.
- Scalars and custom labels are in memory of their own, which the merge points to and, as its
  `modifies` clauses say, never writes. After a merge the credential-spec name and the spec can be one
  and the same cell.
- Node ids, pod keys and topology label keys follow the Kubernetes and Istio libraries.

## Model

| member | source | states |
|---|---|---|
| LabelHash.HashLabels | internal/fgateway/utils/hashutil/utils.go:5-18 | the loop, with the iteration order left open, returns the XOR of the hashes of all entries |
| LabelHash.HashIgnoresOrder | internal/fgateway/utils/hashutil/utils.go:7-15 | every order that visits each entry of the map once gives the same hash |
| LabelHash.HashOfUnion | internal/fgateway/utils/hashutil/utils.go:7-15 | on a disjoint union the hash is the XOR of the two hashes |
| LabelHash.HashOfUpdate | internal/fgateway/utils/hashutil/utils.go:7-15 | writing one entry changes the hash by exactly the XOR of the old and the new entry |
| Words.XorBit | internal/fgateway/utils/hashutil/utils.go:14-14 | each of the 64 bits of the XOR is set exactly when the two words differ in it |
| ResourceNames.DecodeExact | internal/fgateway/ir/model.go:25-42 | a name decodes to role, hash and namespace if and only if it is their encoding: for any role, delimiters included, any 64-bit hash and any non-empty namespace without the delimiter |
| ResourceNames.EncodingInjective | internal/fgateway/ir/model.go:25-42 | equal names have equal role, hash and namespace |
| ResourceNames.NameByExample | internal/fgateway/ir/model.go:25-42 | one name spelled out, with and without a namespace |
| ResourceNames.DelimiterInNamespaceCollides | internal/fgateway/ir/model.go:27-31 | the hypothesis on namespaces is needed: a namespace with a delimiter, which Kubernetes does not allow and the code therefore never receives, would give two different clients one name |
| Pods.NewUniqlyConnectedClient | internal/fgateway/ir/model.go:25-42 | the record carries role, labels, locality and namespace, each in its place; the name is the role alone without a namespace and else `role~hash~namespace`, which decodes to the three |
| Pods.AugmentLabels | internal/fgateway/krtcollections/pods.go:94-105 | in place, each non-empty part of the locality overwrites the topology label of that literal key, an empty part leaves it, and no other label changes |
| Pods.AugmentPodLabels | internal/fgateway/krtcollections/pods.go:58-84 | with a known node the locality is the node's labels under the three literal keys and overwrites the pod's, without one it is empty and the labels are the pod's own; the pod's map is unchanged; without own topology labels the result is one of the pods that can be told apart |
| Pods.LocalityRecoverable | internal/fgateway/krtcollections/pods.go:86-105 | the locality can be read back from the augmented labels exactly when no own topology label of the pod shows through |
| Pods.HashOfAugmented | internal/fgateway/krtcollections/pods.go:94-105 | augmentation changes the label hash by exactly the XOR of the old and new topology entries |
| Pods.TopologyKeys | internal/fgateway/krtcollections/pods.go:86-105 | the three label keys, as Kubernetes and Istio define them |
| Pods.CleanPodsAreFaithful | internal/fgateway/krtcollections/pods.go:58-105 | without hash collisions and without own topology labels showing through, hash and namespace determine labels and locality |
| Pods.OwnTopologyLabelBreaksFaithfulness | internal/fgateway/krtcollections/pods.go:58-84 | a pod with an own topology label and no node, and a pod on a node with that locality, share labels and differ in locality |
| Xds.WithRole | internal/fgateway/krtcollections/callbackscollections.go:79-90 | the rewritten node reads back the new role, as role and as cache key, and keeps its id and its other metadata |
| Xds.RoleAndKey | pkg/xds/xds.go:28-36 | what role and cache key are read from a node with a string role, with a role of another kind, without a role and without metadata; the fallback key |
| Xds.GateExactly | internal/fgateway/xds/utils.go:14-16 | the gate admits exactly the keys that begin with the literal prefix |
| Xds.GateSurvivesEncoding | internal/fgateway/xds/utils.go:14-16 | encoding a role that passes the gate gives a non-empty name that passes the gate again |
| Xds.GetRefExact | internal/fgateway/krtcollections/callbackscollections.go:183-193 | an id splits into name and namespace exactly when it is `name.namespace` with no dot in the name; an id without a dot gives two empty parts |
| Callbacks.FindPodExactly | internal/fgateway/krtcollections/callbackscollections.go:103-109 | in a collection that keeps pods under `namespace/name`, the lookup finds a pod if and only if it is stored and the node id is its name, a dot and its namespace, with no dot in the name |
| Registry.CounterNeverOverflows | internal/fgateway/krtcollections/callbackscollections.go:137-142 | with positive stream ids the 64-bit counter of any name has room for one more stream |
| Registry.AddKeepsValid | internal/fgateway/krtcollections/callbackscollections.go:112-144 | a registration keeps the three maps in agreement with the open streams |
| Registry.CleanupKeepsValid | internal/fgateway/krtcollections/callbackscollections.go:51-69 | a close keeps that agreement, and the counter it lowers is at least one, so it never wraps |
| Registry.AddReportsGrowth | internal/fgateway/krtcollections/callbackscollections.go:112-144 | add reports a new client exactly when the set of unique names grew, fails exactly on a fresh stream without its pod, and then changes nothing |
| Registry.AddEntersRecord | internal/fgateway/krtcollections/callbackscollections.go:112-144 | a fresh stream is registered under the name made from its role and pod, spelled out, and a new name gets the record of that stream, field by field |
| Registry.CleanupReportsShrinkage | internal/fgateway/krtcollections/callbackscollections.go:51-69 | cleanup returns a client exactly when the set of unique names shrank, and it is the record that was dropped |
| Registry.CleanupKeepsNames | internal/fgateway/krtcollections/callbackscollections.go:51-69 | a close drops exactly the names that no open stream has any more |
| Registry.AddThenClose | internal/fgateway/krtcollections/callbackscollections.go:51-69 | registering a fresh stream and closing it restores all three maps |
| Registry.CloseAllEmpties | internal/fgateway/krtcollections/callbackscollections.go:51-69 | closing all streams, in any order, leaves three empty maps |
| Registry.ValidTotal | internal/fgateway/krtcollections/callbackscollections.go:21-30 | the counters sum to the number of open streams |
| Callbacks.CallbacksCollection.constructor | internal/fgateway/krtcollections/uniqueclients.go:39-47 | a new collection has three empty maps and has triggered nothing |
| Callbacks.CallbacksCollection.Add | internal/fgateway/krtcollections/callbackscollections.go:100-145 | looks the pod up, then performs the locked registration on the fields in place |
| Callbacks.CallbacksCollection.Cleanup | internal/fgateway/krtcollections/callbackscollections.go:51-69 | performs the locked removal on the fields in place, with the wrapping decrement |
| Callbacks.CallbacksCollection.OnStreamRequest | internal/fgateway/krtcollections/callbackscollections.go:72-98 | which requests fail, panic on a nil node or succeed; on success the role is the name of the stream and a new client triggers once; a fresh stream is registered on the stored pod its node id names, and fails exactly without one |
| Callbacks.CallbacksCollection.OnStreamClosed | internal/fgateway/krtcollections/callbackscollections.go:43-49 | a close triggers exactly when the set of unique names shrank |
| Callbacks.CallbacksCollection.OnFetchRequest | internal/fgateway/krtcollections/callbackscollections.go:148-181 | a fetch keeps no state and writes the role a fresh stream with this role and pod would get, that of the stored pod its node id names; it fails exactly without a node and panics exactly without the pod |
| Callbacks.CallbacksCollection.GetClients | internal/fgateway/krtcollections/callbackscollections.go:32-40 | the snapshot lists every unique client once, in any order |
| Callbacks.GatedCallbacks.OnStreamRequest | internal/fgateway/krtcollections/callbacks.go:28-40 | behind the gate a request never panics, its cache key is the registered name of the stream, the name passes the gate again, failures change nothing, and it triggers once if the set of unique names grew and not at all otherwise |
| Callbacks.GatedCallbacks.OnStreamClosed | internal/fgateway/krtcollections/callbacks.go:19-25 | a close goes to the collection if there is one, and triggers once if the set of unique names shrank and not at all otherwise |
| Callbacks.GatedCallbacks.OnFetchRequests | internal/fgateway/krtcollections/callbacks.go:42-52 | a fetch past the gate writes the role a fresh stream with this role and pod would get, which passes the gate again; what fails before the collection exists; exactly when a missing pod is dereferenced |
| Callbacks.NamelessExactly | internal/fgateway/krtcollections/callbackscollections.go:78-96 | the record whose registration triggers nothing has an empty role, which the gate stops |
| RegistryRuns.StepKeepsInvariant | internal/fgateway/krtcollections/callbackscollections.go:32-145 | every step of every thread and of the recomputation keeps the index valid and keeps a trigger owed or pending whenever the published list is stale |
| RegistryRuns.ReachableIndex | internal/fgateway/krtcollections/callbackscollections.go:51-145 | in every reachable world the three maps agree with each other, the counters sum to the number of streams, no registration wraps a counter up and no close wraps one down |
| RegistryRuns.NoLostUpdate | internal/fgateway/krtcollections/uniqueclients.go:37-56 | in every interleaving, once no trigger is owed or pending and no recomputation runs, the published list is exactly the registered unique clients |
| RegistryRuns.Drain | internal/fgateway/krtcollections/uniqueclients.go:49-55 | from every world a bounded run of triggers and recomputations alone makes the published list current |
| RegistryRuns.SharedRecordExact | internal/fgateway/krtcollections/callbackscollections.go:114-144 | the shared record equals the record of every open stream of its name, in every reachable world, if and only if pods of one namespace and label hash share labels and locality |
| RegistryRuns.CleanPodsShareTruly | internal/fgateway/krtcollections/callbackscollections.go:114-144 | so it does when labels do not collide, namespaces have no delimiter and no own topology label shows through |
| RegistryRuns.IndexForgetsHistory | internal/fgateway/krtcollections/callbackscollections.go:21-30 | two histories with the same open streams end in the same three maps |
| RegistryRuns.KeyIsSticky | internal/fgateway/krtcollections/callbackscollections.go:114-144 | through any run a stream keeps its name until its close, the name stays registered, later requests get it whatever role or pod they bring; the rewritten role is admitted by the gate and is the cache key of the rewritten node |
| Histories.HistoryDecides | internal/fgateway/krtcollections/callbackscollections.go:51-145 | after every run the three maps are those recomputed from a ledger of open streams that is kept from the steps of the run alone: every stream under the name of its record, every name with the number of its streams and, if no two pods are confused, with their record |
| Histories.CloseInRun | internal/fgateway/krtcollections/callbackscollections.go:43-69 | in every reachable world a stream can be closed: it and no other is removed, its name is dropped if it was the last, and a trigger is owed exactly then |
| Histories.RequestInRun | internal/fgateway/krtcollections/callbackscollections.go:72-145 | in every reachable world a request past the gate runs to its registration: a fresh stream with its pod is opened under its own name, any other changes nothing, and a trigger is owed exactly if the name is new |
| Histories.CloseAllInRun | internal/fgateway/krtcollections/callbackscollections.go:43-69 | from every reachable world closing all streams leads to three empty maps and an empty published list |
| Histories.RegisteredNamesDecode | internal/fgateway/ir/model.go:25-42 | in every reachable world the name of a registered client decodes to the role, the label hash and the namespace of its record |
| Encoding.KubernetesProxyConfigMerges | internal/fgateway/deployer/merge.go:92-106 | the merge of the typed structs, all 33 of them, is the merge the schema prescribes field by field: every field of every node merge has the policy the schema gives it |
| Encoding.KubernetesProxyConfigInjective | apis/fgateway/v1alpha1/gateway_parameters_types.go:62-112 | the generic tree of a configuration determines it |
| Values.MergeReads | internal/fgateway/deployer/merge.go:73-150 | for every struct type: what is read at a leaf of the merged tree, whichever nodes on the way are nil, is one side below a node only that side has, and else the policy applied to the two values of the leaf, or of the leaf it borrows from |
| Values.ReadsDetermine | apis/fgateway/v1alpha1/gateway_parameters_types.go:62-112 | reads at all leaves and the presence of all nodes determine a tree |
| MergeView.KubeMergeReads | internal/fgateway/deployer/merge.go:92-106 | the same for every leaf of a whole configuration, without exception |
| MergeView.KubeMergeNodes | internal/fgateway/deployer/merge.go:127-136 | a node of the merged configuration is there exactly when one of the two has it |
| MergeView.KubeMergeGets | apis/fgateway/v1alpha1/gateway_parameters_types.go:114-182 | through nil-safe getters a merged leaf is its policy applied to the same leaf of both, for all leaves but the borrowed credential-spec name and the custom sidecars |
| MergeView.MapEntries | internal/fgateway/deployer/merge.go:21-37 | entry by entry: a merged map has the override's entries and the default's others, unless the override is present but empty |
| MergeView.ListElements | internal/fgateway/deployer/merge.go:39-52 | element by element: a merged list has the default's elements and then the override's, and a present but empty override resets it |
| MergeView.ZeroExactly | internal/fgateway/deployer/merge.go:62-71 | what counts as unset, for every sort of leaf by literals: for a port, the number zero with no name |
| MergeView.ProbePorts | internal/fgateway/deployer/merge.go:354-392 | HTTP and TCP ports of both probes: the override's unless it is unset, never a mixture |
| MergeView.KubeReadsDetermine | apis/fgateway/v1alpha1/gateway_parameters_types.go:62-112 | the reads at all paths, presence of nodes included, determine the configuration, so the rows above fix the merge completely |
| MergeView.SidecarsUpToNil | internal/fgateway/deployer/merge.go:517-526 | up to nil versus empty, the last non-empty list of custom sidecars wins; between two present nodes exactly so |
| MergeView.SpecialFields | internal/fgateway/deployer/merge.go:194-210 | the policy of every leaf of the schema: only the credential-spec name borrows, only three Istio fields are first-wins, only the custom sidecars ignore empty lists, only the exec command overrides a list as a whole, all other lists are appended, all maps united, and of the rest the last set one wins |
| MergeView.ProtectedLeaves | internal/fgateway/deployer/merge.go:546-561 | in every configuration the three first-wins leaves are discovery address, mesh id and cluster id of the Istio proxy container |
| MergeView.WindowsLeaves | internal/fgateway/deployer/merge.go:204-207 | in every configuration the Windows options of the pod have four leaves, which are their four fields; the name is merged from the spec, the others from themselves |
| MergeAlgebra.LeavesAssociate | internal/fgateway/deployer/merge.go:21-71 | three leaves associate unless the middle one is present but empty while the first holds something the last does not replace: for lists, both non-empty; for maps, a key of the first outside a non-empty last |
| MergeAlgebra.MergeAssociatesExactly | internal/fgateway/deployer/merge.go:92-106 | three configurations associate if and only if every leaf does |
| MergeAlgebra.MergeAssociatesWithoutResets | internal/fgateway/deployer/merge.go:92-106 | a middle override without present-but-empty maps and lists can be merged in either grouping |
| MergeAlgebra.ResetDoesNotAssociate | internal/fgateway/deployer/merge.go:39-52 | a middle override that resets a list: one grouping yields the last list, the other first and last |
| MergeAlgebra.MergeAllGets | internal/fgateway/deployer/merge.go:92-106 | folding any list of overrides onto a default folds each leaf on its own |
| MergeAlgebra.LastSetWins | internal/fgateway/deployer/merge.go:10-19 | after any fold every pointer leaf is the last non-nil one and every plain leaf the last non-zero one; the borrowed credential-spec name has its own row |
| MergeAlgebra.FirstSetWins | internal/fgateway/deployer/merge.go:546-561 | after any fold every protected Istio leaf is the first non-nil one |
| MergeAlgebra.ProtectedNeverChanges | internal/fgateway/deployer/merge.go:546-561 | no list of overrides changes a protected leaf the default has set |
| MergeAlgebra.BorrowedGetAll | internal/fgateway/deployer/merge.go:194-210 | what any fold makes of the credential-spec name: the name itself while at most one layer has Windows options, the last non-nil spec from the second on |
| MergeAlgebra.NameRightExactly | internal/fgateway/deployer/merge.go:204-205 | over any fold the name is the last non-nil name if and only if at most one layer has Windows options there or the last non-nil spec is that name |
| MergeAlgebra.NameCanBeLost | internal/fgateway/deployer/merge.go:204-205 | a name without a spec is lost to an override whose Windows options set nothing |
| MergeAlgebra.MergeTwice | internal/fgateway/deployer/merge.go:39-52 | applying one override twice adds exactly one more copy of its list to each appended list and changes nothing else, except a grafted credential-spec name that differs from its spec |
| MergeAlgebra.MergeIdempotentExactly | internal/fgateway/deployer/merge.go:92-106 | merging is idempotent if and only if the override appends nothing and grafts no such name |
| MergeAlgebra.LastSidecarsWin | internal/fgateway/deployer/merge.go:517-526 | after any fold the custom sidecars are the last non-empty list, up to nil versus empty |
| HeapMerge.Memory.MergeMaps | internal/fgateway/deployer/merge.go:21-37 | entries are written into the default's own map; the override's map is grafted when the default has none or the override's is empty; no other cell changes |
| HeapMerge.Memory.MergeSlots | internal/fgateway/deployer/merge.go:10-71 | one field in place: a pointer is chosen, references to custom labels are appended, a map is merged into; only a map the default keeps is written |
| HeapMerge.Memory.MergeFieldAt | internal/fgateway/deployer/merge.go:194-210 | one field of a struct while the fields before it are merged, reading the field the schema says, which for the credential-spec name is the spec that is not merged yet |
| HeapMerge.Memory.MergeStruct | internal/fgateway/deployer/merge.go:566-615 | for an unshared default and an override with no common cell, memory ends up holding the merged tree at the default's address, or the override grafted; only structs and maps of the default that the result keeps are written, no scalar and no label ever, and the override is intact |
| HeapMerge.MergedValue | internal/fgateway/deployer/merge.go:73-107 | merging trees in memory, with grafted nodes and maps and shared pointers, merges their values as the schema prescribes, and keeps them well-typed |
| HeapMerge.MergedAddrs | internal/fgateway/deployer/merge.go:73-107 | merging allocates nothing: the result lives in the structs and maps of the two |
| HeapMerge.MergedUnshared | internal/fgateway/deployer/merge.go:73-107 | the merged tree is unshared again, so it can be merged into |
| HeapReading.LoadStored | internal/fgateway/deployer/merge.go:73-107 | a reader that follows the pointers finds exactly the configuration of a stored tree |
| HeapCopies.ReachStored | apis/fgateway/v1alpha1/zz_generated.deepcopy.go:435-487 | the places of a stored tree are the addresses a reader reaches from its pointer |
| HeapCopies.CopyPointer | apis/fgateway/v1alpha1/zz_generated.deepcopy.go:31-35 | a pointer to a scalar is copied to a fresh cell, nil to nil |
| HeapCopies.CopyLabel | apis/fgateway/v1alpha1/zz_generated.deepcopy.go:107-119 | a custom label gets a fresh cell, and so does each of its two optional strings |
| HeapCopies.CopyLabels | apis/fgateway/v1alpha1/zz_generated.deepcopy.go:82-95 | a list of nullable label pointers is copied to nil for nil and else a fresh cell, no two the same, that reads as the same label |
| HeapCopies.CopyMap | apis/fgateway/v1alpha1/zz_generated.deepcopy.go:139-145 | a map is copied entry by entry into a fresh one |
| HeapCopies.DeepCopy | apis/fgateway/v1alpha1/zz_generated.deepcopy.go:435-487 | a deep copy holds the same configuration, well-typed, in memory of its own, and nothing in it is reached twice; a reader that follows the pointers finds the same and reaches fresh addresses only; everything that was there is unchanged |
| HeapRefinement.RepresentsOne | apis/fgateway/v1alpha1/gateway_parameters_types.go:62-112 | a tree in memory represents at most one configuration |
| HeapRefinement.Representable | apis/fgateway/v1alpha1/gateway_parameters_types.go:62-112 | every default and every override can be laid out in any memory so that they can be merged |
| HeapRefinement.MergedRepresents | internal/fgateway/deployer/merge.go:73-107 | the merged tree represents the merge of the two configurations |
| HeapRefinement.MergeInPlace | internal/fgateway/deployer/merge.go:73-107 | in place, the result represents the merged configuration and is unshared if the override is, while the override still represents what it did; a reader that follows the pointers finds both |
| HeapRefinement.MergeIntoCopy | apis/fgateway/v1alpha1/zz_generated.deepcopy.go:435-487 | merging any override into a deep copy of a default leaves the default, the override and every other cell as they were |
| Grafts.TreeUnique | internal/fgateway/deployer/merge.go:21-37 | memory holds at most one well-typed tree at an address |
| Grafts.KeptExactly | internal/fgateway/deployer/merge.go:10-71 | which field of a default a merge leaves alone, as a guard on the two fields: a pointer that is nil or the same, a protected one already set, a zero or equal scalar, a nil list or two empty ones, sidecars nil, empty or equal, a map that is nil or brings only entries already there |
| Grafts.UnwrittenExactly | internal/fgateway/deployer/merge.go:73-107 | for every struct type: a merge changes nothing of a default if and only if every field below meets its guard, the credential-spec name that of the spec |
| Grafts.NameWithoutSpecIsWritten | internal/fgateway/deployer/merge.go:204-205 | Windows options with a name and no spec are written by any Windows options merged into them, even by ones that set nothing |
| Grafts.FateStored | internal/fgateway/deployer/merge.go:21-37 | what memory holds in place of an earlier override after the next one has been merged: whatever it shares with the default, and only that, has been written, at any depth |
| Grafts.FateAligned | internal/fgateway/deployer/merge.go:73-107 | an override and the default share only whole subtrees and maps at the same place, through every merge |
| Grafts.SparedExactly | internal/fgateway/deployer/merge.go:21-37 | a merge leaves an earlier override as it was if and only if the nodes it shares with the default meet their guards and the maps it shares have the new entries already |
| Grafts.SurvivesExactly | internal/fgateway/deployer/merge.go:29-36 | after merging one override and then a second into a default, memory still holds the first if and only if no grafted map, empty or not, gets new entries and no grafted node is written, as guards on the three inputs, at any depth |
| Folds.MergeAllInPlace | internal/fgateway/deployer/merge.go:73-107 | folding any list of overrides in place, each in cells of its own, represents the fold of the configurations; memory holds the fate of every override, and the override itself exactly if that is its fate; nothing outside default and overrides changes |
| Folds.FateStep | internal/fgateway/deployer/merge.go:21-37 | along a fold an override that is still there survives the next merge if and only if that merge spares what it shares |
| Folds.MergeTwoInPlace | internal/fgateway/deployer/merge.go:73-107 | the two merges run in place: the result represents both, the second override is intact, the first exactly if it survives |
| Folds.EmptyMapDoesNotSurvive | internal/fgateway/deployer/merge.go:29-36 | three whole configurations: an empty map of the first override replaces the default's and takes the entries of the second |
| Folds.WrittenAndRestored | internal/fgateway/deployer/merge.go:29-36 | a third override can bring back what a second has overwritten in the first, so only the whole fold decides |
| Deployer.MergeKeepsExclusivity | internal/fgateway/deployer/merge.go:73-107 | exactly one of kube and selfManaged stays set, in the result and in the mutated default; the two agree exactly when the default is Kube or the override self-managed |
| Deployer.MergeWithoutOne | internal/fgateway/deployer/merge.go:82-90 | the cases without an override, without a default and with an override that sets neither part |
| Deployer.DeepMergeInPlace | internal/fgateway/deployer/merge.go:73-107 | the top-level merge on two objects in memory: it panics exactly for a nil default and a self-managed override; else the default holds what the merge on values says has become of it, the override what it held, and what is returned holds the result |
| Deployer.Resolve | internal/fgateway/deployer/deployer.go:284-298 | the caller never makes the merge panic, and what it resolves is the mutated default |
| Deployer.DefaultExactly | internal/fgateway/deployer/deployer.go:308-360 | the default is found exactly under the name and namespace of the class reference, with the empty namespace if it gives none |
| Deployer.PlanExactly | internal/fgateway/deployer/deployer.go:226-234 | nothing is deployed exactly when default or override is self-managed; otherwise the merged Kube part is rendered; errors exactly for failed lookups |
| Deployer.DroppedResultExactly | internal/fgateway/deployer/deployer.go:296-298 | dropping the merge's result changes the plan exactly for a Kube override of a self-managed default: nothing is deployed, while the result would have been the override |

## Left out

- gRPC server, snapshot cache, listeners, probes, CLI, logging and environment lookups.
- Helm chart rendering, YAML and JSON conversion, `getValues` (a stub) and owner references.
- Controllers, watches, generated clients, informers, listers and openapi.
- The inside of FNV-1: collisions are a hypothesis on the labels seen, never assumed away.
- The inside of the krt library: a trigger is a flag that a recomputation consumes.
- Pod addresses and pod equality in pods.go: no modelled property depends on them.
- Slice capacity: `append` is modelled on values, so writes through a shared backing array are not.
- Fields of Kubernetes structs that merge.go never names; elements of lists other than the custom labels are opaque values without cells of their own.
