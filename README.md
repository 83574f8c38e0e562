# Rancher exporter metric registry, in Dafny

This project models the metric registry of the Rancher Prometheus exporter, which lives in
`collector/collector.go`. The registry is a struct of twenty gauges.
- Eleven are plain gauges: the cluster, distribution, node, token, user and project counts.
- Nine are label vectors: each child is selected by a tuple of label values.

Two loops update the registry:
- A slow loop resets `latestRancherVersion` once a minute and marks the latest release.
- A fast loop runs every ten seconds. It clears seven of the vectors and then launches
  thirteen fetcher goroutines. Each fetcher calls the Rancher client and writes its own gauges.

The model has three layers:

- `GaugeVec` (gauge_vec.dfy) models a label vector as a finite map from label tuples to
  values. `Assign` is what a `range` over a slice of rows writes: the last row wins on
  duplicate labels. `ByName` and `Flags` are what a `range` over a Go map writes.
- `Registry` (registry.dfy) gives the registry as a value, `Snapshot`. It defines `new()`,
  `resetGaugeVecMetrics`, the slow tick and the thirteen fetchers as functions. Each function's
  contract states what it writes and that it changes nothing else (`OnlyChanges`).
  `Fetch` is one fetcher run with its client result. `Wave` is the thirteen fetchers of a
  fast tick in launch order, and `FastTick` is the reset followed by that wave.
- `Collector.Metrics` (collector.dfy) is the struct as an object with one field per gauge.
  Its methods update those fields in place, with the loops of the source. Each method is
  proved to leave `State()` as the matching `Registry` function does, so every lemma about
  those functions holds of the object.

The lemmas:
- `Properties` covers framing, commuting fetchers, order-independence of a wave, idempotence
  and the error policy.
- `Ticks` covers what a fast tick leaves behind.
- `Interleaving` covers two overlapping waves: no torn scalars.
- `Invariants` covers a well-formedness invariant that holds across any sequence of resets,
  whole fetchers and slow ticks, when each fetcher runs atomically.
- `Scenarios` covers concrete runs.

A client call is a parameter. `Fetched(value, failed)` stands for the pair `(value, err)`
that the call returned. For all fetchers except one, the fetcher writes `value` whether or
not `failed` is set: the source logs the error and carries on. The exception is
`getRancherCustomResources`, which returns before writing. So a failed call does not keep
the previous value: the fetcher logs the error and still writes what the client returned
(collector/collector.go:234-238, 283-289; `Properties.ErrorStillWrites`,
`Scenarios.NodeCountRecovers`).

## Model

| member | source | states |
|---|---|---|
| Registry.New | collector/collector.go:44-181 | `new()` starts with every scalar at 0 and every vector without children |
| Collector.Metrics.constructor | collector/collector.go:44-181 | the freshly built object's state is `New()` |
| Registry.ResetGaugeVecMetrics | collector/collector.go:377-386 | the seven inventory vectors are cleared and every other metric, the custom-resource vector included, is unchanged |
| Collector.Metrics.ResetGaugeVecMetrics | collector/collector.go:377-386 | the seven `Reset()` calls in place leave the state `Registry.ResetGaugeVecMetrics` gives |
| Registry.LatestVersionTick | collector/collector.go:194-202 | after a slow tick the latest-version vector has exactly one child, the returned version, at 1, whether or not the call failed, and nothing else changes |
| Collector.Metrics.LatestVersionTick | collector/collector.go:194-202 | the slow loop's body in place gives `Registry.LatestVersionTick` |
| Registry.GetInstalledRancherVersion | collector/collector.go:230-242 | the returned version's child is at 1, every other child as it was, whatever the error report; only this vector changes |
| Collector.Metrics.GetInstalledRancherVersion | collector/collector.go:230-242 | the in-place write gives `Registry.GetInstalledRancherVersion` |
| Registry.GetClusterConnectedState | collector/collector.go:244-258 | every returned cluster gets a child on both sides of the pair: 1 on its own side, 0 on the other; other children are as they were; nothing else changes |
| Registry.FlaggedUnique | collector/collector.go:244-258 | what the connectivity loop writes over a vector is determined by the map of cluster states, whatever order the loop visits it in |
| Collector.ConnectivityStep | collector/collector.go:249-256 | one more visited cluster extends the part of the pair written so far |
| Collector.Metrics.GetClusterConnectedState | collector/collector.go:244-258 | the loop over the Go map, in any order, leaves the state `Registry.GetClusterConnectedState` gives |
| Registry.GetNumberOfClusters | collector/collector.go:260-267 | the cluster count takes the returned value, even on error; nothing else changes |
| Collector.Metrics.GetNumberOfClusters | collector/collector.go:260-267 | the in-place write gives `Registry.GetNumberOfClusters` |
| Registry.GetDistributions | collector/collector.go:269-280 | each of the six distribution gauges takes the count under its key, or 0 when the key is absent; the total cluster count and everything else are unchanged |
| Collector.Metrics.GetDistributions | collector/collector.go:269-280 | the six `Set` calls in place give `Registry.GetDistributions` |
| Registry.GetNumberOfNodes | collector/collector.go:282-290 | the node count takes the returned value, even on error; nothing else changes |
| Collector.Metrics.GetNumberOfNodes | collector/collector.go:282-290 | the in-place write gives `Registry.GetNumberOfNodes` |
| Registry.GetDownstreamClusterVersions | collector/collector.go:292-303 | every returned (name, version) tuple is present at 1, every other child as it was; only this vector changes |
| Collector.Metrics.GetDownstreamClusterVersions | collector/collector.go:292-303 | the loop over the rows leaves the state `Registry.GetDownstreamClusterVersions` gives |
| Registry.GetNumberOfUsers | collector/collector.go:305-312 | the user count takes the returned value, even on error; nothing else changes |
| Collector.Metrics.GetNumberOfUsers | collector/collector.go:305-312 | the in-place write gives `Registry.GetNumberOfUsers` |
| Registry.GetNumberOfTokens | collector/collector.go:314-321 | the token count takes the returned value, even on error; nothing else changes |
| Collector.Metrics.GetNumberOfTokens | collector/collector.go:314-321 | the in-place write gives `Registry.GetNumberOfTokens` |
| Registry.GetNumberOfProjects | collector/collector.go:323-330 | the project count takes the returned value, even on error; nothing else changes |
| Collector.Metrics.GetNumberOfProjects | collector/collector.go:323-330 | the in-place write gives `Registry.GetNumberOfProjects` |
| Registry.GetProjectLabels | collector/collector.go:332-343 | every returned five-label tuple is present at 1, every other child as it was; only this vector changes |
| Collector.Metrics.GetProjectLabels | collector/collector.go:332-343 | the loop over the rows leaves the state `Registry.GetProjectLabels` gives |
| Registry.GetProjectAnnotations | collector/collector.go:345-354 | every returned annotation tuple is present at 1, every other child as it was; only this vector changes |
| Collector.Metrics.GetProjectAnnotations | collector/collector.go:345-354 | the loop over the rows leaves the state `Registry.GetProjectAnnotations` gives |
| Registry.GetProjectResources | collector/collector.go:356-364 | the children are the old ones plus the returned quota tuples; each returned tuple holds the amount of the last row carrying it; other children are as they were |
| Collector.Metrics.GetProjectResources | collector/collector.go:356-364 | the loop over the rows leaves the state `Registry.GetProjectResources` gives |
| Registry.GetRancherCustomResources | collector/collector.go:366-374 | on error the registry is unchanged; otherwise each returned kind is inserted or overwritten with its count, no child is removed and nothing else changes |
| Collector.Metrics.GetRancherCustomResources | collector/collector.go:366-374 | the early return and the loop over the Go map give `Registry.GetRancherCustomResources` |
| Collector.Metrics.ResetInstalledRancherVersion | collector/collector.go:378 | `installedRancherVersion.Reset()` empties that vector and changes no other field |
| Collector.Metrics.ResetClusterConditionConnected | collector/collector.go:379 | `clusterConditionConnected.Reset()` empties that vector and changes no other field |
| Collector.Metrics.ResetClusterConditionNotConnected | collector/collector.go:380 | `clusterConditionNotConnected.Reset()` empties that vector and changes no other field |
| Collector.Metrics.ResetDownstreamClusterVersion | collector/collector.go:381 | `downstreamClusterVersion.Reset()` empties that vector and changes no other field |
| Collector.Metrics.ResetProjectLabels | collector/collector.go:382 | `projectLabels.Reset()` empties that vector and changes no other field |
| Collector.Metrics.ResetProjectAnnotations | collector/collector.go:383 | `projectAnnotations.Reset()` empties that vector and changes no other field |
| Collector.Metrics.ResetProjectResources | collector/collector.go:384 | `projectResources.Reset()` empties that vector and changes no other field |
| Collector.Metrics.SetClusterConditionConnected | collector/collector.go:251-255 | one `clusterConditionConnected.WithLabelValues(name).Set(v)` sets child `[name]` to `v` and changes nothing else |
| Collector.Metrics.SetClusterConditionNotConnected | collector/collector.go:251-255 | one `clusterConditionNotConnected.WithLabelValues(name).Set(v)` sets child `[name]` to `v` and changes nothing else |
| Collector.Metrics.SetRancherCustomResource | collector/collector.go:372 | one `rancherCustomResources.WithLabelValues(key).Set(..)` sets child `[key]` and changes nothing else |
| Collector.Metrics.SetManagedRKEClusterCount | collector/collector.go:274 | the rke gauge takes the value and no other field changes |
| Collector.Metrics.SetManagedRKE2ClusterCount | collector/collector.go:275 | the rke2 gauge takes the value and no other field changes |
| Collector.Metrics.SetManagedK3sClusterCount | collector/collector.go:276 | the k3s gauge takes the value and no other field changes |
| Collector.Metrics.SetManagedEKSClusterCount | collector/collector.go:277 | the eks gauge takes the value and no other field changes |
| Collector.Metrics.SetManagedAKSClusterCount | collector/collector.go:278 | the aks gauge takes the value and no other field changes |
| Collector.Metrics.SetManagedGKEClusterCount | collector/collector.go:279 | the gke gauge takes the value and no other field changes |
| Collector.Metrics.Run | collector/collector.go:213-225 | running any one fetcher to completion in place gives `Registry.Apply` |
| Collector.Metrics.RunCount | collector/collector.go:215-221 | running any of the six count fetchers in place gives `Registry.Apply` |
| Collector.Metrics.RunVector | collector/collector.go:213-225 | running any of the seven vector fetchers in place gives `Registry.Apply` |
| Registry.Apply | collector/collector.go:230-374 | one fetcher with its client result, dispatched to the matching fetcher function; `Properties.ApplyFrame` and `Properties.ApplyLocal` state what it may change and read |
| Registry.ApplyAll | collector/collector.go:213-225 | fetchers completing one after another, first to last; `Properties.ApplyAllOwned` and `Properties.ApplyAllUnowned` state its outcome metric by metric |
| Registry.Wave | collector/collector.go:213-225 | the thirteen fetchers of one fast tick in launch order; `Properties.WaveDisjoint` shows no two own a common metric |
| Registry.FastTick | collector/collector.go:208-226 | the reset followed by the wave; the `Ticks` lemmas give its outcome gauge by gauge and `Collector.Metrics.FastTick` is proved equal to it |
| Invariants.Step | collector/collector.go:189-226 | one atomic event, a reset, a whole fetcher or a slow tick, applied to the registry |
| Invariants.Run | collector/collector.go:184-228 | `new()` followed by a sequence of atomic events; `Invariants.RunWellFormed` is about it |
| Collector.Metrics.FastTick | collector/collector.go:208-226 | the fast loop's body, with the fetchers completing in launch order, gives `Registry.FastTick` |
| Properties.ApplyFrame | collector/collector.go:230-374 | every fetcher changes only the metrics it owns |
| Properties.ApplyLocal | collector/collector.go:230-374 | what a fetcher writes depends only on its client result and the vectors it writes into |
| Properties.FetchersCommute | collector/collector.go:213-225 | two fetchers that own different metrics end alike in either order |
| Properties.WaveDisjoint | collector/collector.go:213-225 | no two of the thirteen fetchers of a fast tick own a common metric |
| Properties.WaveOrderIrrelevant | collector/collector.go:213-225 | two orders of the same set of pairwise disjoint fetchers give the same registry |
| Properties.FastTickAnyOrder | collector/collector.go:208-226 | any completion order of the thirteen goroutines, that is any sequence holding exactly the wave's fetchers, ends as the launch order does: disjointness of the reordered sequence is derived, not assumed |
| Properties.FastTickOwned | collector/collector.go:208-226 | each metric after a fast tick holds what its own fetcher writes on the reset registry |
| Properties.FetcherIdempotent | collector/collector.go:230-374 | running a fetcher again with the same result changes nothing |
| Properties.ErrorStillWrites | collector/collector.go:230-364 | for every fetcher but the custom-resource one, the error report does not change what is written |
| Properties.CustomErrorWritesNothing | collector/collector.go:366-370 | a failed custom-resource call leaves the registry unchanged |
| Properties.AgreementDetermines | collector/collector.go:10-42 | two registries that agree on all twenty metrics are equal |
| Ticks.TickClusterScalars | collector/collector.go:260-290 | after a fast tick the cluster and node counts are this tick's values |
| Ticks.TickAccountScalars | collector/collector.go:305-330 | after a fast tick the token, user and project counts are this tick's values |
| Ticks.TickDistributions | collector/collector.go:269-280 | after a fast tick each distribution gauge is this tick's count under its key, 0 when absent |
| Ticks.TickPresence | collector/collector.go:230-343 | after a fast tick the installed-version, downstream-version and label vectors hold exactly this tick's rows |
| Ticks.TickProjectVectors | collector/collector.go:345-364 | after a fast tick the annotation and quota vectors hold exactly this tick's rows |
| Ticks.TickConnectivity | collector/collector.go:244-258 | after a fast tick the connectivity pair holds exactly this tick's clusters |
| Ticks.TickCustom | collector/collector.go:366-374 | after a fast tick the custom-resource vector is the old one overlaid with this tick's counts, or unchanged when the call failed |
| Ticks.FastTickKeepsLatest | collector/collector.go:189-226 | a fast tick never touches the slow loop's latest-version vector |
| Ticks.FastTickIsFieldwise | collector/collector.go:208-226 | a fast tick equals writing every gauge from its own fetcher's result |
| Ticks.FastTickRepopulates | collector/collector.go:377-386 | after a reset and a fetch, each cleared vector's key set equals the fetched tuples: no stale child and none missing |
| Ticks.FastTickKeepsCustomResources | collector/collector.go:366-385 | custom-resource children survive every fast tick; kinds not returned keep their count; a failed call keeps them all |
| Ticks.FastTickIdempotent | collector/collector.go:208-226 | two fast ticks with the same client results leave the registry of one |
| Ticks.TicksCommute | collector/collector.go:189-226 | a slow tick and a fast tick give the same registry in either order |
| Ticks.EmptyLabelsClearStale | collector/collector.go:332-343 | an empty label list leaves the label vector empty after the tick, whatever earlier ticks wrote |
| Interleaving.ScalarLastWriterWins | collector/collector.go:260-330 | in any sequence of fetchers, a scalar ends as its last writer alone leaves it, or unchanged when none writes it |
| Interleaving.TwoWavesNoTornScalars | collector/collector.go:208-226 | when two waves' fetchers interleave in any way, every scalar ends at its earlier value or at one wave's value, never a mixture |
| Invariants.FlaggedKeepsExclusive | collector/collector.go:244-258 | the connectivity fetcher keeps the pair exclusive: every child is at 1 on exactly one side |
| Invariants.ApplyKeepsWellFormed | collector/collector.go:230-374 | every fetcher keeps the registry well formed |
| Invariants.ResetKeepsWellFormed | collector/collector.go:377-386 | the reset keeps the registry well formed |
| Invariants.LatestTickKeepsWellFormed | collector/collector.go:194-202 | the slow tick keeps the registry well formed |
| Invariants.RunWellFormed | collector/collector.go:184-228 | every registry reached from `new()` by any sequence of resets, whole fetchers and slow ticks, each fetcher run atomically, is well formed |
| Invariants.FastTickKeepsWellFormed | collector/collector.go:208-226 | a fast tick keeps the registry well formed |
| Scenarios.DistributionBreakdown | collector/collector.go:269-280 | distributions `{rke: 2, rke2: 5, k3s: 0}` set rke to 2, rke2 to 5 and the other four to 0, and leave the total alone |
| Scenarios.TwoClusterConnectivity | collector/collector.go:244-258 | after a reset, clusters `{a: true, b: false}` give connected `{a: 1, b: 0}` and not-connected `{a: 0, b: 1}` |
| Scenarios.LabelsDropToNone | collector/collector.go:332-343 | a tick with three label rows, then one with none, leaves the label vector empty |
| Scenarios.NodeCountRecovers | collector/collector.go:282-290 | a failed node count writes the value returned with the error; the next successful call with 42 writes 42 |
| GaugeVec.AssignLastWins | collector/collector.go:356-364 | when several rows carry the same labels, the child holds the last row's value |
| GaugeVec.AssignKeys | collector/collector.go:292-364 | writing rows adds exactly their label tuples to the children |
| GaugeVec.AssignIdempotent | collector/collector.go:292-364 | writing the same rows twice is writing them once |

## Left out

- Goroutines and tickers: a fetcher is one atomic step (`Fetch`). The fast loop's goroutines
  are modelled as any sequence of such steps. In the source the atomic unit is one `Set` or
  `Reset` call. Interleavings inside a fetcher are not modelled.
- Invariants.RunWellFormed: holds only when each fetcher runs atomically. The source's
  separate `Set` and `Reset` calls (collector/collector.go:251-255, 210, 379-380) break
  exclusivity. Example: from `new()`, set connected `[a]` to 1, let the next tick's reset
  clear both vectors, then set not-connected `[a]` to 0. Another example: two waves' loops
  see `a` true and false, and their writes interleave as connected 1, not-connected 1,
  connected 0, not-connected 0. Both leave the pair non-exclusive.
  `Interleaving.TwoWavesNoTornScalars` is not affected: each scalar is written by a single `Set`.
- Timing, logging and `log.Errorf`: not modelled. A failed call carries only its `failed` flag.
- The Rancher client calls are parameters (`Fetched` values, `ClientResults`). The client
  package and its queries are not part of this model.
- `MustRegister`, metric names, help strings and label names: not modelled. A vector is a
  map from label-value tuples to values.
- float64 gauge values: counts and presence markers are `int`, and project quota amounts
  are `real`. The int-to-float64 conversion, and its rounding above 2^53, are not modelled.
- Aliasing of gauges: the Go struct is passed by value, but its gauge objects are shared,
  so every goroutine writes the same registry. The model has one `Metrics` object for it.
- Collector.Metrics.FastTick: runs the thirteen fetchers one after another in launch order.
  Other orders are covered on values by `Properties.FastTickAnyOrder`, not on the object.
