/** What one tick of the fast loop leaves in the registry: the tick written gauge by gauge,
    no stale child after the reset, the custom-resource counts kept across ticks, idempotence
    and independence from the slow loop. */
module Ticks {
  import opened GaugeVec
  import opened Registry
  import opened Properties

  /** A fast tick written gauge by gauge: every cleared vector holds exactly this tick's
      children, every scalar this tick's value, the latest-version vector is untouched and the
      custom-resource counts are laid over the previous ones unless their call failed. */
  function Fieldwise(s: Snapshot, c: ClientResults): Snapshot
  {
    var state, d := c.connectedState.value, c.distributions.value;
    Snapshot(
      installedRancherVersion := map[[c.installedVersion.value] := 1],
      latestRancherVersion := s.latestRancherVersion,
      managedClusterCount := c.clusters.value,
      managedK3sClusterCount := CountFor(d, "k3s"),
      managedRKEClusterCount := CountFor(d, "rke"),
      managedRKE2ClusterCount := CountFor(d, "rke2"),
      managedEKSClusterCount := CountFor(d, "eks"),
      managedAKSClusterCount := CountFor(d, "aks"),
      managedGKEClusterCount := CountFor(d, "gke"),
      managedNodeCount := c.nodes.value,
      clusterConditionConnected := Flags(state, state.Keys, true),
      clusterConditionNotConnected := Flags(state, state.Keys, false),
      downstreamClusterVersion := Assign(map[], c.downstreamVersions.value, VersionLabels, Present),
      tokenCount := c.tokens.value,
      userCount := c.users.value,
      projectCount := c.projects.value,
      projectLabels := Assign(map[], c.projectLabels.value, PairLabels, Present),
      projectAnnotations := Assign(map[], c.projectAnnotations.value, PairLabels, Present),
      projectResources := Assign(map[], c.projectResources.value, QuotaLabels, QuotaAmount),
      rancherCustomResources :=
        if c.customResources.failed then s.rancherCustomResources
        else s.rancherCustomResources + ByName(c.customResources.value, c.customResources.value.Keys))
  }

  /** A metric holds after a disjoint wave what the fetcher `f` that owns it writes. */
  lemma WaveOwned(x: Snapshot, w: seq<Fetch>, i: nat, f: Fetch, g: Metric)
    requires PairwiseDisjoint(w) && i < |w| && w[i] == f && g in f.Owned()
    ensures Agree(ApplyAll(x, w), Apply(x, f), g)
  {
    ApplyAllOwned(x, w, i, g);
  }

  lemma EmptyOverlay<V>(m: map<LabelTuple, V>)
    ensures map[] + m == m
  {}

  /** In a wave of fetchers with disjoint metrics, each gauge ends as its own fetcher sets it. */
  lemma WaveInstalledVersion(x: Snapshot, w: seq<Fetch>, i: nat, installed: Fetched<string>)
    requires PairwiseDisjoint(w) && i < |w| && w[i] == FetchInstalledVersion(installed)
    ensures ApplyAll(x, w).installedRancherVersion == x.installedRancherVersion[[installed.value] := 1]
  {
    ApplyAllOwned(x, w, i, InstalledRancherVersion);
  }

  lemma WaveConnectedState(x: Snapshot, w: seq<Fetch>, i: nat, state: Fetched<map<string, bool>>)
    requires PairwiseDisjoint(w) && i < |w| && w[i] == FetchConnectedState(state)
    ensures ApplyAll(x, w).clusterConditionConnected == GetClusterConnectedState(x, state).clusterConditionConnected
    ensures ApplyAll(x, w).clusterConditionNotConnected == GetClusterConnectedState(x, state).clusterConditionNotConnected
  {
    WaveOwned(x, w, i, FetchConnectedState(state), ClusterConditionConnected);
    WaveOwned(x, w, i, FetchConnectedState(state), ClusterConditionNotConnected);
  }

  lemma WaveClusterCount(x: Snapshot, w: seq<Fetch>, i: nat, clusters: Fetched<int>)
    requires PairwiseDisjoint(w) && i < |w| && w[i] == FetchClusterCount(clusters)
    ensures ApplyAll(x, w).managedClusterCount == clusters.value
  {
    ApplyAllOwned(x, w, i, ManagedClusterCount);
  }

  lemma WaveDistributions(x: Snapshot, w: seq<Fetch>, i: nat, distributions: Fetched<map<string, int>>)
    requires PairwiseDisjoint(w) && i < |w| && w[i] == FetchDistributions(distributions)
    ensures ApplyAll(x, w).managedK3sClusterCount == CountFor(distributions.value, "k3s")
    ensures ApplyAll(x, w).managedRKEClusterCount == CountFor(distributions.value, "rke")
    ensures ApplyAll(x, w).managedRKE2ClusterCount == CountFor(distributions.value, "rke2")
    ensures ApplyAll(x, w).managedEKSClusterCount == CountFor(distributions.value, "eks")
    ensures ApplyAll(x, w).managedAKSClusterCount == CountFor(distributions.value, "aks")
    ensures ApplyAll(x, w).managedGKEClusterCount == CountFor(distributions.value, "gke")
  {
    ApplyAllOwned(x, w, i, ManagedK3sClusterCount);
    ApplyAllOwned(x, w, i, ManagedRKEClusterCount);
    ApplyAllOwned(x, w, i, ManagedRKE2ClusterCount);
    ApplyAllOwned(x, w, i, ManagedEKSClusterCount);
    ApplyAllOwned(x, w, i, ManagedAKSClusterCount);
    ApplyAllOwned(x, w, i, ManagedGKEClusterCount);
  }

  lemma WaveNodeCount(x: Snapshot, w: seq<Fetch>, i: nat, nodes: Fetched<int>)
    requires PairwiseDisjoint(w) && i < |w| && w[i] == FetchNodeCount(nodes)
    ensures ApplyAll(x, w).managedNodeCount == nodes.value
  {
    ApplyAllOwned(x, w, i, ManagedNodeCount);
  }

  lemma WaveDownstreamVersions(x: Snapshot, w: seq<Fetch>, i: nat, versions: Fetched<seq<ClusterVersion>>)
    requires PairwiseDisjoint(w) && i < |w| && w[i] == FetchDownstreamVersions(versions)
    ensures ApplyAll(x, w).downstreamClusterVersion == Assign(x.downstreamClusterVersion, versions.value, VersionLabels, Present)
  {
    ApplyAllOwned(x, w, i, DownstreamClusterVersion);
  }

  lemma WaveTokenCount(x: Snapshot, w: seq<Fetch>, i: nat, tokens: Fetched<int>)
    requires PairwiseDisjoint(w) && i < |w| && w[i] == FetchTokenCount(tokens)
    ensures ApplyAll(x, w).tokenCount == tokens.value
  {
    ApplyAllOwned(x, w, i, TokenCount);
  }

  lemma WaveUserCount(x: Snapshot, w: seq<Fetch>, i: nat, users: Fetched<int>)
    requires PairwiseDisjoint(w) && i < |w| && w[i] == FetchUserCount(users)
    ensures ApplyAll(x, w).userCount == users.value
  {
    ApplyAllOwned(x, w, i, UserCount);
  }

  lemma WaveProjectCount(x: Snapshot, w: seq<Fetch>, i: nat, projects: Fetched<int>)
    requires PairwiseDisjoint(w) && i < |w| && w[i] == FetchProjectCount(projects)
    ensures ApplyAll(x, w).projectCount == projects.value
  {
    ApplyAllOwned(x, w, i, ProjectCount);
  }

  lemma WaveProjectLabels(x: Snapshot, w: seq<Fetch>, i: nat, labels: Fetched<seq<ProjectPair>>)
    requires PairwiseDisjoint(w) && i < |w| && w[i] == FetchProjectLabels(labels)
    ensures ApplyAll(x, w).projectLabels == Assign(x.projectLabels, labels.value, PairLabels, Present)
  {
    ApplyAllOwned(x, w, i, ProjectLabels);
  }

  lemma WaveProjectAnnotations(x: Snapshot, w: seq<Fetch>, i: nat, annotations: Fetched<seq<ProjectPair>>)
    requires PairwiseDisjoint(w) && i < |w| && w[i] == FetchProjectAnnotations(annotations)
    ensures ApplyAll(x, w).projectAnnotations == Assign(x.projectAnnotations, annotations.value, PairLabels, Present)
  {
    ApplyAllOwned(x, w, i, ProjectAnnotations);
  }

  lemma WaveProjectResources(x: Snapshot, w: seq<Fetch>, i: nat, quotas: Fetched<seq<ProjectQuota>>)
    requires PairwiseDisjoint(w) && i < |w| && w[i] == FetchProjectResources(quotas)
    ensures ApplyAll(x, w).projectResources == Assign(x.projectResources, quotas.value, QuotaLabels, QuotaAmount)
  {
    ApplyAllOwned(x, w, i, ProjectResources);
  }

  lemma WaveCustomResources(x: Snapshot, w: seq<Fetch>, i: nat, resources: Fetched<map<string, int>>)
    requires PairwiseDisjoint(w) && i < |w| && w[i] == FetchCustomResources(resources)
    ensures ApplyAll(x, w).rancherCustomResources == GetRancherCustomResources(x, resources).rancherCustomResources
  {
    WaveOwned(x, w, i, FetchCustomResources(resources), RancherCustomResources);
  }

  /** The gauges of a fast tick, group by group. */
  lemma TickClusterScalars(s: Snapshot, c: ClientResults)
    ensures FastTick(s, c).managedClusterCount == c.clusters.value
    ensures FastTick(s, c).managedNodeCount == c.nodes.value
  {
    var x, w := ResetGaugeVecMetrics(s), Wave(c);
    WaveDisjoint(c);
    WaveClusterCount(x, w, 2, c.clusters);
    WaveNodeCount(x, w, 4, c.nodes);
  }
  lemma TickAccountScalars(s: Snapshot, c: ClientResults)
    ensures FastTick(s, c).tokenCount == c.tokens.value
    ensures FastTick(s, c).userCount == c.users.value
    ensures FastTick(s, c).projectCount == c.projects.value
  {
    var x, w := ResetGaugeVecMetrics(s), Wave(c);
    WaveDisjoint(c);
    WaveTokenCount(x, w, 6, c.tokens);
    WaveUserCount(x, w, 7, c.users);
    WaveProjectCount(x, w, 8, c.projects);
  }
  lemma TickDistributions(s: Snapshot, c: ClientResults)
    ensures FastTick(s, c).managedK3sClusterCount == CountFor(c.distributions.value, "k3s")
    ensures FastTick(s, c).managedRKEClusterCount == CountFor(c.distributions.value, "rke")
    ensures FastTick(s, c).managedRKE2ClusterCount == CountFor(c.distributions.value, "rke2")
    ensures FastTick(s, c).managedEKSClusterCount == CountFor(c.distributions.value, "eks")
    ensures FastTick(s, c).managedAKSClusterCount == CountFor(c.distributions.value, "aks")
    ensures FastTick(s, c).managedGKEClusterCount == CountFor(c.distributions.value, "gke")
  {
    WaveDisjoint(c);
    WaveDistributions(ResetGaugeVecMetrics(s), Wave(c), 3, c.distributions);
  }
  lemma TickPresence(s: Snapshot, c: ClientResults)
    ensures FastTick(s, c).installedRancherVersion == map[[c.installedVersion.value] := 1]
    ensures FastTick(s, c).downstreamClusterVersion == Assign(map[], c.downstreamVersions.value, VersionLabels, Present)
    ensures FastTick(s, c).projectLabels == Assign(map[], c.projectLabels.value, PairLabels, Present)
  {
    var x, w := ResetGaugeVecMetrics(s), Wave(c);
    WaveDisjoint(c);
    WaveInstalledVersion(x, w, 0, c.installedVersion);
    WaveDownstreamVersions(x, w, 5, c.downstreamVersions);
    WaveProjectLabels(x, w, 9, c.projectLabels);
  }
  lemma TickProjectVectors(s: Snapshot, c: ClientResults)
    ensures FastTick(s, c).projectAnnotations == Assign(map[], c.projectAnnotations.value, PairLabels, Present)
    ensures FastTick(s, c).projectResources == Assign(map[], c.projectResources.value, QuotaLabels, QuotaAmount)
  {
    var x, w := ResetGaugeVecMetrics(s), Wave(c);
    WaveDisjoint(c);
    WaveProjectAnnotations(x, w, 10, c.projectAnnotations);
    WaveProjectResources(x, w, 11, c.projectResources);
  }
  lemma TickConnectivity(s: Snapshot, c: ClientResults)
    ensures FastTick(s, c).clusterConditionConnected == Flags(c.connectedState.value, c.connectedState.value.Keys, true)
    ensures FastTick(s, c).clusterConditionNotConnected == Flags(c.connectedState.value, c.connectedState.value.Keys, false)
  {
    var x, w := ResetGaugeVecMetrics(s), Wave(c);
    WaveDisjoint(c);
    WaveConnectedState(x, w, 1, c.connectedState);
    EmptyOverlay(Flags(c.connectedState.value, c.connectedState.value.Keys, true));
    EmptyOverlay(Flags(c.connectedState.value, c.connectedState.value.Keys, false));
  }
  lemma TickCustom(s: Snapshot, c: ClientResults)
    ensures FastTick(s, c).rancherCustomResources ==
      if c.customResources.failed then s.rancherCustomResources
      else s.rancherCustomResources + ByName(c.customResources.value, c.customResources.value.Keys)
  {
    var x, w := ResetGaugeVecMetrics(s), Wave(c);
    WaveDisjoint(c);
    WaveCustomResources(x, w, 12, c.customResources);
  }
  /** The latest-version vector belongs to the slow loop: no fetcher of a fast tick touches it. */
  lemma FastTickKeepsLatest(s: Snapshot, c: ClientResults)
    ensures FastTick(s, c).latestRancherVersion == s.latestRancherVersion
  {
    ApplyAllUnowned(ResetGaugeVecMetrics(s), Wave(c), LatestRancherVersion);
  }
  /** Running the thirteen fetchers one after another on the reset registry is writing every
      gauge with its own fetcher's result. */
  lemma FastTickIsFieldwise(s: Snapshot, c: ClientResults)
    ensures FastTick(s, c) == Fieldwise(s, c)
  {
    TickClusterScalars(s, c);
    TickAccountScalars(s, c);
    TickDistributions(s, c);
    TickPresence(s, c);
    TickProjectVectors(s, c);
    TickConnectivity(s, c);
    TickCustom(s, c);
    FastTickKeepsLatest(s, c);
  }

  /** Every vector the reset policy clears holds exactly the tuples of the tick's results. */
  lemma FieldwiseRepopulates(s: Snapshot, c: ClientResults)
    ensures Fieldwise(s, c).installedRancherVersion.Keys == {[c.installedVersion.value]}
    ensures Fieldwise(s, c).clusterConditionConnected.Keys == Singletons(c.connectedState.value.Keys)
    ensures Fieldwise(s, c).clusterConditionNotConnected.Keys == Singletons(c.connectedState.value.Keys)
    ensures Fieldwise(s, c).downstreamClusterVersion.Keys == KeysOf(c.downstreamVersions.value, VersionLabels)
    ensures Fieldwise(s, c).projectLabels.Keys == KeysOf(c.projectLabels.value, PairLabels)
    ensures Fieldwise(s, c).projectAnnotations.Keys == KeysOf(c.projectAnnotations.value, PairLabels)
    ensures Fieldwise(s, c).projectResources.Keys == KeysOf(c.projectResources.value, QuotaLabels)
  {
    AssignFreshKeys(c.downstreamVersions.value, VersionLabels, Present);
    AssignFreshKeys(c.projectLabels.value, PairLabels, Present);
    AssignFreshKeys(c.projectAnnotations.value, PairLabels, Present);
    AssignFreshKeys(c.projectResources.value, QuotaLabels, QuotaAmount);
  }

  /** After a fast tick, every vector the reset policy clears holds exactly the tuples of this
      tick's results: no child of an earlier tick survives and none of this tick's is missing. */
  lemma FastTickRepopulates(s: Snapshot, c: ClientResults)
    ensures FastTick(s, c).installedRancherVersion.Keys == {[c.installedVersion.value]}
    ensures FastTick(s, c).clusterConditionConnected.Keys == Singletons(c.connectedState.value.Keys)
    ensures FastTick(s, c).clusterConditionNotConnected.Keys == Singletons(c.connectedState.value.Keys)
    ensures FastTick(s, c).downstreamClusterVersion.Keys == KeysOf(c.downstreamVersions.value, VersionLabels)
    ensures FastTick(s, c).projectLabels.Keys == KeysOf(c.projectLabels.value, PairLabels)
    ensures FastTick(s, c).projectAnnotations.Keys == KeysOf(c.projectAnnotations.value, PairLabels)
    ensures FastTick(s, c).projectResources.Keys == KeysOf(c.projectResources.value, QuotaLabels)
  {
    FastTickIsFieldwise(s, c);
    FieldwiseRepopulates(s, c);
  }

  /** A fast tick never removes a custom-resource child, keeps the count of every kind this
      tick did not return, and keeps all of them when the call failed. */
  lemma FastTickKeepsCustomResources(s: Snapshot, c: ClientResults)
    ensures s.rancherCustomResources.Keys <= FastTick(s, c).rancherCustomResources.Keys
    ensures forall k :: k in s.rancherCustomResources && k !in Singletons(c.customResources.value.Keys) ==>
              FastTick(s, c).rancherCustomResources[k] == s.rancherCustomResources[k]
    ensures c.customResources.failed ==> FastTick(s, c).rancherCustomResources == s.rancherCustomResources
  {
    TickCustom(s, c);
    OverlayByName(s.rancherCustomResources, c.customResources.value);
  }

  /** Writing a tick's results over a registry that already holds them changes nothing. */
  lemma FieldwiseIdempotent(s: Snapshot, c: ClientResults)
    ensures Fieldwise(Fieldwise(s, c), c) == Fieldwise(s, c)
  {
    var t := Fieldwise(s, c);
    if !c.customResources.failed {
      OverlayTwice(s.rancherCustomResources, ByName(c.customResources.value, c.customResources.value.Keys));
    }
    assert Fieldwise(t, c).rancherCustomResources == t.rancherCustomResources;
  }

  /** Feeding the same results into two consecutive fast ticks leaves the registry of the first. */
  lemma FastTickIdempotent(s: Snapshot, c: ClientResults)
    ensures FastTick(FastTick(s, c), c) == FastTick(s, c)
  {
    FastTickIsFieldwise(s, c);
    FastTickIsFieldwise(FastTick(s, c), c);
    FieldwiseIdempotent(s, c);
  }

  /** The slow loop and the fast loop own disjoint metrics: a slow tick and a fast tick give
      the same registry in either order. */
  lemma TicksCommute(s: Snapshot, c: ClientResults, latest: Fetched<string>)
    ensures LatestVersionTick(FastTick(s, c), latest) == FastTick(LatestVersionTick(s, latest), c)
  {
    FastTickIsFieldwise(s, c);
    FastTickIsFieldwise(LatestVersionTick(s, latest), c);
  }

  /** A project-label fetch that returns nothing after a tick that returned entries leaves the
      label vector without children. */
  lemma EmptyLabelsClearStale(s: Snapshot, c: ClientResults)
    requires c.projectLabels.value == []
    ensures FastTick(s, c).projectLabels == map[]
  {
    FastTickIsFieldwise(s, c);
  }
}
