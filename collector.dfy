/** The exporter's `metrics` struct as an object whose gauges the loops and fetchers update in
    place. Each method is proved to leave the registry as the matching function of `Registry`
    says, so every property proved about those functions holds of the object. */
module Collector {
  import opened GaugeVec
  import opened Registry
  import opened Properties

  /** `w` is `v` after the connectivity loop wrote side `side` of the clusters `done` of
      `state`: `Flagged` for the part of the map visited so far. */
  ghost predicate FlaggedSoFar(v: map<LabelTuple, int>, w: map<LabelTuple, int>, state: map<string, bool>, done: set<string>, side: bool)
    requires done <= state.Keys
  {
    && w.Keys == v.Keys + Singletons(done)
    && (forall n :: n in done ==> w[[n]] == (if state[n] == side then 1 else 0))
    && (forall k :: k in v && k !in Singletons(done) ==> w[k] == v[k])
  }

  /** Writing one more cluster of the connectivity map extends what has been written so far. */
  lemma ConnectivityStep(v: map<LabelTuple, int>, w: map<LabelTuple, int>, state: map<string, bool>, done: set<string>, key: string, side: bool)
    requires done <= state.Keys && key in state && key !in done
    requires FlaggedSoFar(v, w, state, done, side)
    ensures FlaggedSoFar(v, w[[key] := if state[key] == side then 1 else 0], state, done + {key}, side)
  {
    var w' := w[[key] := if state[key] == side then 1 else 0];
    assert Singletons(done + {key}) == Singletons(done) + {[key]} by {
      forall k | k in Singletons(done + {key}) ensures k in Singletons(done) + {[key]} {
        var n :| n in done + {key} && k == [n];
      }
    }
    forall n | n in done + {key} ensures w'[[n]] == (if state[n] == side then 1 else 0) {
      if n != key {
        assert [n] != [key];
      }
    }
  }

  class Metrics {
    var installedRancherVersion: map<LabelTuple, int>
    var latestRancherVersion: map<LabelTuple, int>
    var managedClusterCount: int
    var managedK3sClusterCount: int
    var managedRKEClusterCount: int
    var managedRKE2ClusterCount: int
    var managedEKSClusterCount: int
    var managedAKSClusterCount: int
    var managedGKEClusterCount: int
    var managedNodeCount: int
    var clusterConditionConnected: map<LabelTuple, int>
    var clusterConditionNotConnected: map<LabelTuple, int>
    var downstreamClusterVersion: map<LabelTuple, int>
    var tokenCount: int
    var userCount: int
    var projectCount: int
    var projectLabels: map<LabelTuple, int>
    var projectAnnotations: map<LabelTuple, int>
    var projectResources: map<LabelTuple, real>
    var rancherCustomResources: map<LabelTuple, int>

    /** What the gauges hold now. */
    function State(): Snapshot
      reads this
    {
      Snapshot(installedRancherVersion, latestRancherVersion, managedClusterCount,
               managedK3sClusterCount, managedRKEClusterCount, managedRKE2ClusterCount,
               managedEKSClusterCount, managedAKSClusterCount, managedGKEClusterCount, managedNodeCount,
               clusterConditionConnected, clusterConditionNotConnected, downstreamClusterVersion,
               tokenCount, userCount, projectCount, projectLabels, projectAnnotations, projectResources,
               rancherCustomResources)
    }

    /** `new()`: every scalar set to 0 and every vector without children. */
    constructor ()
      ensures State() == New()
    {
      installedRancherVersion, latestRancherVersion := map[], map[];
      managedClusterCount := 0;
      managedRKEClusterCount, managedRKE2ClusterCount, managedK3sClusterCount := 0, 0, 0;
      managedEKSClusterCount, managedAKSClusterCount, managedGKEClusterCount := 0, 0, 0;
      managedNodeCount := 0;
      clusterConditionConnected, clusterConditionNotConnected := map[], map[];
      downstreamClusterVersion := map[];
      tokenCount, userCount := 0, 0;
      projectCount := 0;
      projectLabels, projectAnnotations, projectResources := map[], map[], map[];
      rancherCustomResources := map[];
    }

    /** `installedRancherVersion.Reset()`. */
    method ResetInstalledRancherVersion()
      modifies this
      ensures State() == old(State()).(installedRancherVersion := map[])
    {
      installedRancherVersion := map[];
    }

    /** `clusterConditionConnected.Reset()`. */
    method ResetClusterConditionConnected()
      modifies this
      ensures State() == old(State()).(clusterConditionConnected := map[])
    {
      clusterConditionConnected := map[];
    }

    /** `clusterConditionNotConnected.Reset()`. */
    method ResetClusterConditionNotConnected()
      modifies this
      ensures State() == old(State()).(clusterConditionNotConnected := map[])
    {
      clusterConditionNotConnected := map[];
    }

    /** `clusterConditionConnected.WithLabelValues(name).Set(v)`. */
    method SetClusterConditionConnected(name: string, v: int)
      modifies this
      ensures State() == old(State()).(clusterConditionConnected := old(clusterConditionConnected)[[name] := v])
    {
      clusterConditionConnected := clusterConditionConnected[[name] := v];
    }

    /** `clusterConditionNotConnected.WithLabelValues(name).Set(v)`. */
    method SetClusterConditionNotConnected(name: string, v: int)
      modifies this
      ensures State() == old(State()).(clusterConditionNotConnected := old(clusterConditionNotConnected)[[name] := v])
    {
      clusterConditionNotConnected := clusterConditionNotConnected[[name] := v];
    }

    /** `rancherCustomResources.WithLabelValues(name).Set(v)`. */
    method SetRancherCustomResource(name: string, v: int)
      modifies this
      ensures State() == old(State()).(rancherCustomResources := old(rancherCustomResources)[[name] := v])
    {
      rancherCustomResources := rancherCustomResources[[name] := v];
    }

    /** `downstreamClusterVersion.Reset()`. */
    method ResetDownstreamClusterVersion()
      modifies this
      ensures State() == old(State()).(downstreamClusterVersion := map[])
    {
      downstreamClusterVersion := map[];
    }

    /** `projectLabels.Reset()`. */
    method ResetProjectLabels()
      modifies this
      ensures State() == old(State()).(projectLabels := map[])
    {
      projectLabels := map[];
    }

    /** `projectAnnotations.Reset()`. */
    method ResetProjectAnnotations()
      modifies this
      ensures State() == old(State()).(projectAnnotations := map[])
    {
      projectAnnotations := map[];
    }

    /** `projectResources.Reset()`. */
    method ResetProjectResources()
      modifies this
      ensures State() == old(State()).(projectResources := map[])
    {
      projectResources := map[];
    }

    /** `managedRKEClusterCount.Set(v)`. */
    method SetManagedRKEClusterCount(v: int)
      modifies this
      ensures State() == old(State()).(managedRKEClusterCount := v)
    {
      managedRKEClusterCount := v;
    }

    /** `managedRKE2ClusterCount.Set(v)`. */
    method SetManagedRKE2ClusterCount(v: int)
      modifies this
      ensures State() == old(State()).(managedRKE2ClusterCount := v)
    {
      managedRKE2ClusterCount := v;
    }

    /** `managedK3sClusterCount.Set(v)`. */
    method SetManagedK3sClusterCount(v: int)
      modifies this
      ensures State() == old(State()).(managedK3sClusterCount := v)
    {
      managedK3sClusterCount := v;
    }

    /** `managedEKSClusterCount.Set(v)`. */
    method SetManagedEKSClusterCount(v: int)
      modifies this
      ensures State() == old(State()).(managedEKSClusterCount := v)
    {
      managedEKSClusterCount := v;
    }

    /** `managedAKSClusterCount.Set(v)`. */
    method SetManagedAKSClusterCount(v: int)
      modifies this
      ensures State() == old(State()).(managedAKSClusterCount := v)
    {
      managedAKSClusterCount := v;
    }

    /** `managedGKEClusterCount.Set(v)`. */
    method SetManagedGKEClusterCount(v: int)
      modifies this
      ensures State() == old(State()).(managedGKEClusterCount := v)
    {
      managedGKEClusterCount := v;
    }

    /** `resetGaugeVecMetrics`: drops the children of the seven inventory vectors. */
    method ResetGaugeVecMetrics()
      modifies this
      ensures State() == Registry.ResetGaugeVecMetrics(old(State()))
    {
      ResetInstalledRancherVersion();
      ResetClusterConditionConnected();
      ResetClusterConditionNotConnected();
      ResetDownstreamClusterVersion();
      ResetProjectLabels();
      ResetProjectAnnotations();
      ResetProjectResources();
    }

    /** The body of the slow loop: reset the latest-version vector, then mark the version
        the call returned, error or not. */
    method LatestVersionTick(latest: Fetched<string>)
      modifies this
      ensures State() == Registry.LatestVersionTick(old(State()), latest)
    {
      latestRancherVersion := map[];
      latestRancherVersion := latestRancherVersion[[latest.value] := 1];
    }

    method GetInstalledRancherVersion(installed: Fetched<string>)
      modifies this
      ensures State() == Registry.GetInstalledRancherVersion(old(State()), installed)
    {
      installedRancherVersion := installedRancherVersion[[installed.value] := 1];
    }

    /** The loop over the Go map of cluster states, in whatever order the map yields them. */
    method GetClusterConnectedState(state: Fetched<map<string, bool>>)
      modifies this
      ensures State() == Registry.GetClusterConnectedState(old(State()), state)
    {
      var m := state.value;
      ghost var c0, n0 := clusterConditionConnected, clusterConditionNotConnected;
      var remaining, done := m.Keys, {};
      while remaining != {}
        invariant remaining + done == m.Keys && remaining !! done
        invariant State() == old(State()).(clusterConditionConnected := clusterConditionConnected,
                                           clusterConditionNotConnected := clusterConditionNotConnected)
        invariant FlaggedSoFar(c0, clusterConditionConnected, m, done, true)
        invariant FlaggedSoFar(n0, clusterConditionNotConnected, m, done, false)
        decreases remaining
      {
        var key :| key in remaining;
        ConnectivityStep(c0, clusterConditionConnected, m, done, key, true);
        ConnectivityStep(n0, clusterConditionNotConnected, m, done, key, false);
        if m[key] {
          SetClusterConditionConnected(key, 1);
          SetClusterConditionNotConnected(key, 0);
        } else {
          SetClusterConditionNotConnected(key, 1);
          SetClusterConditionConnected(key, 0);
        }
        remaining, done := remaining - {key}, done + {key};
      }
      ghost var t := Registry.GetClusterConnectedState(old(State()), state);
      FlaggedUnique(c0, clusterConditionConnected, t.clusterConditionConnected, m, true);
      FlaggedUnique(n0, clusterConditionNotConnected, t.clusterConditionNotConnected, m, false);
    }

    method GetNumberOfClusters(clusters: Fetched<int>)
      modifies this
      ensures State() == Registry.GetNumberOfClusters(old(State()), clusters)
    {
      managedClusterCount := clusters.value;
    }

    method GetDistributions(distributions: Fetched<map<string, int>>)
      modifies this
      ensures State() == Registry.GetDistributions(old(State()), distributions)
    {
      var d := distributions.value;
      SetManagedRKEClusterCount(CountFor(d, "rke"));
      SetManagedRKE2ClusterCount(CountFor(d, "rke2"));
      SetManagedK3sClusterCount(CountFor(d, "k3s"));
      SetManagedEKSClusterCount(CountFor(d, "eks"));
      SetManagedAKSClusterCount(CountFor(d, "aks"));
      SetManagedGKEClusterCount(CountFor(d, "gke"));
    }

    method GetNumberOfNodes(nodes: Fetched<int>)
      modifies this
      ensures State() == Registry.GetNumberOfNodes(old(State()), nodes)
    {
      managedNodeCount := nodes.value;
    }

    method GetDownstreamClusterVersions(versions: Fetched<seq<ClusterVersion>>)
      modifies this
      ensures State() == Registry.GetDownstreamClusterVersions(old(State()), versions)
    {
      var rows := versions.value;
      ghost var v0 := downstreamClusterVersion;
      var i := 0;
      while i < |rows|
        invariant 0 <= i <= |rows|
        invariant State() == old(State()).(downstreamClusterVersion := Assign(v0, rows[..i], VersionLabels, Present))
      {
        AssignPrefix(v0, rows, VersionLabels, Present, i);
        downstreamClusterVersion := downstreamClusterVersion[VersionLabels(rows[i]) := 1];
        i := i + 1;
      }
      assert rows[..|rows|] == rows;
    }

    method GetNumberOfUsers(users: Fetched<int>)
      modifies this
      ensures State() == Registry.GetNumberOfUsers(old(State()), users)
    {
      userCount := users.value;
    }

    method GetNumberOfTokens(tokens: Fetched<int>)
      modifies this
      ensures State() == Registry.GetNumberOfTokens(old(State()), tokens)
    {
      tokenCount := tokens.value;
    }

    method GetNumberOfProjects(projects: Fetched<int>)
      modifies this
      ensures State() == Registry.GetNumberOfProjects(old(State()), projects)
    {
      projectCount := projects.value;
    }

    method GetProjectLabels(labels: Fetched<seq<ProjectPair>>)
      modifies this
      ensures State() == Registry.GetProjectLabels(old(State()), labels)
    {
      var rows := labels.value;
      ghost var v0 := projectLabels;
      var i := 0;
      while i < |rows|
        invariant 0 <= i <= |rows|
        invariant State() == old(State()).(projectLabels := Assign(v0, rows[..i], PairLabels, Present))
      {
        AssignPrefix(v0, rows, PairLabels, Present, i);
        projectLabels := projectLabels[PairLabels(rows[i]) := 1];
        i := i + 1;
      }
      assert rows[..|rows|] == rows;
    }

    method GetProjectAnnotations(annotations: Fetched<seq<ProjectPair>>)
      modifies this
      ensures State() == Registry.GetProjectAnnotations(old(State()), annotations)
    {
      var rows := annotations.value;
      ghost var v0 := projectAnnotations;
      var i := 0;
      while i < |rows|
        invariant 0 <= i <= |rows|
        invariant State() == old(State()).(projectAnnotations := Assign(v0, rows[..i], PairLabels, Present))
      {
        AssignPrefix(v0, rows, PairLabels, Present, i);
        projectAnnotations := projectAnnotations[PairLabels(rows[i]) := 1];
        i := i + 1;
      }
      assert rows[..|rows|] == rows;
    }

    method GetProjectResources(resources: Fetched<seq<ProjectQuota>>)
      modifies this
      ensures State() == Registry.GetProjectResources(old(State()), resources)
    {
      var rows := resources.value;
      ghost var v0 := projectResources;
      var i := 0;
      while i < |rows|
        invariant 0 <= i <= |rows|
        invariant State() == old(State()).(projectResources := Assign(v0, rows[..i], QuotaLabels, QuotaAmount))
      {
        AssignPrefix(v0, rows, QuotaLabels, QuotaAmount, i);
        projectResources := projectResources[QuotaLabels(rows[i]) := rows[i].amount];
        i := i + 1;
      }
      assert rows[..|rows|] == rows;
    }

    /** Returns at once when the call failed; otherwise the loop over the Go map of counts. */
    method GetRancherCustomResources(resources: Fetched<map<string, int>>)
      modifies this
      ensures State() == Registry.GetRancherCustomResources(old(State()), resources)
    {
      if resources.failed {
        return;
      }
      var m := resources.value;
      ghost var v0 := rancherCustomResources;
      var remaining, done := m.Keys, {};
      while remaining != {}
        invariant remaining + done == m.Keys && remaining !! done
        invariant State() == old(State()).(rancherCustomResources := v0 + ByName(m, done))
        decreases remaining
      {
        var key :| key in remaining;
        OverlayInsert(v0, m, done, key);
        SetRancherCustomResource(key, m[key]);
        remaining, done := remaining - {key}, done + {key};
      }
    }

    /** Runs the fetcher `f` to completion. */
    method Run(f: Fetch)
      modifies this
      ensures State() == Apply(old(State()), f)
    {
      if f.FetchClusterCount? || f.FetchDistributions? || f.FetchNodeCount? ||
         f.FetchTokenCount? || f.FetchUserCount? || f.FetchProjectCount? {
        RunCount(f);
      } else {
        RunVector(f);
      }
    }

    /** Runs one of the fetchers that set gauges without labels. */
    method RunCount(f: Fetch)
      requires f.FetchClusterCount? || f.FetchDistributions? || f.FetchNodeCount? ||
               f.FetchTokenCount? || f.FetchUserCount? || f.FetchProjectCount?
      modifies this
      ensures State() == Apply(old(State()), f)
    {
      match f
      case FetchClusterCount(r) => GetNumberOfClusters(r);
      case FetchDistributions(r) => GetDistributions(r);
      case FetchNodeCount(r) => GetNumberOfNodes(r);
      case FetchTokenCount(r) => GetNumberOfTokens(r);
      case FetchUserCount(r) => GetNumberOfUsers(r);
      case FetchProjectCount(r) => GetNumberOfProjects(r);
    }

    /** Runs one of the fetchers that write label vectors. */
    method RunVector(f: Fetch)
      requires !(f.FetchClusterCount? || f.FetchDistributions? || f.FetchNodeCount? ||
                 f.FetchTokenCount? || f.FetchUserCount? || f.FetchProjectCount?)
      modifies this
      ensures State() == Apply(old(State()), f)
    {
      match f
      case FetchInstalledVersion(r) => GetInstalledRancherVersion(r);
      case FetchConnectedState(r) => GetClusterConnectedState(r);
      case FetchDownstreamVersions(r) => GetDownstreamClusterVersions(r);
      case FetchProjectLabels(r) => GetProjectLabels(r);
      case FetchProjectAnnotations(r) => GetProjectAnnotations(r);
      case FetchProjectResources(r) => GetProjectResources(r);
      case FetchCustomResources(r) => GetRancherCustomResources(r);
    }

    /** The body of the fast loop, with the thirteen fetchers run to completion one after
        another in launch order. */
    method FastTick(c: ClientResults)
      modifies this
      ensures State() == Registry.FastTick(old(State()), c)
    {
      ResetGaugeVecMetrics();
      ghost var cleared := State();
      var wave := Wave(c);
      var i := 0;
      while i < |wave|
        invariant 0 <= i <= |wave|
        invariant State() == ApplyAll(cleared, wave[..i])
      {
        ApplyAllSnoc(cleared, wave, i);
        Run(wave[i]);
        i := i + 1;
      }
      assert wave[..|wave|] == wave;
    }
  }
}
