/** The invariant every registry keeps that is reached from `new()` by any sequence of resets,
    whole fetchers and slow ticks, each run atomically: the connectivity pair is exclusive, the presence vectors
    hold only 1, and the latest-version vector has at most one child. */
module Invariants {
  import opened GaugeVec
  import opened Registry
  import opened Properties

  /** `new()` starts well formed. */
  lemma NewWellFormed()
    ensures WellFormed(New())
  {
  }

  /** Clearing vectors keeps the registry well formed. */
  lemma ResetKeepsWellFormed(s: Snapshot)
    requires WellFormed(s)
    ensures WellFormed(ResetGaugeVecMetrics(s))
  {
  }

  /** The slow tick leaves one child at 1 in the latest-version vector. */
  lemma LatestTickKeepsWellFormed(s: Snapshot, latest: Fetched<string>)
    requires WellFormed(s)
    ensures WellFormed(LatestVersionTick(s, latest))
  {
  }

  /** Writing one side of every returned cluster keeps the pair exclusive. */
  lemma {:induction false} FlaggedKeepsExclusive(s: Snapshot, state: map<string, bool>)
    requires ConnectivityExclusive(s.clusterConditionConnected, s.clusterConditionNotConnected)
    ensures ConnectivityExclusive(
              GetClusterConnectedState(s, Fetched(state, false)).clusterConditionConnected,
              GetClusterConnectedState(s, Fetched(state, false)).clusterConditionNotConnected)
  {
    var t := GetClusterConnectedState(s, Fetched(state, false));
    var c, nc := t.clusterConditionConnected, t.clusterConditionNotConnected;
    assert Flagged(s.clusterConditionConnected, c, state, true);
    assert Flagged(s.clusterConditionNotConnected, nc, state, false);
    forall k | k in c
      ensures (c[k] == 1 && nc[k] == 0) || (c[k] == 0 && nc[k] == 1)
    {
      if k in Singletons(state.Keys) {
        var n :| n in state && k == [n];
      }
    }
  }

  /** The connectivity fetcher keeps the registry well formed, whatever its error report. */
  lemma ConnectedStateKeepsWellFormed(s: Snapshot, state: Fetched<map<string, bool>>)
    requires WellFormed(s)
    ensures WellFormed(GetClusterConnectedState(s, state))
  {
    FlaggedKeepsExclusive(s, state.value);
    ErrorStillWrites(s, FetchConnectedState(Fetched(state.value, false)), state.failed);
  }

  /** A presence fetcher keeps the registry well formed. */
  lemma PresenceKeepsWellFormed(s: Snapshot, f: Fetch)
    requires WellFormed(s)
    requires f.FetchInstalledVersion? || f.FetchDownstreamVersions? || f.FetchProjectLabels? || f.FetchProjectAnnotations?
    ensures WellFormed(Apply(s, f))
  {
    match f
    case FetchInstalledVersion(r) =>
    case FetchDownstreamVersions(r) =>
      AssignKeepsPresence(s.downstreamClusterVersion, r.value, VersionLabels, Present);
    case FetchProjectLabels(r) =>
      AssignKeepsPresence(s.projectLabels, r.value, PairLabels, Present);
    case FetchProjectAnnotations(r) =>
      AssignKeepsPresence(s.projectAnnotations, r.value, PairLabels, Present);
  }

  /** The connectivity fetcher, run through `Apply`, keeps the registry well formed. */
  lemma ConnectivityKeepsWellFormed(s: Snapshot, f: Fetch)
    requires WellFormed(s) && f.FetchConnectedState?
    ensures WellFormed(Apply(s, f))
  {
    ConnectedStateKeepsWellFormed(s, f.state);
  }

  /** A fetcher that writes no vector `WellFormed` speaks about keeps the registry well formed. */
  lemma UnshapedFetcherKeepsWellFormed(s: Snapshot, f: Fetch)
    requires WellFormed(s) && f.Owned() !! ShapedMetrics
    ensures WellFormed(Apply(s, f))
  {
    ApplyFrame(s, f);
    UnshapedKeepsWellFormed(s, Apply(s, f), f.Owned());
  }

  /** Every fetcher keeps the registry well formed. */
  lemma ApplyKeepsWellFormed(s: Snapshot, f: Fetch)
    requires WellFormed(s)
    ensures WellFormed(Apply(s, f))
  {
    if f.FetchInstalledVersion? || f.FetchDownstreamVersions? || f.FetchProjectLabels? || f.FetchProjectAnnotations? {
      PresenceKeepsWellFormed(s, f);
    } else if f.FetchConnectedState? {
      ConnectivityKeepsWellFormed(s, f);
    } else {
      UnshapedFetcherKeepsWellFormed(s, f);
    }
  }

  /** The metrics `WellFormed` speaks about. */
  const ShapedMetrics: set<Metric> :=
    {InstalledRancherVersion, LatestRancherVersion, ClusterConditionConnected, ClusterConditionNotConnected,
     DownstreamClusterVersion, ProjectLabels, ProjectAnnotations}

  /** Changing only metrics `WellFormed` does not speak about keeps the registry well formed. */
  lemma UnshapedKeepsWellFormed(s: Snapshot, t: Snapshot, owned: set<Metric>)
    requires WellFormed(s) && OnlyChanges(s, t, owned) && owned !! ShapedMetrics
    ensures WellFormed(t)
  {
    assert Agree(s, t, InstalledRancherVersion);
    assert Agree(s, t, LatestRancherVersion);
    assert Agree(s, t, ClusterConditionConnected);
    assert Agree(s, t, ClusterConditionNotConnected);
    assert Agree(s, t, DownstreamClusterVersion);
    assert Agree(s, t, ProjectLabels);
    assert Agree(s, t, ProjectAnnotations);
  }

  /** A sequence of fetchers keeps the registry well formed. */
  lemma {:induction false} ApplyAllKeepsWellFormed(s: Snapshot, fs: seq<Fetch>)
    requires WellFormed(s)
    ensures WellFormed(ApplyAll(s, fs))
    decreases |fs|
  {
    if fs != [] {
      ApplyKeepsWellFormed(s, fs[0]);
      ApplyAllKeepsWellFormed(Apply(s, fs[0]), fs[1..]);
    }
  }

  /** One atomic step: the fast loop's reset, one whole fetcher, or one tick of the slow loop. */
  datatype Event =
    | Reset
    | Fetcher(f: Fetch)
    | SlowTick(latest: Fetched<string>)

  /** The registry after one event. */
  function Step(s: Snapshot, e: Event): Snapshot
  {
    match e
    case Reset => ResetGaugeVecMetrics(s)
    case Fetcher(f) => Apply(s, f)
    case SlowTick(latest) => LatestVersionTick(s, latest)
  }

  /** The registry after `new()` and then the events in order. */
  function Run(events: seq<Event>): Snapshot
    decreases |events|
  {
    if events == [] then New() else Step(Run(events[..|events| - 1]), events[|events| - 1])
  }

  /** Every registry reached from `new()` by a sequence of atomic events is well formed. */
  lemma {:induction false} RunWellFormed(events: seq<Event>)
    ensures WellFormed(Run(events))
    decreases |events|
  {
    if events == [] {
      NewWellFormed();
    } else {
      var s, e := Run(events[..|events| - 1]), events[|events| - 1];
      RunWellFormed(events[..|events| - 1]);
      match e
      case Reset => ResetKeepsWellFormed(s);
      case Fetcher(f) => ApplyKeepsWellFormed(s, f);
      case SlowTick(latest) => LatestTickKeepsWellFormed(s, latest);
    }
  }

  /** A fast tick keeps the registry well formed. */
  lemma FastTickKeepsWellFormed(s: Snapshot, c: ClientResults)
    requires WellFormed(s)
    ensures WellFormed(FastTick(s, c))
  {
    ResetKeepsWellFormed(s);
    ApplyAllKeepsWellFormed(ResetGaugeVecMetrics(s), Wave(c));
  }
}
