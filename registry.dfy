/** The exporter's metric registry as a value, and what construction, the reset policy,
    the thirteen fetchers and the two loop bodies do to it. */
module Registry {
  import opened GaugeVec

  /** What one client call gave back: the value, and whether an error came with it.
      The Go client returns both; with an error the value is whatever the call returned. */
  datatype Fetched<T> = Fetched(value: T, failed: bool)

  /** One downstream cluster and the Kubernetes version it runs. */
  datatype ClusterVersion = ClusterVersion(name: string, version: string)

  /** One label or annotation of a project: the cluster, the project id and display name, key and value. */
  datatype ProjectPair = ProjectPair(clusterName: string, projectId: string, displayName: string, key: string, value: string)

  /** One resource-quota entry of a project, with the quota amount. */
  datatype ProjectQuota = ProjectQuota(clusterName: string, projectId: string, displayName: string,
                                       resourceKey: string, resourceType: string, amount: real)

  /** Labels of `cluster_k8s_version`: Name, Version. */
  function VersionLabels(c: ClusterVersion): LabelTuple { [c.name, c.version] }

  /** Labels of `rancher_project_labels` and `rancher_project_annotations`. */
  function PairLabels(p: ProjectPair): LabelTuple { [p.clusterName, p.projectId, p.displayName, p.key, p.value] }

  /** Labels of `rancher_project_resourcequota`. */
  function QuotaLabels(q: ProjectQuota): LabelTuple { [q.clusterName, q.projectId, q.displayName, q.resourceKey, q.resourceType] }

  /** The value a quota row sets. */
  function QuotaAmount(q: ProjectQuota): real { q.amount }

  /** The presence marker every version, label and annotation row sets. */
  function Present<R>(r: R): int { 1 }

  /** Go's map lookup: a missing key reads as the zero value. */
  function CountFor(d: map<string, int>, name: string): (n: int)
    ensures name in d ==> n == d[name]
    ensures name !in d ==> n == 0
  {
    if name in d then d[name] else 0
  }

  /** Every metric of the `metrics` struct, by value. Counts and markers are integers;
      quota amounts are reals. */
  datatype Snapshot = Snapshot(
    installedRancherVersion: map<LabelTuple, int>,
    latestRancherVersion: map<LabelTuple, int>,
    managedClusterCount: int,
    managedK3sClusterCount: int,
    managedRKEClusterCount: int,
    managedRKE2ClusterCount: int,
    managedEKSClusterCount: int,
    managedAKSClusterCount: int,
    managedGKEClusterCount: int,
    managedNodeCount: int,
    clusterConditionConnected: map<LabelTuple, int>,
    clusterConditionNotConnected: map<LabelTuple, int>,
    downstreamClusterVersion: map<LabelTuple, int>,
    tokenCount: int,
    userCount: int,
    projectCount: int,
    projectLabels: map<LabelTuple, int>,
    projectAnnotations: map<LabelTuple, int>,
    projectResources: map<LabelTuple, real>,
    rancherCustomResources: map<LabelTuple, int>)

  /** The names of the twenty metrics, one per field of the struct. */
  datatype Metric =
    | InstalledRancherVersion | LatestRancherVersion
    | ManagedClusterCount | ManagedK3sClusterCount | ManagedRKEClusterCount | ManagedRKE2ClusterCount
    | ManagedEKSClusterCount | ManagedAKSClusterCount | ManagedGKEClusterCount | ManagedNodeCount
    | ClusterConditionConnected | ClusterConditionNotConnected
    | DownstreamClusterVersion
    | TokenCount | UserCount
    | ProjectCount | ProjectLabels | ProjectAnnotations | ProjectResources
    | RancherCustomResources

  /** `s` and `t` hold the same value for the metric `g`: the same count, or the same children. */
  predicate Agree(s: Snapshot, t: Snapshot, g: Metric)
  {
    match g
    case InstalledRancherVersion => s.installedRancherVersion == t.installedRancherVersion
    case LatestRancherVersion => s.latestRancherVersion == t.latestRancherVersion
    case ManagedClusterCount => s.managedClusterCount == t.managedClusterCount
    case ManagedK3sClusterCount => s.managedK3sClusterCount == t.managedK3sClusterCount
    case ManagedRKEClusterCount => s.managedRKEClusterCount == t.managedRKEClusterCount
    case ManagedRKE2ClusterCount => s.managedRKE2ClusterCount == t.managedRKE2ClusterCount
    case ManagedEKSClusterCount => s.managedEKSClusterCount == t.managedEKSClusterCount
    case ManagedAKSClusterCount => s.managedAKSClusterCount == t.managedAKSClusterCount
    case ManagedGKEClusterCount => s.managedGKEClusterCount == t.managedGKEClusterCount
    case ManagedNodeCount => s.managedNodeCount == t.managedNodeCount
    case ClusterConditionConnected => s.clusterConditionConnected == t.clusterConditionConnected
    case ClusterConditionNotConnected => s.clusterConditionNotConnected == t.clusterConditionNotConnected
    case DownstreamClusterVersion => s.downstreamClusterVersion == t.downstreamClusterVersion
    case TokenCount => s.tokenCount == t.tokenCount
    case UserCount => s.userCount == t.userCount
    case ProjectCount => s.projectCount == t.projectCount
    case ProjectLabels => s.projectLabels == t.projectLabels
    case ProjectAnnotations => s.projectAnnotations == t.projectAnnotations
    case ProjectResources => s.projectResources == t.projectResources
    case RancherCustomResources => s.rancherCustomResources == t.rancherCustomResources
  }

  /** The metric `g` of `s` is a gauge at 0 or a vector without children. */
  predicate Cleared(s: Snapshot, g: Metric)
  {
    match g
    case InstalledRancherVersion => s.installedRancherVersion == map[]
    case LatestRancherVersion => s.latestRancherVersion == map[]
    case ManagedClusterCount => s.managedClusterCount == 0
    case ManagedK3sClusterCount => s.managedK3sClusterCount == 0
    case ManagedRKEClusterCount => s.managedRKEClusterCount == 0
    case ManagedRKE2ClusterCount => s.managedRKE2ClusterCount == 0
    case ManagedEKSClusterCount => s.managedEKSClusterCount == 0
    case ManagedAKSClusterCount => s.managedAKSClusterCount == 0
    case ManagedGKEClusterCount => s.managedGKEClusterCount == 0
    case ManagedNodeCount => s.managedNodeCount == 0
    case ClusterConditionConnected => s.clusterConditionConnected == map[]
    case ClusterConditionNotConnected => s.clusterConditionNotConnected == map[]
    case DownstreamClusterVersion => s.downstreamClusterVersion == map[]
    case TokenCount => s.tokenCount == 0
    case UserCount => s.userCount == 0
    case ProjectCount => s.projectCount == 0
    case ProjectLabels => s.projectLabels == map[]
    case ProjectAnnotations => s.projectAnnotations == map[]
    case ProjectResources => s.projectResources == map[]
    case RancherCustomResources => s.rancherCustomResources == map[]
  }

  /** Going from `s` to `t` leaves every metric outside `owned` as it was. */
  ghost predicate OnlyChanges(s: Snapshot, t: Snapshot, owned: set<Metric>)
  {
    forall g :: g !in owned ==> Agree(s, t, g)
  }

  /** The gauges without labels that the fetchers set. */
  const ScalarMetrics: set<Metric> :=
    {ManagedClusterCount, ManagedK3sClusterCount, ManagedRKEClusterCount, ManagedRKE2ClusterCount,
     ManagedEKSClusterCount, ManagedAKSClusterCount, ManagedGKEClusterCount, ManagedNodeCount,
     TokenCount, UserCount, ProjectCount}

  /** The label vectors whose children hold counts or presence markers. */
  const CountVectors: set<Metric> :=
    {InstalledRancherVersion, LatestRancherVersion, ClusterConditionConnected, ClusterConditionNotConnected,
     DownstreamClusterVersion, ProjectLabels, ProjectAnnotations, RancherCustomResources}

  /** The vectors the fast loop clears before each wave. */
  const ResetVectors: set<Metric> :=
    {InstalledRancherVersion, ClusterConditionConnected, ClusterConditionNotConnected,
     DownstreamClusterVersion, ProjectLabels, ProjectAnnotations, ProjectResources}

  /** The six gauges of the distribution breakdown. */
  const DistributionGauges: set<Metric> :=
    {ManagedRKEClusterCount, ManagedRKE2ClusterCount, ManagedK3sClusterCount,
     ManagedEKSClusterCount, ManagedAKSClusterCount, ManagedGKEClusterCount}

  /** `w` is `v` after a presence fetch of the tuples `fetched`: the old children plus one
      child per fetched tuple, each fetched tuple holding 1, every other child as it was. */
  ghost predicate MarkedAll(v: map<LabelTuple, int>, w: map<LabelTuple, int>, fetched: set<LabelTuple>)
  {
    && w.Keys == v.Keys + fetched
    && (forall k :: k in fetched ==> w[k] == 1)
    && (forall k :: k in v && k !in fetched ==> w[k] == v[k])
  }

  /** `new()`: every scalar at 0 and every vector without children. */
  function New(): (s: Snapshot)
    ensures forall g :: Cleared(s, g)
  {
    Snapshot(map[], map[], 0, 0, 0, 0, 0, 0, 0, 0, map[], map[], map[], 0, 0, 0, map[], map[], map[], map[])
  }

  /** `resetGaugeVecMetrics`: clears the seven inventory vectors and nothing else; the
      custom-resource vector is deliberately left alone. */
  function ResetGaugeVecMetrics(s: Snapshot): (t: Snapshot)
    ensures forall g :: g in ResetVectors ==> Cleared(t, g)
    ensures OnlyChanges(s, t, ResetVectors)
  {
    s.(installedRancherVersion := map[],
       clusterConditionConnected := map[],
       clusterConditionNotConnected := map[],
       downstreamClusterVersion := map[],
       projectLabels := map[],
       projectAnnotations := map[],
       projectResources := map[])
  }

  /** The slow loop's tick: reset `latestRancherVersion`, then mark the returned version,
      whether or not the call failed. */
  function LatestVersionTick(s: Snapshot, latest: Fetched<string>): (t: Snapshot)
    ensures t.latestRancherVersion.Keys == {[latest.value]} && t.latestRancherVersion[[latest.value]] == 1
    ensures OnlyChanges(s, t, {LatestRancherVersion})
  {
    var cleared := s.(latestRancherVersion := map[]);
    cleared.(latestRancherVersion := cleared.latestRancherVersion[[latest.value] := 1])
  }

  /** `getInstalledRancherVersion`: marks the returned version, whether or not the call failed. */
  function GetInstalledRancherVersion(s: Snapshot, installed: Fetched<string>): (t: Snapshot)
    ensures MarkedAll(s.installedRancherVersion, t.installedRancherVersion, {[installed.value]})
    ensures OnlyChanges(s, t, {InstalledRancherVersion})
  {
    s.(installedRancherVersion := s.installedRancherVersion[[installed.value] := 1])
  }

  /** `w` is `v` after the connectivity loop wrote side `side` of `state`: one child per
      cluster, 1 where the cluster's state is `side` and 0 where it is not, every other child
      as it was. */
  ghost predicate Flagged(v: map<LabelTuple, int>, w: map<LabelTuple, int>, state: map<string, bool>, side: bool)
  {
    && w.Keys == v.Keys + Singletons(state.Keys)
    && (forall n :: n in state ==> w[[n]] == (if state[n] == side then 1 else 0))
    && (forall k :: k in v && k !in Singletons(state.Keys) ==> w[k] == v[k])
  }

  /** `Flagged` fixes the written vector: two vectors that both result from writing side
      `side` of `state` over `v` are the same vector. */
  lemma FlaggedUnique(v: map<LabelTuple, int>, w1: map<LabelTuple, int>, w2: map<LabelTuple, int>, state: map<string, bool>, side: bool)
    requires Flagged(v, w1, state, side) && Flagged(v, w2, state, side)
    ensures w1 == w2
  {
    forall k | k in w1.Keys
      ensures w1[k] == w2[k]
    {
      if k in Singletons(state.Keys) {
        var n :| n in state.Keys && k == [n];
      }
    }
  }

  /** `getClusterConnectedState`: for each returned cluster, one side of the pair at 1 and the other at 0. */
  function GetClusterConnectedState(s: Snapshot, state: Fetched<map<string, bool>>): (t: Snapshot)
    ensures Flagged(s.clusterConditionConnected, t.clusterConditionConnected, state.value, true)
    ensures Flagged(s.clusterConditionNotConnected, t.clusterConditionNotConnected, state.value, false)
    ensures OnlyChanges(s, t, {ClusterConditionConnected, ClusterConditionNotConnected})
  {
    var names := state.value.Keys;
    var connected := s.clusterConditionConnected + Flags(state.value, names, true);
    var notConnected := s.clusterConditionNotConnected + Flags(state.value, names, false);
    OverlayFlags(s.clusterConditionConnected, state.value, true);
    OverlayFlags(s.clusterConditionNotConnected, state.value, false);
    ConnectivityFrame(s, connected, notConnected);
    s.(clusterConditionConnected := connected, clusterConditionNotConnected := notConnected)
  }

  /** `getNumberOfClusters`: writes the returned count, whether or not the call failed. */
  function GetNumberOfClusters(s: Snapshot, clusters: Fetched<int>): (t: Snapshot)
    ensures t.managedClusterCount == clusters.value
    ensures OnlyChanges(s, t, {ManagedClusterCount})
  {
    s.(managedClusterCount := clusters.value)
  }

  /** `getDistributions`: each of the six gauges takes the count under its own key, 0 when absent. */
  function GetDistributions(s: Snapshot, distributions: Fetched<map<string, int>>): (t: Snapshot)
    ensures t.managedRKEClusterCount == CountFor(distributions.value, "rke")
    ensures t.managedRKE2ClusterCount == CountFor(distributions.value, "rke2")
    ensures t.managedK3sClusterCount == CountFor(distributions.value, "k3s")
    ensures t.managedEKSClusterCount == CountFor(distributions.value, "eks")
    ensures t.managedAKSClusterCount == CountFor(distributions.value, "aks")
    ensures t.managedGKEClusterCount == CountFor(distributions.value, "gke")
    ensures OnlyChanges(s, t, DistributionGauges)
  {
    var d := distributions.value;
    s.(managedRKEClusterCount := CountFor(d, "rke"),
       managedRKE2ClusterCount := CountFor(d, "rke2"),
       managedK3sClusterCount := CountFor(d, "k3s"),
       managedEKSClusterCount := CountFor(d, "eks"),
       managedAKSClusterCount := CountFor(d, "aks"),
       managedGKEClusterCount := CountFor(d, "gke"))
  }

  /** `getNumberOfNodes`: writes the returned count, whether or not the call failed. */
  function GetNumberOfNodes(s: Snapshot, nodes: Fetched<int>): (t: Snapshot)
    ensures t.managedNodeCount == nodes.value
    ensures OnlyChanges(s, t, {ManagedNodeCount})
  {
    s.(managedNodeCount := nodes.value)
  }

  /** `getDownstreamClusterVersions`: marks every (name, version) pair returned. */
  function GetDownstreamClusterVersions(s: Snapshot, versions: Fetched<seq<ClusterVersion>>): (t: Snapshot)
    ensures MarkedAll(s.downstreamClusterVersion, t.downstreamClusterVersion, KeysOf(versions.value, VersionLabels))
    ensures OnlyChanges(s, t, {DownstreamClusterVersion})
  {
    MarkedAllByAssign(s.downstreamClusterVersion, versions.value, VersionLabels);
    s.(downstreamClusterVersion := Assign(s.downstreamClusterVersion, versions.value, VersionLabels, Present))
  }

  /** `getNumberOfUsers`: writes the returned count, whether or not the call failed. */
  function GetNumberOfUsers(s: Snapshot, users: Fetched<int>): (t: Snapshot)
    ensures t.userCount == users.value
    ensures OnlyChanges(s, t, {UserCount})
  {
    s.(userCount := users.value)
  }

  /** `getNumberOfTokens`: writes the returned count, whether or not the call failed. */
  function GetNumberOfTokens(s: Snapshot, tokens: Fetched<int>): (t: Snapshot)
    ensures t.tokenCount == tokens.value
    ensures OnlyChanges(s, t, {TokenCount})
  {
    s.(tokenCount := tokens.value)
  }

  /** `getNumberOfProjects`: writes the returned count, whether or not the call failed. */
  function GetNumberOfProjects(s: Snapshot, projects: Fetched<int>): (t: Snapshot)
    ensures t.projectCount == projects.value
    ensures OnlyChanges(s, t, {ProjectCount})
  {
    s.(projectCount := projects.value)
  }

  /** `getProjectLabels`: marks every project label returned. */
  function GetProjectLabels(s: Snapshot, labels: Fetched<seq<ProjectPair>>): (t: Snapshot)
    ensures MarkedAll(s.projectLabels, t.projectLabels, KeysOf(labels.value, PairLabels))
    ensures OnlyChanges(s, t, {ProjectLabels})
  {
    MarkedAllByAssign(s.projectLabels, labels.value, PairLabels);
    s.(projectLabels := Assign(s.projectLabels, labels.value, PairLabels, Present))
  }

  /** `getProjectAnnotations`: marks every project annotation returned. */
  function GetProjectAnnotations(s: Snapshot, annotations: Fetched<seq<ProjectPair>>): (t: Snapshot)
    ensures MarkedAll(s.projectAnnotations, t.projectAnnotations, KeysOf(annotations.value, PairLabels))
    ensures OnlyChanges(s, t, {ProjectAnnotations})
  {
    MarkedAllByAssign(s.projectAnnotations, annotations.value, PairLabels);
    s.(projectAnnotations := Assign(s.projectAnnotations, annotations.value, PairLabels, Present))
  }

  /** `getProjectResources`: each returned quota tuple holds the amount of the last row carrying it. */
  function GetProjectResources(s: Snapshot, resources: Fetched<seq<ProjectQuota>>): (t: Snapshot)
    ensures t.projectResources.Keys == s.projectResources.Keys + KeysOf(resources.value, QuotaLabels)
    ensures forall k :: k in KeysOf(resources.value, QuotaLabels) ==>
              WrittenLast(resources.value, QuotaLabels, QuotaAmount, k, t.projectResources[k])
    ensures forall k :: k in s.projectResources && k !in KeysOf(resources.value, QuotaLabels) ==>
              t.projectResources[k] == s.projectResources[k]
    ensures OnlyChanges(s, t, {ProjectResources})
  {
    var v, rows := s.projectResources, resources.value;
    AssignKeys(v, rows, QuotaLabels, QuotaAmount);
    forall k | k in KeysOf(rows, QuotaLabels)
      ensures WrittenLast(rows, QuotaLabels, QuotaAmount, k, Assign(v, rows, QuotaLabels, QuotaAmount)[k])
    {
      AssignLastWins(v, rows, QuotaLabels, QuotaAmount, k);
    }
    forall k | k in v && k !in KeysOf(rows, QuotaLabels)
      ensures Assign(v, rows, QuotaLabels, QuotaAmount)[k] == v[k]
    {
      AssignOutside(v, rows, QuotaLabels, QuotaAmount, k);
    }
    QuotaFrame(s, Assign(v, rows, QuotaLabels, QuotaAmount));
    s.(projectResources := Assign(v, rows, QuotaLabels, QuotaAmount))
  }

  /** `w` is `v` with the counts laid over it: one child per returned kind holding its count,
      every other child as it was. */
  ghost predicate Counted(v: map<LabelTuple, int>, w: map<LabelTuple, int>, counts: map<string, int>)
  {
    && w.Keys == v.Keys + Singletons(counts.Keys)
    && (forall n :: n in counts ==> w[[n]] == counts[n])
    && (forall k :: k in v && k !in Singletons(counts.Keys) ==> w[k] == v[k])
  }

  /** `getRancherCustomResources`: on error nothing changes; otherwise each returned kind is
      inserted or overwritten with its count and no child is removed. */
  function GetRancherCustomResources(s: Snapshot, resources: Fetched<map<string, int>>): (t: Snapshot)
    ensures resources.failed ==> t == s
    ensures !resources.failed ==> Counted(s.rancherCustomResources, t.rancherCustomResources, resources.value)
    ensures OnlyChanges(s, t, {RancherCustomResources})
  {
    if resources.failed then s
    else
      var counts := s.rancherCustomResources + ByName(resources.value, resources.value.Keys);
      OverlayByName(s.rancherCustomResources, resources.value);
      CustomFrame(s, counts);
      s.(rancherCustomResources := counts)
  }

  /** The results of one wave of client calls, one per fetcher. */
  datatype ClientResults = ClientResults(
    installedVersion: Fetched<string>,
    connectedState: Fetched<map<string, bool>>,
    clusters: Fetched<int>,
    distributions: Fetched<map<string, int>>,
    nodes: Fetched<int>,
    downstreamVersions: Fetched<seq<ClusterVersion>>,
    tokens: Fetched<int>,
    users: Fetched<int>,
    projects: Fetched<int>,
    projectLabels: Fetched<seq<ProjectPair>>,
    projectAnnotations: Fetched<seq<ProjectPair>>,
    projectResources: Fetched<seq<ProjectQuota>>,
    customResources: Fetched<map<string, int>>)

  /** One run of one of the thirteen fetchers, with the result its client call gave back. */
  datatype Fetch =
    | FetchInstalledVersion(installed: Fetched<string>)
    | FetchConnectedState(state: Fetched<map<string, bool>>)
    | FetchClusterCount(clusters: Fetched<int>)
    | FetchDistributions(distributions: Fetched<map<string, int>>)
    | FetchNodeCount(nodes: Fetched<int>)
    | FetchDownstreamVersions(versions: Fetched<seq<ClusterVersion>>)
    | FetchTokenCount(tokens: Fetched<int>)
    | FetchUserCount(users: Fetched<int>)
    | FetchProjectCount(projects: Fetched<int>)
    | FetchProjectLabels(labels: Fetched<seq<ProjectPair>>)
    | FetchProjectAnnotations(annotations: Fetched<seq<ProjectPair>>)
    | FetchProjectResources(quotas: Fetched<seq<ProjectQuota>>)
    | FetchCustomResources(customResources: Fetched<map<string, int>>)
  {
    /** The metrics this fetcher writes. */
    function Owned(): set<Metric>
    {
      match this
      case FetchInstalledVersion(_) => {InstalledRancherVersion}
      case FetchConnectedState(_) => {ClusterConditionConnected, ClusterConditionNotConnected}
      case FetchClusterCount(_) => {ManagedClusterCount}
      case FetchDistributions(_) => DistributionGauges
      case FetchNodeCount(_) => {ManagedNodeCount}
      case FetchDownstreamVersions(_) => {DownstreamClusterVersion}
      case FetchTokenCount(_) => {TokenCount}
      case FetchUserCount(_) => {UserCount}
      case FetchProjectCount(_) => {ProjectCount}
      case FetchProjectLabels(_) => {ProjectLabels}
      case FetchProjectAnnotations(_) => {ProjectAnnotations}
      case FetchProjectResources(_) => {ProjectResources}
      case FetchCustomResources(_) => {RancherCustomResources}
    }

    /** The metrics whose old value the fetcher's writes depend on: none for the scalar
        fetchers, which overwrite; its own vectors for the others, whose other children survive. */
    function Reads(): (r: set<Metric>)
      ensures r <= Owned()
    {
      match this
      case FetchClusterCount(_) => {}
      case FetchDistributions(_) => {}
      case FetchNodeCount(_) => {}
      case FetchTokenCount(_) => {}
      case FetchUserCount(_) => {}
      case FetchProjectCount(_) => {}
      case _ => Owned()
    }

    /** Whether the client call reported an error. */
    function Failed(): bool
    {
      match this
      case FetchInstalledVersion(r) => r.failed
      case FetchConnectedState(r) => r.failed
      case FetchClusterCount(r) => r.failed
      case FetchDistributions(r) => r.failed
      case FetchNodeCount(r) => r.failed
      case FetchDownstreamVersions(r) => r.failed
      case FetchTokenCount(r) => r.failed
      case FetchUserCount(r) => r.failed
      case FetchProjectCount(r) => r.failed
      case FetchProjectLabels(r) => r.failed
      case FetchProjectAnnotations(r) => r.failed
      case FetchProjectResources(r) => r.failed
      case FetchCustomResources(r) => r.failed
    }

    /** The same returned value with the error report set to `failed`. */
    function WithFailed(failed: bool): (f: Fetch)
      ensures f.Owned() == Owned() && f.Failed() == failed
    {
      match this
      case FetchInstalledVersion(r) => FetchInstalledVersion(r.(failed := failed))
      case FetchConnectedState(r) => FetchConnectedState(r.(failed := failed))
      case FetchClusterCount(r) => FetchClusterCount(r.(failed := failed))
      case FetchDistributions(r) => FetchDistributions(r.(failed := failed))
      case FetchNodeCount(r) => FetchNodeCount(r.(failed := failed))
      case FetchDownstreamVersions(r) => FetchDownstreamVersions(r.(failed := failed))
      case FetchTokenCount(r) => FetchTokenCount(r.(failed := failed))
      case FetchUserCount(r) => FetchUserCount(r.(failed := failed))
      case FetchProjectCount(r) => FetchProjectCount(r.(failed := failed))
      case FetchProjectLabels(r) => FetchProjectLabels(r.(failed := failed))
      case FetchProjectAnnotations(r) => FetchProjectAnnotations(r.(failed := failed))
      case FetchProjectResources(r) => FetchProjectResources(r.(failed := failed))
      case FetchCustomResources(r) => FetchCustomResources(r.(failed := failed))
    }
  }

  /** Runs one fetcher against the registry. */
  function Apply(s: Snapshot, f: Fetch): Snapshot
  {
    match f
    case FetchInstalledVersion(r) => GetInstalledRancherVersion(s, r)
    case FetchConnectedState(r) => GetClusterConnectedState(s, r)
    case FetchClusterCount(r) => GetNumberOfClusters(s, r)
    case FetchDistributions(r) => GetDistributions(s, r)
    case FetchNodeCount(r) => GetNumberOfNodes(s, r)
    case FetchDownstreamVersions(r) => GetDownstreamClusterVersions(s, r)
    case FetchTokenCount(r) => GetNumberOfTokens(s, r)
    case FetchUserCount(r) => GetNumberOfUsers(s, r)
    case FetchProjectCount(r) => GetNumberOfProjects(s, r)
    case FetchProjectLabels(r) => GetProjectLabels(s, r)
    case FetchProjectAnnotations(r) => GetProjectAnnotations(s, r)
    case FetchProjectResources(r) => GetProjectResources(s, r)
    case FetchCustomResources(r) => GetRancherCustomResources(s, r)
  }

  /** Runs the fetchers one after another, first to last. */
  function ApplyAll(s: Snapshot, fs: seq<Fetch>): Snapshot
    decreases |fs|
  {
    if fs == [] then s else ApplyAll(Apply(s, fs[0]), fs[1..])
  }

  /** The thirteen fetchers of one fast tick, in the order the loop launches them. */
  function Wave(c: ClientResults): seq<Fetch>
  {
    [FetchInstalledVersion(c.installedVersion), FetchConnectedState(c.connectedState),
     FetchClusterCount(c.clusters), FetchDistributions(c.distributions), FetchNodeCount(c.nodes),
     FetchDownstreamVersions(c.downstreamVersions), FetchTokenCount(c.tokens), FetchUserCount(c.users),
     FetchProjectCount(c.projects), FetchProjectLabels(c.projectLabels),
     FetchProjectAnnotations(c.projectAnnotations), FetchProjectResources(c.projectResources),
     FetchCustomResources(c.customResources)]
  }

  /** One tick of the fast loop, with the fetchers run to completion in launch order:
      the reset policy, then every fetcher. */
  function FastTick(s: Snapshot, c: ClientResults): Snapshot
  {
    ApplyAll(ResetGaugeVecMetrics(s), Wave(c))
  }

  /** The two connectivity vectors describe the same clusters, each at 1 on exactly one side. */
  ghost predicate ConnectivityExclusive(connected: map<LabelTuple, int>, notConnected: map<LabelTuple, int>)
  {
    && connected.Keys == notConnected.Keys
    && forall k :: k in connected ==>
         (connected[k] == 1 && notConnected[k] == 0) || (connected[k] == 0 && notConnected[k] == 1)
  }

  /** What holds of every registry reached from `new()` by whole fetchers, resets and slow
      ticks, each run atomically: the connectivity pair is exclusive,
      the version, label and annotation vectors hold only presence markers, and the latest-version
      vector has at most one child. */
  ghost predicate WellFormed(s: Snapshot)
  {
    && ConnectivityExclusive(s.clusterConditionConnected, s.clusterConditionNotConnected)
    && AllPresent(s.installedRancherVersion)
    && AllPresent(s.latestRancherVersion)
    && AllPresent(s.downstreamClusterVersion)
    && AllPresent(s.projectLabels)
    && AllPresent(s.projectAnnotations)
    && |s.latestRancherVersion| <= 1
  }

  /** Replacing the quota vector changes no other metric. */
  lemma QuotaFrame(s: Snapshot, quotas: map<LabelTuple, real>)
    ensures OnlyChanges(s, s.(projectResources := quotas), {ProjectResources})
  {
  }

  /** Replacing the connectivity pair changes no other metric. */
  lemma ConnectivityFrame(s: Snapshot, connected: map<LabelTuple, int>, notConnected: map<LabelTuple, int>)
    ensures OnlyChanges(s, s.(clusterConditionConnected := connected, clusterConditionNotConnected := notConnected),
                        {ClusterConditionConnected, ClusterConditionNotConnected})
  {
  }

  /** Replacing the custom-resource vector changes no other metric. */
  lemma CustomFrame(s: Snapshot, counts: map<LabelTuple, int>)
    ensures OnlyChanges(s, s.(rancherCustomResources := counts), {RancherCustomResources})
  {
  }

  /** The presence fold meets `MarkedAll`. */
  lemma MarkedAllByAssign<R>(v: map<LabelTuple, int>, rows: seq<R>, key: R -> LabelTuple)
    ensures MarkedAll(v, Assign(v, rows, key, Present), KeysOf(rows, key))
  {
    AssignKeys(v, rows, key, Present);
    forall k | k in KeysOf(rows, key) ensures Assign(v, rows, key, Present)[k] == 1 {
      AssignLastWins(v, rows, key, Present, k);
    }
    forall k | k in v && k !in KeysOf(rows, key) ensures Assign(v, rows, key, Present)[k] == v[k] {
      AssignOutside(v, rows, key, Present, k);
    }
  }
}
