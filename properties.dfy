/** Properties of the registry model that relate several operations: what each fetcher may
    touch, why the order of a wave does not matter, what a fast tick leaves behind, the error
    policy. */
module Properties {
  import opened GaugeVec
  import opened Registry

  /** Two registries that agree on every metric are the same registry. */
  lemma AgreementDetermines(s: Snapshot, t: Snapshot)
    requires forall g :: Agree(s, t, g)
    ensures s == t
  {
    ScalarsDetermined(s, t);
    VectorsDetermined(s, t);
  }

  lemma ScalarsDetermined(s: Snapshot, t: Snapshot)
    requires forall g :: Agree(s, t, g)
    ensures s.managedClusterCount == t.managedClusterCount
    ensures s.managedK3sClusterCount == t.managedK3sClusterCount
    ensures s.managedRKEClusterCount == t.managedRKEClusterCount
    ensures s.managedRKE2ClusterCount == t.managedRKE2ClusterCount
    ensures s.managedEKSClusterCount == t.managedEKSClusterCount
    ensures s.managedAKSClusterCount == t.managedAKSClusterCount
    ensures s.managedGKEClusterCount == t.managedGKEClusterCount
    ensures s.managedNodeCount == t.managedNodeCount
    ensures s.tokenCount == t.tokenCount
    ensures s.userCount == t.userCount
    ensures s.projectCount == t.projectCount
  {
    assert Agree(s, t, ManagedClusterCount);
    assert Agree(s, t, ManagedK3sClusterCount);
    assert Agree(s, t, ManagedRKEClusterCount);
    assert Agree(s, t, ManagedRKE2ClusterCount);
    assert Agree(s, t, ManagedEKSClusterCount);
    assert Agree(s, t, ManagedAKSClusterCount);
    assert Agree(s, t, ManagedGKEClusterCount);
    assert Agree(s, t, ManagedNodeCount);
    assert Agree(s, t, TokenCount);
    assert Agree(s, t, UserCount);
    assert Agree(s, t, ProjectCount);
  }

  lemma VectorsDetermined(s: Snapshot, t: Snapshot)
    requires forall g :: Agree(s, t, g)
    ensures s.installedRancherVersion == t.installedRancherVersion
    ensures s.latestRancherVersion == t.latestRancherVersion
    ensures s.clusterConditionConnected == t.clusterConditionConnected
    ensures s.clusterConditionNotConnected == t.clusterConditionNotConnected
    ensures s.downstreamClusterVersion == t.downstreamClusterVersion
    ensures s.projectLabels == t.projectLabels
    ensures s.projectAnnotations == t.projectAnnotations
    ensures s.projectResources == t.projectResources
    ensures s.rancherCustomResources == t.rancherCustomResources
  {
    assert Agree(s, t, InstalledRancherVersion);
    assert Agree(s, t, LatestRancherVersion);
    assert Agree(s, t, ClusterConditionConnected);
    assert Agree(s, t, ClusterConditionNotConnected);
    assert Agree(s, t, DownstreamClusterVersion);
    assert Agree(s, t, ProjectLabels);
    assert Agree(s, t, ProjectAnnotations);
    assert Agree(s, t, ProjectResources);
    assert Agree(s, t, RancherCustomResources);
  }

  /** Every fetcher changes only the metrics it owns. */
  lemma ApplyFrame(s: Snapshot, f: Fetch)
    ensures OnlyChanges(s, Apply(s, f), f.Owned())
  {
    match f
    case FetchInstalledVersion(r) =>
    case FetchConnectedState(r) =>
    case FetchClusterCount(r) =>
    case FetchDistributions(r) =>
    case FetchNodeCount(r) =>
    case FetchDownstreamVersions(r) =>
    case FetchTokenCount(r) =>
    case FetchUserCount(r) =>
    case FetchProjectCount(r) =>
    case FetchProjectLabels(r) =>
    case FetchProjectAnnotations(r) =>
    case FetchProjectResources(r) =>
    case FetchCustomResources(r) =>
  }

  /** What a fetcher writes depends only on its result and on the metrics it reads. */
  lemma ApplyLocal(s: Snapshot, u: Snapshot, f: Fetch)
    requires forall g :: g in f.Reads() ==> Agree(s, u, g)
    ensures forall g :: g in f.Owned() ==> Agree(Apply(s, f), Apply(u, f), g)
  {
    if f.FetchClusterCount? || f.FetchDistributions? || f.FetchNodeCount? ||
       f.FetchTokenCount? || f.FetchUserCount? || f.FetchProjectCount? {
      // the scalar fetchers overwrite their gauges whatever they held
    } else if f.FetchInstalledVersion? || f.FetchDownstreamVersions? ||
              f.FetchProjectLabels? || f.FetchProjectAnnotations? {
      PresenceFetcherLocal(s, u, f);
    } else if f.FetchConnectedState? {
      ConnectivityFetcherLocal(s, u, f);
    } else if f.FetchProjectResources? {
      QuotaFetcherLocal(s, u, f);
    } else {
      CustomFetcherLocal(s, u, f);
    }
  }

  lemma PresenceFetcherLocal(s: Snapshot, u: Snapshot, f: Fetch)
    requires f.FetchInstalledVersion? || f.FetchDownstreamVersions? || f.FetchProjectLabels? || f.FetchProjectAnnotations?
    requires forall g :: g in f.Owned() ==> Agree(s, u, g)
    ensures forall g :: g in f.Owned() ==> Agree(Apply(s, f), Apply(u, f), g)
  {
    match f
    case FetchInstalledVersion(r) =>
      assert Agree(s, u, InstalledRancherVersion);
    case FetchDownstreamVersions(r) =>
      assert Agree(s, u, DownstreamClusterVersion);
    case FetchProjectLabels(r) =>
      assert Agree(s, u, ProjectLabels);
    case FetchProjectAnnotations(r) =>
      assert Agree(s, u, ProjectAnnotations);
  }

  lemma ConnectivityFetcherLocal(s: Snapshot, u: Snapshot, f: Fetch)
    requires f.FetchConnectedState?
    requires forall g :: g in f.Owned() ==> Agree(s, u, g)
    ensures forall g :: g in f.Owned() ==> Agree(Apply(s, f), Apply(u, f), g)
  {
    var t1, t2 := Apply(s, f), Apply(u, f);
    assert Agree(s, u, ClusterConditionConnected) && Agree(s, u, ClusterConditionNotConnected);
    ConnectivityReadsPair(s, u, f.state);
    assert Agree(t1, t2, ClusterConditionConnected) && Agree(t1, t2, ClusterConditionNotConnected);
  }

  /** The connectivity fetcher's pair after the call depends on nothing but the pair before it. */
  lemma ConnectivityReadsPair(s: Snapshot, u: Snapshot, r: Fetched<map<string, bool>>)
    requires s.clusterConditionConnected == u.clusterConditionConnected
    requires s.clusterConditionNotConnected == u.clusterConditionNotConnected
    ensures GetClusterConnectedState(s, r).clusterConditionConnected == GetClusterConnectedState(u, r).clusterConditionConnected
    ensures GetClusterConnectedState(s, r).clusterConditionNotConnected == GetClusterConnectedState(u, r).clusterConditionNotConnected
  {
  }

  lemma QuotaFetcherLocal(s: Snapshot, u: Snapshot, f: Fetch)
    requires f.FetchProjectResources?
    requires forall g :: g in f.Owned() ==> Agree(s, u, g)
    ensures forall g :: g in f.Owned() ==> Agree(Apply(s, f), Apply(u, f), g)
  {
    assert Agree(s, u, ProjectResources);
  }

  lemma CustomFetcherLocal(s: Snapshot, u: Snapshot, f: Fetch)
    requires f.FetchCustomResources?
    requires forall g :: g in f.Owned() ==> Agree(s, u, g)
    ensures forall g :: g in f.Owned() ==> Agree(Apply(s, f), Apply(u, f), g)
  {
    assert Agree(s, u, RancherCustomResources);
  }

  /** Agreement on one metric is symmetric. */
  lemma AgreeFlip(a: Snapshot, b: Snapshot, g: Metric)
    requires Agree(a, b, g)
    ensures Agree(b, a, g)
  {
  }

  /** Agreement on one metric is transitive. */
  lemma AgreeChain(a: Snapshot, b: Snapshot, c: Snapshot, g: Metric)
    requires Agree(a, b, g) && Agree(b, c, g)
    ensures Agree(a, c, g)
  {
  }

  /** A metric owned by `a` and not by `b` holds the same after `a` then `b` as after `b` then `a`. */
  lemma CommuteOwned(s: Snapshot, a: Fetch, b: Fetch, g: Metric)
    requires a.Owned() !! b.Owned() && g in a.Owned()
    ensures Agree(Apply(Apply(s, a), b), Apply(Apply(s, b), a), g)
  {
    var sa, sb := Apply(s, a), Apply(s, b);
    ApplyFrame(s, b);
    ApplyFrame(sa, b);
    ApplyLocal(s, sb, a);
    AgreeFlip(sa, Apply(sa, b), g);
    AgreeChain(Apply(sa, b), sa, Apply(sb, a), g);
  }

  /** Two fetchers that own different metrics can run in either order with the same outcome. */
  lemma FetchersCommute(s: Snapshot, a: Fetch, b: Fetch)
    requires a.Owned() !! b.Owned()
    ensures Apply(Apply(s, a), b) == Apply(Apply(s, b), a)
  {
    var ab, ba := Apply(Apply(s, a), b), Apply(Apply(s, b), a);
    forall g ensures Agree(ab, ba, g) {
      if g in a.Owned() {
        CommuteOwned(s, a, b, g);
      } else if g in b.Owned() {
        CommuteOwned(s, b, a, g);
        AgreeFlip(ba, ab, g);
      } else {
        ApplyFrame(s, a);
        ApplyFrame(Apply(s, a), b);
        ApplyFrame(s, b);
        ApplyFrame(Apply(s, b), a);
        AgreeChain(s, Apply(s, a), ab, g);
        AgreeChain(s, Apply(s, b), ba, g);
        AgreeFlip(s, ab, g);
        AgreeChain(ab, s, ba, g);
      }
    }
    AgreementDetermines(ab, ba);
  }

  /** No two fetchers of the sequence own a common metric. */
  ghost predicate PairwiseDisjoint(fs: seq<Fetch>)
  {
    forall i, j :: 0 <= i < j < |fs| ==> fs[i].Owned() !! fs[j].Owned()
  }

  /** A metric no fetcher of the sequence owns holds as before the sequence ran. */
  lemma {:induction false} ApplyAllUnowned(s: Snapshot, fs: seq<Fetch>, g: Metric)
    requires forall i :: 0 <= i < |fs| ==> g !in fs[i].Owned()
    ensures Agree(ApplyAll(s, fs), s, g)
    decreases |fs|
  {
    if fs != [] {
      var s1, rest := Apply(s, fs[0]), fs[1..];
      ApplyFrame(s, fs[0]);
      assert forall i :: 0 <= i < |rest| ==> rest[i] == fs[i + 1];
      ApplyAllUnowned(s1, rest, g);
      assert ApplyAll(s, fs) == ApplyAll(s1, rest);
      AgreeFlip(s, s1, g);
      AgreeChain(ApplyAll(s1, rest), s1, s, g);
    }
  }

  /** In a sequence of fetchers with disjoint metrics, a metric reads after the whole sequence
      as after its owner alone. */
  lemma {:induction false} ApplyAllOwned(s: Snapshot, fs: seq<Fetch>, i: nat, g: Metric)
    requires PairwiseDisjoint(fs)
    requires i < |fs| && g in fs[i].Owned()
    ensures Agree(ApplyAll(s, fs), Apply(s, fs[i]), g)
    decreases |fs|
  {
    var rest := fs[1..];
    assert forall j :: 0 <= j < |rest| ==> rest[j] == fs[j + 1];
    var s1 := Apply(s, fs[0]);
    if i == 0 {
      ApplyAllUnowned(s1, rest, g);
    } else {
      ApplyAllOwned(s1, rest, i - 1, g);
      ApplyFrame(s, fs[0]);
      ApplyLocal(s, s1, fs[i]);
      AgreeFlip(Apply(s, fs[i]), Apply(s1, fs[i]), g);
      AgreeChain(ApplyAll(s1, rest), Apply(s1, fs[i]), Apply(s, fs[i]), g);
    }
  }

  /** A wave of fetchers with disjoint metrics has the same outcome in every order: the Go loop
      launches them as goroutines with no ordering, and any order of completion ends alike. */
  lemma WaveOrderIrrelevant(s: Snapshot, fs: seq<Fetch>, gs: seq<Fetch>)
    requires PairwiseDisjoint(fs) && PairwiseDisjoint(gs)
    requires forall f :: f in fs <==> f in gs
    ensures ApplyAll(s, fs) == ApplyAll(s, gs)
  {
    forall g ensures Agree(ApplyAll(s, fs), ApplyAll(s, gs), g) {
      if i :| 0 <= i < |fs| && g in fs[i].Owned() {
        assert fs[i] in gs;
        var j :| 0 <= j < |gs| && gs[j] == fs[i];
        ApplyAllOwned(s, fs, i, g);
        ApplyAllOwned(s, gs, j, g);
      } else {
        forall j | 0 <= j < |gs| ensures g !in gs[j].Owned() {
          assert gs[j] in fs;
        }
        ApplyAllUnowned(s, fs, g);
        ApplyAllUnowned(s, gs, g);
      }
    }
    AgreementDetermines(ApplyAll(s, fs), ApplyAll(s, gs));
  }

  /** Every metric has at most one owning fetcher in a wave. */
  lemma WaveDisjoint(c: ClientResults)
    ensures PairwiseDisjoint(Wave(c))
  {
    var w := Wave(c);
    forall i, j | 0 <= i < j < |w| ensures w[i].Owned() !! w[j].Owned() {
      forall g | g in w[i].Owned() ensures g !in w[j].Owned() {
        WaveSlotOwns(c, i, g);
        if g in w[j].Owned() {
          WaveSlotOwns(c, j, g);
        }
      }
    }
  }

  /** The position in a wave of the fetcher that writes `g`, or -1 for the slow loop's gauge. */
  function WaveSlot(g: Metric): int
  {
    match g
    case InstalledRancherVersion => 0
    case LatestRancherVersion => -1
    case ClusterConditionConnected => 1
    case ClusterConditionNotConnected => 1
    case ManagedClusterCount => 2
    case ManagedK3sClusterCount => 3
    case ManagedRKEClusterCount => 3
    case ManagedRKE2ClusterCount => 3
    case ManagedEKSClusterCount => 3
    case ManagedAKSClusterCount => 3
    case ManagedGKEClusterCount => 3
    case ManagedNodeCount => 4
    case DownstreamClusterVersion => 5
    case TokenCount => 6
    case UserCount => 7
    case ProjectCount => 8
    case ProjectLabels => 9
    case ProjectAnnotations => 10
    case ProjectResources => 11
    case RancherCustomResources => 12
  }

  /** Only the fetcher at a metric's slot of the wave writes it. */
  lemma WaveSlotOwns(c: ClientResults, i: int, g: Metric)
    requires 0 <= i < |Wave(c)| && g in Wave(c)[i].Owned()
    ensures WaveSlot(g) == i
  {
  }

  /** Running one more fetcher after a sequence is running the longer sequence. */
  lemma {:induction false} ApplyAllSnoc(s: Snapshot, fs: seq<Fetch>, i: nat)
    requires i < |fs|
    ensures ApplyAll(s, fs[..i + 1]) == Apply(ApplyAll(s, fs[..i]), fs[i])
    decreases i
  {
    if i > 0 {
      assert fs[..i + 1][1..] == fs[1..][..i];
      assert fs[..i][1..] == fs[1..][..i - 1];
      ApplyAllSnoc(Apply(s, fs[0]), fs[1..], i - 1);
    }
  }

  /** However the thirteen goroutines of a fast tick are scheduled, they leave the registry
      as the launch order does. */
  lemma FastTickAnyOrder(s: Snapshot, c: ClientResults, order: seq<Fetch>)
    requires multiset(order) == multiset(Wave(c))
    ensures ApplyAll(ResetGaugeVecMetrics(s), order) == FastTick(s, c)
  {
    WaveDisjoint(c);
    PermutationDisjoint(Wave(c), order);
    forall f ensures f in order <==> f in Wave(c) {
      assert f in order <==> f in multiset(order);
      assert f in Wave(c) <==> f in multiset(Wave(c));
    }
    WaveOrderIrrelevant(ResetGaugeVecMetrics(s), order, Wave(c));
  }

  /** Every fetcher owns at least one metric. */
  lemma OwnedNonempty(f: Fetch)
    ensures f.Owned() != {}
  {
    if f.FetchDistributions? {
      assert ManagedRKEClusterCount in f.Owned();
    }
  }

  /** An element at two positions of a sequence occurs at least twice in its multiset. */
  lemma TwiceCounted<T>(xs: seq<T>, i: int, j: int)
    requires 0 <= i < j < |xs| && xs[i] == xs[j]
    ensures multiset(xs)[xs[i]] >= 2
  {
    assert xs == xs[..i] + [xs[i]] + xs[i + 1..j] + [xs[j]] + xs[j + 1..];
  }

  /** A sequence without repeated elements counts each element at most once. */
  lemma {:induction false} OnceCounted<T>(xs: seq<T>, x: T)
    requires forall i, j :: 0 <= i < j < |xs| ==> xs[i] != xs[j]
    ensures multiset(xs)[x] <= 1
    decreases |xs|
  {
    if xs != [] {
      var rest := xs[1..];
      assert xs == [xs[0]] + rest;
      forall i, j | 0 <= i < j < |rest| ensures rest[i] != rest[j] {
        assert rest[i] == xs[i + 1] && rest[j] == xs[j + 1];
      }
      OnceCounted(rest, x);
      if x == xs[0] {
        forall k | 0 <= k < |rest| ensures rest[k] != x {
          assert rest[k] == xs[k + 1];
        }
        assert x !in rest;
      }
    }
  }

  /** Any reordering of a sequence of fetchers with disjoint metrics still has disjoint metrics. */
  lemma PermutationDisjoint(w: seq<Fetch>, order: seq<Fetch>)
    requires PairwiseDisjoint(w) && multiset(order) == multiset(w)
    ensures PairwiseDisjoint(order)
  {
    forall p, q | 0 <= p < q < |w| ensures w[p] != w[q] {
      OwnedNonempty(w[p]);
    }
    forall i, j | 0 <= i < j < |order| ensures order[i].Owned() !! order[j].Owned() {
      if order[i] == order[j] {
        TwiceCounted(order, i, j);
        OnceCounted(w, order[i]);
      } else {
        assert order[i] in multiset(w) && order[j] in multiset(w);
        var p :| 0 <= p < |w| && w[p] == order[i];
        var q :| 0 <= q < |w| && w[q] == order[j];
        assert p != q;
      }
    }
  }

  /** A metric of a fast tick holds as after its own fetcher alone, run on the reset registry. */
  lemma FastTickOwned(s: Snapshot, c: ClientResults, i: nat, g: Metric)
    requires i < |Wave(c)| && g in Wave(c)[i].Owned()
    ensures Agree(FastTick(s, c), Apply(ResetGaugeVecMetrics(s), Wave(c)[i]), g)
  {
    WaveDisjoint(c);
    ApplyAllOwned(ResetGaugeVecMetrics(s), Wave(c), i, g);
  }

  /** Laying the same children over a vector twice is laying them once. */
  lemma OverlayTwice<V>(v: map<LabelTuple, V>, a: map<LabelTuple, V>)
    ensures (v + a) + a == v + a
  {
  }

  /** Running a fetcher again with the same result changes nothing. */
  lemma FetcherIdempotent(s: Snapshot, f: Fetch)
    ensures Apply(Apply(s, f), f) == Apply(s, f)
  {
    match f
    case FetchConnectedState(r) =>
      var names := r.value.Keys;
      OverlayTwice(s.clusterConditionConnected, Flags(r.value, names, true));
      OverlayTwice(s.clusterConditionNotConnected, Flags(r.value, names, false));
    case FetchDownstreamVersions(r) =>
      AssignIdempotent(s.downstreamClusterVersion, r.value, VersionLabels, Present);
    case FetchProjectLabels(r) =>
      AssignIdempotent(s.projectLabels, r.value, PairLabels, Present);
    case FetchProjectAnnotations(r) =>
      AssignIdempotent(s.projectAnnotations, r.value, PairLabels, Present);
    case FetchProjectResources(r) =>
      AssignIdempotent(s.projectResources, r.value, QuotaLabels, QuotaAmount);
    case FetchCustomResources(r) =>
      if !r.failed {
        OverlayTwice(s.rancherCustomResources, ByName(r.value, r.value.Keys));
      }
    case _ =>
  }

  /** Every fetcher but the custom-resource one writes its value whatever the error report:
      a failed call leaves the value the client returned with the error. */
  lemma ErrorStillWrites(s: Snapshot, f: Fetch, failed: bool)
    requires !f.FetchCustomResources?
    ensures Apply(s, f.WithFailed(failed)) == Apply(s, f)
  {
    match f
    case FetchInstalledVersion(r) =>
    case FetchConnectedState(r) =>
    case FetchClusterCount(r) =>
    case FetchDistributions(r) =>
    case FetchNodeCount(r) =>
    case FetchDownstreamVersions(r) =>
    case FetchTokenCount(r) =>
    case FetchUserCount(r) =>
    case FetchProjectCount(r) =>
    case FetchProjectLabels(r) =>
    case FetchProjectAnnotations(r) =>
    case FetchProjectResources(r) =>
  }

  /** The custom-resource fetcher returns before writing when its call fails. */
  lemma CustomErrorWritesNothing(s: Snapshot, f: Fetch)
    requires f.FetchCustomResources? && f.Failed()
    ensures Apply(s, f) == s
  {
  }
}
