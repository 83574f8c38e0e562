/** Fetchers run in any order, including two overlapping waves: every scalar gauge ends with
    the value of one single writer, never a mixture. A scalar is written by one `Set` call,
    so a whole fetcher as one step loses no interleaving of these writes. */
module Interleaving {
  import opened GaugeVec
  import opened Registry
  import opened Properties

  /** The value of the scalar gauge `g`. */
  function ScalarOf(s: Snapshot, g: Metric): int
    requires g in ScalarMetrics
  {
    match g
    case ManagedClusterCount => s.managedClusterCount
    case ManagedK3sClusterCount => s.managedK3sClusterCount
    case ManagedRKEClusterCount => s.managedRKEClusterCount
    case ManagedRKE2ClusterCount => s.managedRKE2ClusterCount
    case ManagedEKSClusterCount => s.managedEKSClusterCount
    case ManagedAKSClusterCount => s.managedAKSClusterCount
    case ManagedGKEClusterCount => s.managedGKEClusterCount
    case ManagedNodeCount => s.managedNodeCount
    case TokenCount => s.tokenCount
    case UserCount => s.userCount
    case ProjectCount => s.projectCount
    case _ => 0
  }

  /** The value the wave of results `c` sets the scalar gauge `g` to. */
  function WaveValue(c: ClientResults, g: Metric): int
    requires g in ScalarMetrics
  {
    var d := c.distributions.value;
    match g
    case ManagedClusterCount => c.clusters.value
    case ManagedK3sClusterCount => CountFor(d, "k3s")
    case ManagedRKEClusterCount => CountFor(d, "rke")
    case ManagedRKE2ClusterCount => CountFor(d, "rke2")
    case ManagedEKSClusterCount => CountFor(d, "eks")
    case ManagedAKSClusterCount => CountFor(d, "aks")
    case ManagedGKEClusterCount => CountFor(d, "gke")
    case ManagedNodeCount => c.nodes.value
    case TokenCount => c.tokens.value
    case UserCount => c.users.value
    case ProjectCount => c.projects.value
    case _ => 0
  }

  /** The position of the last fetcher of `fs` that writes `g`, or -1 when none does. */
  function LastOwner(fs: seq<Fetch>, g: Metric): (i: int)
    ensures -1 <= i < |fs|
    ensures 0 <= i ==> g in fs[i].Owned()
    ensures forall j :: i < j < |fs| ==> g !in fs[j].Owned()
    decreases |fs|
  {
    if fs == [] then -1
    else
      assert forall j :: 0 <= j < |fs| - 1 ==> fs[1..][j] == fs[j + 1];
      var r := LastOwner(fs[1..], g);
      if r >= 0 then r + 1 else if g in fs[0].Owned() then 0 else -1
  }

  /** A fetcher that writes a scalar gauge overwrites it: what it writes depends on nothing
      in the registry. */
  lemma ScalarOwnerReadsNothing(f: Fetch, g: Metric)
    requires g in ScalarMetrics && g in f.Owned()
    ensures f.Reads() == {}
  {
  }

  /** A fetcher that writes a scalar gauge sets it alike on any two registries. */
  lemma ScalarWriteIndependent(s: Snapshot, u: Snapshot, f: Fetch, g: Metric)
    requires g in ScalarMetrics && g in f.Owned()
    ensures Agree(Apply(u, f), Apply(s, f), g)
  {
    ScalarOwnerReadsNothing(f, g);
    ApplyLocal(u, s, f);
  }

  /** Whatever the order and however many fetchers write it, a scalar gauge ends as the last
      of them leaves it when run alone, or as it was when none writes it. */
  lemma {:induction false} ScalarLastWriterWins(s: Snapshot, fs: seq<Fetch>, g: Metric)
    requires g in ScalarMetrics
    ensures LastOwner(fs, g) < 0 ==> Agree(ApplyAll(s, fs), s, g)
    ensures 0 <= LastOwner(fs, g) ==> Agree(ApplyAll(s, fs), Apply(s, fs[LastOwner(fs, g)]), g)
    decreases |fs|
  {
    if fs != [] {
      var s1, rest := Apply(s, fs[0]), fs[1..];
      assert ApplyAll(s, fs) == ApplyAll(s1, rest);
      ScalarLastWriterWins(s1, rest, g);
      var j := LastOwner(rest, g);
      if j >= 0 {
        assert rest[j] == fs[j + 1];
        ScalarWriteIndependent(s, s1, rest[j], g);
        AgreeChain(ApplyAll(s1, rest), Apply(s1, rest[j]), Apply(s, rest[j]), g);
      } else if g !in fs[0].Owned() {
        ApplyFrame(s, fs[0]);
        AgreeFlip(s, s1, g);
        AgreeChain(ApplyAll(s1, rest), s1, s, g);
      }
    }
  }

  /** A scalar fetcher of the wave `c` carries the wave's own result. */
  lemma WaveScalarFetcher(c: ClientResults, f: Fetch)
    requires f in Wave(c)
    ensures f.FetchClusterCount? ==> f.clusters == c.clusters
    ensures f.FetchDistributions? ==> f.distributions == c.distributions
    ensures f.FetchNodeCount? ==> f.nodes == c.nodes
    ensures f.FetchTokenCount? ==> f.tokens == c.tokens
    ensures f.FetchUserCount? ==> f.users == c.users
    ensures f.FetchProjectCount? ==> f.projects == c.projects
  {
  }

  /** The distribution fetcher of the wave `c` sets each of its six gauges to the wave's value. */
  lemma DistributionWriterValue(s: Snapshot, c: ClientResults, g: Metric)
    requires g in DistributionGauges
    ensures ScalarOf(GetDistributions(s, c.distributions), g) == WaveValue(c, g)
  {
  }

  /** A count fetcher of the wave `c` sets its gauge to the wave's value. */
  lemma CountWriterValue(s: Snapshot, c: ClientResults, f: Fetch, g: Metric)
    requires g in ScalarMetrics && g in f.Owned() && f in Wave(c) && !f.FetchDistributions?
    ensures ScalarOf(Apply(s, f), g) == WaveValue(c, g)
  {
    WaveScalarFetcher(c, f);
    if f.FetchClusterCount? {
      assert g == ManagedClusterCount;
    } else if f.FetchNodeCount? {
      assert g == ManagedNodeCount;
    } else if f.FetchTokenCount? {
      assert g == TokenCount;
    } else if f.FetchUserCount? {
      assert g == UserCount;
    } else {
      assert f.FetchProjectCount? && g == ProjectCount;
    }
  }

  /** A fetcher of the wave `c` that writes a scalar gauge sets it to the wave's value. */
  lemma WaveWriterValue(s: Snapshot, c: ClientResults, f: Fetch, g: Metric)
    requires g in ScalarMetrics && g in f.Owned() && f in Wave(c)
    ensures ScalarOf(Apply(s, f), g) == WaveValue(c, g)
  {
    if f.FetchDistributions? {
      WaveScalarFetcher(c, f);
      DistributionWriterValue(s, c, g);
    } else {
      CountWriterValue(s, c, f, g);
    }
  }

  /** Two fast waves `c1` and `c2` whose fetchers run in any interleaving `fs` leave every
      scalar gauge at its earlier value or at the value one of the two waves fetched. */
  lemma TwoWavesNoTornScalars(s: Snapshot, c1: ClientResults, c2: ClientResults, fs: seq<Fetch>, g: Metric)
    requires g in ScalarMetrics
    requires forall f :: f in fs ==> f in Wave(c1) || f in Wave(c2)
    ensures ScalarOf(ApplyAll(s, fs), g) in {ScalarOf(s, g), WaveValue(c1, g), WaveValue(c2, g)}
  {
    ScalarLastWriterWins(s, fs, g);
    var i := LastOwner(fs, g);
    if 0 <= i {
      var f := fs[i];
      if f in Wave(c1) {
        WaveWriterValue(s, c1, f, g);
      } else {
        WaveWriterValue(s, c2, f, g);
      }
    }
  }
}
