/** Concrete runs of the fetchers. */
module Scenarios {
  import opened GaugeVec
  import opened Registry
  import opened Ticks

  /** A distribution breakdown `{rke: 2, rke2: 5, k3s: 0}` sets rke to 2, rke2 to 5 and every
      other distribution gauge to 0, and leaves the total cluster count alone. */
  lemma DistributionBreakdown(s: Snapshot)
    ensures var t := GetDistributions(s, Fetched(map["rke" := 2, "rke2" := 5, "k3s" := 0], false));
            && t.managedRKEClusterCount == 2 && t.managedRKE2ClusterCount == 5
            && t.managedK3sClusterCount == 0 && t.managedEKSClusterCount == 0
            && t.managedAKSClusterCount == 0 && t.managedGKEClusterCount == 0
            && t.managedClusterCount == s.managedClusterCount
  {
    var d := map["rke" := 2, "rke2" := 5, "k3s" := 0];
    assert "eks" !in d && "aks" !in d && "gke" !in d;
  }

  /** After a reset, connectivity `{a: true, b: false}` for two distinct clusters flags `a`
      connected and `b` not connected, with the opposite side at 0 and no other child. */
  lemma TwoClusterConnectivity(s: Snapshot, a: string, b: string)
    requires a != b
    ensures var t := GetClusterConnectedState(ResetGaugeVecMetrics(s), Fetched(map[a := true, b := false], false));
            && t.clusterConditionConnected == map[[a] := 1, [b] := 0]
            && t.clusterConditionNotConnected == map[[a] := 0, [b] := 1]
  {
    var state := map[a := true, b := false];
    var r := ResetGaugeVecMetrics(s);
    var t := GetClusterConnectedState(r, Fetched(state, false));
    FlaggedTwo(t.clusterConditionConnected, a, b, true);
    FlaggedTwo(t.clusterConditionNotConnected, a, b, false);
  }

  /** Writing side `side` of `{a: true, b: false}` over an empty vector gives exactly the two
      children `[a]` and `[b]`. */
  lemma FlaggedTwo(w: map<LabelTuple, int>, a: string, b: string, side: bool)
    requires a != b && Flagged(map[], w, map[a := true, b := false], side)
    ensures w == map[[a] := if side then 1 else 0, [b] := if side then 0 else 1]
  {
    var state := map[a := true, b := false];
    assert Singletons(state.Keys) == {[a], [b]} by {
      assert [a] in Singletons(state.Keys) && [b] in Singletons(state.Keys);
      forall k | k in Singletons(state.Keys) ensures k == [a] || k == [b] {
        var n :| n in state.Keys && k == [n];
      }
    }
    var e := map[[a] := if side then 1 else 0, [b] := if side then 0 else 1];
    assert Flagged(map[], e, state, side);
    FlaggedUnique(map[], w, e, state, side);
  }

  /** A project-label list that comes back empty, after an earlier tick wrote three labels,
      leaves the label vector without children once the next tick has run. */
  lemma LabelsDropToNone(s: Snapshot, c1: ClientResults, c2: ClientResults, p1: ProjectPair, p2: ProjectPair, p3: ProjectPair)
    requires c1.projectLabels.value == [p1, p2, p3] && c2.projectLabels.value == []
    ensures |FastTick(s, c1).projectLabels| <= 3
    ensures FastTick(FastTick(s, c1), c2).projectLabels == map[]
  {
    FastTickRepopulates(s, c1);
    var ks := KeysOf(c1.projectLabels.value, PairLabels);
    assert ks <= {PairLabels(p1), PairLabels(p2), PairLabels(p3)};
    SubsetCard(ks, {PairLabels(p1), PairLabels(p2), PairLabels(p3)});
    EmptyLabelsClearStale(FastTick(s, c1), c2);
  }

  lemma SubsetCard<T>(a: set<T>, b: set<T>)
    requires a <= b
    ensures |a| <= |b|
  {
    assert b == a + (b - a);
  }

  /** A node count whose call fails writes the value the failed call returned, whatever it is,
      and the next successful call with 42 writes 42. */
  lemma NodeCountRecovers(s: Snapshot, zero: int)
    ensures GetNumberOfNodes(s, Fetched(zero, true)).managedNodeCount == zero
    ensures GetNumberOfNodes(GetNumberOfNodes(s, Fetched(zero, true)), Fetched(42, false)).managedNodeCount == 42
  {
  }
}
