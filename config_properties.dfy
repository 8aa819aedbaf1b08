/** Properties of the cluster-list operations of cli/config/config.go, stated
    over the functions that specify the `Config` methods. */
module ConfigProperties {
  import opened Wrappers
  import opened Clusters
  import opened CliConfig

  /** Without any conflicting entry, Add succeeds and appends `s` after the
      unchanged existing entries. */
  lemma AddWithoutConflictAppends(cs: seq<Cluster>, s: Cluster, force: bool)
    requires forall k :: 0 <= k < |cs| ==> !Conflicts(cs[k], s)
    ensures AddResult(cs, s, force) == AddOutcome(None, cs + [s])
  {
  }

  /** A single conflicting entry without `force`: Add fails and the list stays as it
      was. The error is the switch's kind for that entry when it is the last entry,
      and "multiple conflicts" otherwise, because the stale message trips the check
      on the next entry. */
  lemma AddSingleConflictRejected(cs: seq<Cluster>, s: Cluster, j: nat)
    requires j < |cs| && Conflicts(cs[j], s)
    requires forall k :: 0 <= k < |cs| && k != j ==> !Conflicts(cs[k], s)
    ensures AddResult(cs, s, false).clusters == cs
    ensures AddResult(cs, s, false).err ==
      if j == |cs| - 1 then ConflictKind(cs[j], s) else Some(MultipleConflicts)
  {
    assert FirstConflict(cs, s) == Some(j);
  }

  /** A single conflicting entry with `force`: when it is the last entry it is
      replaced by `s` (the list keeps its length and the other entries their order);
      when any entry follows it, Add fails with "multiple conflicts" instead. */
  lemma AddSingleConflictForced(cs: seq<Cluster>, s: Cluster, j: nat)
    requires j < |cs| && Conflicts(cs[j], s)
    requires forall k :: 0 <= k < |cs| && k != j ==> !Conflicts(cs[k], s)
    ensures j == |cs| - 1 ==>
      AddResult(cs, s, true) == AddOutcome(None, cs[..j] + cs[j + 1..] + [s])
      && |AddResult(cs, s, true).clusters| == |cs|
    ensures j < |cs| - 1 ==> AddResult(cs, s, true) == AddOutcome(Some(MultipleConflicts), cs)
  {
    assert FirstConflict(cs, s) == Some(j);
  }

  /** Once an entry conflicts, any entry after it makes Add report multiple
      conflicts, forced or not, and leave the list unchanged. */
  lemma AddLaterEntryReportsMultiple(cs: seq<Cluster>, s: Cluster, force: bool, j: nat, i: nat)
    requires j < i < |cs| && Conflicts(cs[j], s)
    ensures AddResult(cs, s, force) == AddOutcome(Some(MultipleConflicts), cs)
  {
    assert FirstConflict(cs, s).Some? && FirstConflict(cs, s).value <= j;
  }

  /** Add keeps a list of pairwise non-conflicting entries free of conflicts. */
  lemma AddKeepsConflictFree(cs: seq<Cluster>, s: Cluster, force: bool)
    requires ConflictFree(cs)
    ensures ConflictFree(AddResult(cs, s, force).clusters)
  {
    var r := AddResult(cs, s, force);
    match FirstConflict(cs, s)
    case None =>
      assert r.clusters == cs + [s];
    case Some(j) =>
      if r.err.None? {
        assert j == |cs| - 1;
        assert r.clusters == cs[..j] + [s];
        forall a, b | 0 <= a < b < |r.clusters|
          ensures !Conflicts(r.clusters[a], r.clusters[b])
        {
          if b < j {
            assert r.clusters[a] == cs[a] && r.clusters[b] == cs[b];
          } else {
            assert r.clusters[a] == cs[a] && r.clusters[b] == s;
          }
        }
      }
  }

  /** Remove takes out exactly the first entry called `name` and keeps the others
      in order. */
  lemma RemoveFirstMatch(cs: seq<Cluster>, name: string, i: nat)
    requires i < |cs| && cs[i].name == name
    requires forall k :: 0 <= k < i ==> cs[k].name != name
    ensures RemoveResult(cs, name) == RemoveOutcome(Some(cs[i]), cs[..i] + cs[i + 1..])
  {
    assert IndexOfName(cs, name) == Some(i);
  }

  /** Remove keeps a list of pairwise non-conflicting entries free of conflicts. */
  lemma RemoveKeepsConflictFree(cs: seq<Cluster>, name: string)
    requires ConflictFree(cs)
    ensures ConflictFree(RemoveResult(cs, name).clusters)
  {
    match IndexOfName(cs, name)
    case None =>
    case Some(i) =>
      var rest := RemoveResult(cs, name).clusters;
      assert rest == cs[..i] + cs[i + 1..];
      forall a, b | 0 <= a < b < |rest|
        ensures !Conflicts(rest[a], rest[b])
      {
        var a', b' := if a < i then a else a + 1, if b < i then b else b + 1;
        assert rest[a] == cs[a'] && rest[b] == cs[b'];
      }
  }

  /** Upgrade reports a change exactly when it changes the list. */
  lemma UpgradeChangedIffDifferent(cs: seq<Cluster>)
    ensures HasLegacy(cs) <==> UpgradedAll(cs) != cs
  {
    var r := UpgradedAll(cs);
    if HasLegacy(cs) {
      var k :| 0 <= k < |cs| && NeedsUpgrade(cs[k]);
      assert r[k] == Upgraded(cs[k]) != cs[k];
    } else {
      assert forall k :: 0 <= k < |cs| ==> r[k] == cs[k];
    }
  }

  /** A second Upgrade reports no change and leaves the list as the first left it. */
  lemma UpgradeIdempotent(cs: seq<Cluster>)
    ensures !HasLegacy(UpgradedAll(cs))
    ensures UpgradedAll(UpgradedAll(cs)) == UpgradedAll(cs)
  {
    UpgradeChangedIffDifferent(UpgradedAll(cs));
  }
}
