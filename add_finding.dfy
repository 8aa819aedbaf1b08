/** Add's conflict check as its `conflictIdx` bookkeeping evidently intends: the
    message is looked at per entry, so "multiple conflicts" means that two
    distinct entries conflict with the new one. `CliConfig.Config.Add` keeps the
    behaviour as written in cli/config/config.go; this module records the gap. */
module AddFinding {
  import opened Wrappers
  import opened Clusters
  import opened CliConfig
  import opened ConfigProperties

  /** Add with the conflict message considered per entry. */
  function AddIntended(cs: seq<Cluster>, s: Cluster, force: bool): (r: AddOutcome)
    ensures r.err.None? ==> |r.clusters| > 0 && r.clusters[|r.clusters| - 1] == s
    ensures r.err.Some? ==> r.clusters == cs
    ensures r.err == Some(MultipleConflicts) ==>
      exists a, b :: 0 <= a < b < |cs| && Conflicts(cs[a], s) && Conflicts(cs[b], s)
  {
    match FirstConflict(cs, s)
    case None => AddOutcome(None, cs + [s])
    case Some(j) =>
      match FirstConflict(cs[j + 1..], s)
      case Some(d) =>
        assert cs[j + 1..][d] == cs[j + 1 + d];
        AddOutcome(Some(MultipleConflicts), cs)
      case None =>
        if !force then AddOutcome(ConflictKind(cs[j], s), cs)
        else AddOutcome(None, cs[..j] + cs[j + 1..] + [s])
  }

  /** The intended property: with exactly one conflicting entry, Add reports that
      entry's conflict or, when forced, replaces it wherever it stands. */
  lemma AddIntendedSingleConflict(cs: seq<Cluster>, s: Cluster, force: bool, j: nat)
    requires j < |cs| && Conflicts(cs[j], s)
    requires forall k :: 0 <= k < |cs| && k != j ==> !Conflicts(cs[k], s)
    ensures AddIntended(cs, s, force) ==
      if force then AddOutcome(None, cs[..j] + cs[j + 1..] + [s])
      else AddOutcome(ConflictKind(cs[j], s), cs)
  {
    assert FirstConflict(cs, s) == Some(j);
    var tail := cs[j + 1..];
    assert forall d :: 0 <= d < |tail| ==> tail[d] == cs[j + 1 + d];
    assert FirstConflict(tail, s).None?;
  }

  /** Two distinct conflicting entries make the intended Add report multiple
      conflicts, forced or not. */
  lemma AddIntendedTwoConflicts(cs: seq<Cluster>, s: Cluster, force: bool, a: nat, b: nat)
    requires a < b < |cs| && Conflicts(cs[a], s) && Conflicts(cs[b], s)
    ensures AddIntended(cs, s, force) == AddOutcome(Some(MultipleConflicts), cs)
  {
    var j := FirstConflict(cs, s).value;
    assert j <= a;
    assert cs[j + 1..][b - j - 1] == cs[b];
  }

  /** The intended Add and the Add as written agree whenever there is no conflict
      or the first conflict is on the last entry. */
  lemma AddIntendedAgreesOnLastConflict(cs: seq<Cluster>, s: Cluster, force: bool)
    requires FirstConflict(cs, s).None? || FirstConflict(cs, s).value == |cs| - 1
    ensures AddIntended(cs, s, force) == AddResult(cs, s, force)
  {
  }

  /** The input that shows the stale message: the new cluster shares only its name
      with the first of two entries, yet Add as written reports multiple
      conflicts, forced or not, where one replacement was intended. */
  lemma AddStaleMessageCounterexample()
    ensures var first := Cluster("prod", "k1", "", "https://controller.one", "", "", "", "");
            var second := Cluster("dev", "k2", "", "https://controller.two", "", "", "", "");
            var s := Cluster("prod", "k3", "", "https://controller.three", "", "", "", "");
            && AddResult([first, second], s, true) == AddOutcome(Some(MultipleConflicts), [first, second])
            && AddResult([first, second], s, false) == AddOutcome(Some(MultipleConflicts), [first, second])
            && AddIntended([first, second], s, true) == AddOutcome(None, [second, s])
            && AddIntended([first, second], s, false) == AddOutcome(Some(NameExists("prod")), [first, second])
  {
    var first := Cluster("prod", "k1", "", "https://controller.one", "", "", "", "");
    var second := Cluster("dev", "k2", "", "https://controller.two", "", "", "", "");
    var s := Cluster("prod", "k3", "", "https://controller.three", "", "", "", "");
    var cs := [first, second];
    assert !Conflicts(second, s);
    AddLaterEntryReportsMultiple(cs, s, true, 0, 1);
    AddLaterEntryReportsMultiple(cs, s, false, 0, 1);
    AddIntendedSingleConflict(cs, s, true, 0);
    AddIntendedSingleConflict(cs, s, false, 0);
  }
}
