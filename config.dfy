/** The CLI's cluster configuration (cli/config/config.go): a default cluster
    name and an ordered list of clusters, with the operations that change them. */
module CliConfig {
  import opened Wrappers
  import opened Clusters

  /** Index of the first entry of `cs` that conflicts with `s`. */
  function FirstConflict(cs: seq<Cluster>, s: Cluster): (r: Option<nat>)
    ensures r.Some? ==> r.value < |cs| && Conflicts(cs[r.value], s)
    ensures r.Some? ==> forall k :: 0 <= k < r.value ==> !Conflicts(cs[k], s)
    ensures r.None? <==> forall k :: 0 <= k < |cs| ==> !Conflicts(cs[k], s)
  {
    if cs == [] then None
    else if Conflicts(cs[0], s) then Some(0)
    else
      match FirstConflict(cs[1..], s)
      case None => None
      case Some(j) => Some(j + 1)
  }

  /** Index of the first entry of `cs` called `name`. */
  function IndexOfName(cs: seq<Cluster>, name: string): (r: Option<nat>)
    ensures r.Some? ==> r.value < |cs| && cs[r.value].name == name
    ensures r.Some? ==> forall k :: 0 <= k < r.value ==> cs[k].name != name
    ensures r.None? <==> forall k :: 0 <= k < |cs| ==> cs[k].name != name
  {
    if cs == [] then None
    else if cs[0].name == name then Some(0)
    else
      match IndexOfName(cs[1..], name)
      case None => None
      case Some(j) => Some(j + 1)
  }

  /** What Add returns (nil error or the error) and the list it leaves behind. */
  datatype AddOutcome = AddOutcome(err: Option<AddError>, clusters: seq<Cluster>)

  /** Add as the CLI writes it. The message found for the first conflicting entry
      is never cleared, so any entry after it makes the loop report multiple
      conflicts; a conflict on the last entry alone is reported, or replaced when
      forced. Every call either appends `s` or leaves the list as it was. */
  function AddResult(cs: seq<Cluster>, s: Cluster, force: bool): (r: AddOutcome)
    ensures r.err.None? ==> |r.clusters| > 0 && r.clusters[|r.clusters| - 1] == s
    ensures r.err.None? ==> |cs| <= |r.clusters| <= |cs| + 1
    ensures r.err.Some? ==> r.clusters == cs
    ensures r.err.Some? <==> FirstConflict(cs, s).Some? && (!force || FirstConflict(cs, s).value + 1 < |cs|)
  {
    match FirstConflict(cs, s)
    case None => AddOutcome(None, cs + [s])
    case Some(j) =>
      if j + 1 < |cs| then AddOutcome(Some(MultipleConflicts), cs)
      else if !force then AddOutcome(ConflictKind(cs[j], s), cs)
      else AddOutcome(None, cs[..j] + cs[j + 1..] + [s])
  }

  /** What Remove returns and the list it leaves behind. */
  datatype RemoveOutcome = RemoveOutcome(removed: Option<Cluster>, clusters: seq<Cluster>)

  /** Remove: the first entry called `name` is taken out and returned; the others
      keep their order. Without such an entry nothing changes. */
  function RemoveResult(cs: seq<Cluster>, name: string): (r: RemoveOutcome)
    ensures r.removed.Some? <==> exists k :: 0 <= k < |cs| && cs[k].name == name
    ensures r.removed.Some? ==> r.removed.value.name == name && |r.clusters| == |cs| - 1
    ensures r.removed.Some? ==> multiset(r.clusters) + multiset{r.removed.value} == multiset(cs)
    ensures r.removed.None? ==> r.clusters == cs
  {
    match IndexOfName(cs, name)
    case None => RemoveOutcome(None, cs)
    case Some(i) =>
      assert cs == cs[..i] + [cs[i]] + cs[i + 1..];
      RemoveOutcome(Some(cs[i]), cs[..i] + cs[i + 1..])
  }

  /** Some entry still carries a legacy `url` or `domain` option. */
  predicate HasLegacy(cs: seq<Cluster>) {
    exists k :: 0 <= k < |cs| && NeedsUpgrade(cs[k])
  }

  /** Every entry upgraded in place, in the same order. */
  function UpgradedAll(cs: seq<Cluster>): (r: seq<Cluster>)
    ensures |r| == |cs|
    ensures forall k :: 0 <= k < |r| ==>
      r[k].name == cs[k].name && r[k].key == cs[k].key && r[k].tlsPin == cs[k].tlsPin
      && r[k].gitHost == cs[k].gitHost && r[k].url == "" && r[k].domain == ""
    ensures !HasLegacy(r)
  {
    seq(|cs|, k requires 0 <= k < |cs| => Upgraded(cs[k]))
  }

  /** The entries of `cs` pairwise do not conflict: no later entry could have been
      added next to an earlier one without a conflict. */
  predicate ConflictFree(cs: seq<Cluster>) {
    forall i, j :: 0 <= i < j < |cs| ==> !Conflicts(cs[i], cs[j])
  }

  /** The configuration file's contents. */
  class Config {
    var defaultName: string
    var clusters: seq<Cluster>

    constructor (defaultName: string, clusters: seq<Cluster>)
      ensures this.defaultName == defaultName && this.clusters == clusters
    {
      this.defaultName := defaultName;
      this.clusters := clusters;
    }

    /** Adds `s`, refusing a conflicting entry unless `force` (then the conflicting
        entry is dropped first). */
    method Add(s: Cluster, force: bool) returns (err: Option<AddError>)
      modifies this
      ensures AddOutcome(err, clusters) == AddResult(old(clusters), s, force)
      ensures defaultName == old(defaultName)
    {
      var msg: Option<AddError> := None;
      var conflictIdx := -1;
      var i := 0;
      while i < |clusters|
        invariant 0 <= i <= |clusters|
        invariant clusters == old(clusters) && defaultName == old(defaultName)
        invariant msg.None? <==> conflictIdx == -1
        invariant msg.None? ==> forall k :: 0 <= k < i ==> !Conflicts(clusters[k], s)
        invariant msg.Some? ==>
          conflictIdx == i - 1 && FirstConflict(clusters, s) == Some(i - 1)
          && msg == ConflictKind(clusters[i - 1], s)
      {
        var kind := ConflictKind(clusters[i], s);
        if kind.Some? {
          msg := kind;
        }
        if msg.Some? {
          if conflictIdx != -1 && conflictIdx != i {
            return Some(MultipleConflicts);
          }
          conflictIdx := i;
        }
        i := i + 1;
      }
      if msg.Some? {
        if !force {
          return msg;
        }
        clusters := clusters[..conflictIdx] + clusters[conflictIdx + 1..];
      }
      clusters := clusters + [s];
      err := None;
    }

    /** Moves the legacy `url` and `domain` options of every entry into
        `controllerURL` and `gitURL`; reports whether any entry had one. */
    method Upgrade() returns (changed: bool)
      modifies this
      ensures clusters == UpgradedAll(old(clusters))
      ensures changed == HasLegacy(old(clusters))
      ensures defaultName == old(defaultName)
    {
      changed := false;
      var i := 0;
      while i < |clusters|
        invariant 0 <= i <= |clusters| == |old(clusters)|
        invariant forall k :: 0 <= k < i ==> clusters[k] == Upgraded(old(clusters)[k])
        invariant forall k :: i <= k < |clusters| ==> clusters[k] == old(clusters)[k]
        invariant changed <==> exists k :: 0 <= k < i && NeedsUpgrade(old(clusters)[k])
        invariant defaultName == old(defaultName)
      {
        var cluster := clusters[i];
        if cluster.url != "" {
          cluster := cluster.(controllerURL := cluster.url, url := "");
          changed := true;
        }
        if cluster.domain != "" {
          cluster := cluster.(controllerURL := "https://controller." + cluster.domain,
                              gitURL := "https://git." + cluster.domain,
                              domain := "");
          changed := true;
        }
        clusters := clusters[i := cluster];
        i := i + 1;
      }
    }

    /** Removes and returns the first entry called `name`, if any. */
    method Remove(name: string) returns (removed: Option<Cluster>)
      modifies this
      ensures RemoveOutcome(removed, clusters) == RemoveResult(old(clusters), name)
      ensures defaultName == old(defaultName)
    {
      var i := 0;
      while i < |clusters|
        invariant 0 <= i <= |clusters|
        invariant clusters == old(clusters) && defaultName == old(defaultName)
        invariant forall k :: 0 <= k < i ==> clusters[k].name != name
      {
        var s := clusters[i];
        if s.name != name {
          i := i + 1;
          continue;
        }
        clusters := clusters[..i] + clusters[i + 1..];
        return Some(s);
      }
      return None;
    }

    /** Makes `name` the default cluster when some entry has that name. */
    method SetDefault(name: string) returns (found: bool)
      modifies this`defaultName
      ensures found <==> exists k :: 0 <= k < |clusters| && clusters[k].name == name
      ensures defaultName == if found then name else old(defaultName)
    {
      var i := 0;
      while i < |clusters|
        invariant 0 <= i <= |clusters|
        invariant defaultName == old(defaultName)
        invariant forall k :: 0 <= k < i ==> clusters[k].name != name
      {
        if clusters[i].name != name {
          i := i + 1;
          continue;
        }
        defaultName := name;
        assert clusters[i].name == name;
        return true;
      }
      return false;
    }
  }
}
