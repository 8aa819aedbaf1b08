/** One entry of the CLI's cluster list (cli/config/config.go) and the
    per-entry rules that the list operations apply. */
module Clusters {
  import opened Wrappers

  /** A configured cluster. `gitHost` and `url` are legacy options for git over
      SSH; `domain` is a legacy option replaced by `controllerURL` and `gitURL`. */
  datatype Cluster = Cluster(
    name: string,
    key: string,
    tlsPin: string,
    controllerURL: string,
    gitURL: string,
    gitHost: string,
    url: string,
    domain: string)
  {
    /** The cluster is reached with git over SSH. The legacy upgrade never
        switches a cluster to or from git over SSH. */
    predicate SSHGit(): (ssh: bool)
      ensures ssh == (Upgraded(this).gitHost != "")
    {
      gitHost != ""
    }
  }

  /** Why adding a cluster was refused; each carries the value named in the CLI's message. */
  datatype AddError =
    | NameExists(name: string)
    | GitURLExists(gitURL: string)
    | ControllerURLExists(controllerURL: string)
    | GitHostExists(gitHost: string)
    | MultipleConflicts

  /** `existing` clashes with the new entry `s`: same name, same non-empty git URL,
      same controller URL (an empty one included) or same non-empty git host. The
      relation is symmetric, and every entry clashes with itself. */
  predicate Conflicts(existing: Cluster, s: Cluster): (clash: bool)
    ensures clash <==>
      || s.name == existing.name
      || (s.gitURL != "" && s.gitURL == existing.gitURL)
      || s.controllerURL == existing.controllerURL
      || (s.gitHost != "" && s.gitHost == existing.gitHost)
    ensures existing == s ==> clash
  {
    || existing.name == s.name
    || (existing.gitURL != "" && existing.gitURL == s.gitURL)
    || existing.controllerURL == s.controllerURL
    || (existing.gitHost != "" && existing.gitHost == s.gitHost)
  }

  /** The error the `switch` in Add records for one existing entry: the cases are
      tried in order name, git URL, controller URL, git host, and the first one that
      matches decides the message. */
  function ConflictKind(existing: Cluster, s: Cluster): (k: Option<AddError>)
    ensures k.Some? <==> Conflicts(existing, s)
    ensures k != Some(MultipleConflicts)
    ensures existing.name == s.name ==> k == Some(NameExists(s.name))
    ensures existing.name != s.name && existing.gitURL != "" && existing.gitURL == s.gitURL ==>
      k == Some(GitURLExists(s.gitURL))
    ensures (existing.name != s.name && !(existing.gitURL != "" && existing.gitURL == s.gitURL)
             && existing.controllerURL == s.controllerURL) ==>
      k == Some(ControllerURLExists(s.controllerURL))
    ensures (existing.name != s.name && !(existing.gitURL != "" && existing.gitURL == s.gitURL)
             && existing.controllerURL != s.controllerURL
             && existing.gitHost != "" && existing.gitHost == s.gitHost) ==>
      k == Some(GitHostExists(s.gitHost))
  {
    if existing.name == s.name then
      Some(NameExists(s.name))
    else if existing.gitURL != "" && existing.gitURL == s.gitURL then
      Some(GitURLExists(s.gitURL))
    else if existing.controllerURL == s.controllerURL then
      Some(ControllerURLExists(s.controllerURL))
    else if existing.gitHost != "" && existing.gitHost == s.gitHost then
      Some(GitHostExists(s.gitHost))
    else
      None
  }

  /** The entry still carries a legacy `url` or `domain` option. */
  predicate NeedsUpgrade(c: Cluster) {
    c.url != "" || c.domain != ""
  }

  /** The entry after one pass of Upgrade's loop body: `url` moves into
      `controllerURL`, then `domain` (if set) overrides it and also sets `gitURL`. */
  function Upgraded(c: Cluster): (u: Cluster)
    ensures !NeedsUpgrade(u)
    ensures u.name == c.name && u.key == c.key && u.tlsPin == c.tlsPin && u.gitHost == c.gitHost
    ensures c.domain != "" ==>
      u.controllerURL == "https://controller." + c.domain && u.gitURL == "https://git." + c.domain
    ensures c.domain == "" && c.url != "" ==> u.controllerURL == c.url && u.gitURL == c.gitURL
    ensures !NeedsUpgrade(c) ==> u == c
    ensures NeedsUpgrade(c) ==> u != c
  {
    var moved := if c.url != "" then c.(controllerURL := c.url, url := "") else c;
    if moved.domain != "" then
      moved.(controllerURL := "https://controller." + moved.domain,
             gitURL := "https://git." + moved.domain,
             domain := "")
    else
      moved
  }

  /** Upgrading an upgraded entry changes nothing. */
  lemma UpgradedIdempotent(c: Cluster)
    ensures Upgraded(Upgraded(c)) == Upgraded(c)
  {
  }
}
