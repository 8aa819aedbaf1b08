# Flynn CLI cluster configuration, modelled in Dafny

The Flynn command-line client keeps a configuration (`~/.flynnrc`) with the name
of a default cluster and an ordered list of cluster records. Each record holds a
name, an API key, a TLS pin, a controller URL, a git URL, and three legacy
options: a git host (git over SSH), a URL and a domain. This project models the
operations that change that configuration in place:

- **Add** checks the new record against every existing one. A record conflicts
  when it has the same name, the same non-empty git URL, the same controller URL
  (an empty one included) or the same non-empty git host. Without a conflict the
  record is appended. With one it is refused, or with `force` the conflicting
  record is dropped and the new one appended. Add reproduces the loop exactly as
  written, including its stale message (see Findings).
- **Upgrade** moves the legacy URL and domain options into the controller and git
  URLs and reports whether anything changed.
- **Remove** takes out and returns the first record with a given name.
- **SetDefault** makes a name the default only when a record with it exists.

Layout:

- `wrappers.dfy`: module `Wrappers`, the `Option` type used for nil results.
- `cluster.dfy`: module `Clusters`. It holds the `Cluster` record (a datatype with
  `SSHGit`), the `AddError` kinds, the conflict test, the switch that picks the
  error, and the per-record upgrade step.
- `config.dfy`: module `CliConfig`. The `Config` class has the fields
  `defaultName` and `clusters`, and one method per operation, each with a loop
  mirroring the source. Each method's postcondition ties its result and the new
  list to a specification function (`AddResult`, `RemoveResult`, `UpgradedAll`)
  or states the new state directly (`SetDefault`).
- `config_properties.dfy`: module `ConfigProperties`, lemmas about those
  specification functions.
- `add_finding.dfy`: module `AddFinding`, the stale-message finding and the
  evidently intended Add.

## Model

| member | source | states |
|---|---|---|
| `Clusters.Cluster.SSHGit` | cli/config/config.go:45-47 | A cluster uses git over SSH exactly when its legacy git host is set. Upgrade never changes that, because the upgraded record keeps the git host. |
| `Clusters.Conflicts` | cli/config/config.go:100-109 | A record conflicts with the new one on the same name, the same non-empty git URL, the same controller URL (an empty one included) or the same non-empty git host. The relation reads the same from either side, and every record conflicts with itself. |
| `Clusters.ConflictKind` | cli/config/config.go:100-109 | A conflict kind is reported exactly when the records conflict, and never "multiple". The switch order fixes the kind, stated case by case. A name clash gives NameExists. A git-URL clash without a name clash gives GitURLExists. A controller-URL clash without either of those gives ControllerURLExists. A git-host clash when nothing earlier matched gives GitHostExists. Each kind carries the new record's clashing value. |
| `Clusters.Upgraded` | cli/config/config.go:134-146 | After the upgrade step the record has no URL or domain. Name, key, TLS pin and git host are unchanged. A domain overrides a URL: it sets the controller URL to `https://controller.` + domain and the git URL to `https://git.` + domain. A URL alone becomes the controller URL and leaves the git URL alone. A record without legacy options is unchanged, and one with them always changes. |
| `Clusters.UpgradedIdempotent` | cli/config/config.go:134-146 | Upgrading an upgraded record changes nothing. |
| `CliConfig.FirstConflict` | cli/config/config.go:99-115 | Gives the least index whose record conflicts with the new one, or none exactly when no record conflicts. |
| `CliConfig.IndexOfName` | cli/config/config.go:151-157 | Gives the least index whose record has the given name, or none exactly when no record has it. |
| `CliConfig.AddResult` | cli/config/config.go:96-131 | Add either fails and leaves the list unchanged, or succeeds with the new record last and the list one longer or of the same length. It fails exactly when some record conflicts and either `force` is off or another record follows the first conflicting one. |
| `CliConfig.RemoveResult` | cli/config/config.go:150-159 | Remove returns a record exactly when some record has the name. The returned record has that name, and the list loses exactly that one record (one shorter, same multiset otherwise). Without a match the list is unchanged. |
| `CliConfig.UpgradedAll` | cli/config/config.go:133-148 | Upgrade keeps the number of records and each record's name, key, TLS pin and git host. It leaves no URL or domain anywhere. |
| `CliConfig.Config.constructor` | cli/config/config.go:49-52 | A configuration holds the given default name and record list. |
| `CliConfig.Config.Add` | cli/config/config.go:96-131 | The loop with its never-cleared message and conflict index returns the error and leaves the list that `AddResult` gives. The default name is unchanged. |
| `CliConfig.Config.Upgrade` | cli/config/config.go:133-148 | The in-place loop leaves every record upgraded in order. It returns true exactly when some record had a URL or a domain. The default name is unchanged. |
| `CliConfig.Config.Remove` | cli/config/config.go:150-159 | Returns and removes what `RemoveResult` gives, leaving the default name unchanged. |
| `CliConfig.Config.SetDefault` | cli/config/config.go:161-170 | Returns true exactly when some record has the name. Only then does the default become that name; otherwise it is unchanged. The record list is outside the method's frame, so it never changes. |
| `ConfigProperties.AddWithoutConflictAppends` | cli/config/config.go:99-128 | Without a conflicting record, Add succeeds and the list becomes the old list with the new record appended. |
| `ConfigProperties.AddSingleConflictRejected` | cli/config/config.go:100-122 | With exactly one conflicting record and no `force`, Add fails and the list is unchanged. The error is that record's switch kind when it is the last record, and "multiple conflicts" otherwise. |
| `ConfigProperties.AddSingleConflictForced` | cli/config/config.go:110-128 | With exactly one conflicting record and `force`: if it is the last record, it is removed, the new record is appended, the others keep their order and the length is unchanged. If any record follows it, Add fails with "multiple conflicts" and the list is unchanged. |
| `ConfigProperties.AddLaterEntryReportsMultiple` | cli/config/config.go:97-113 | Once some record conflicts, any record after it makes Add fail with "multiple conflicts", with or without `force`, and leave the list unchanged. |
| `ConfigProperties.AddKeepsConflictFree` | cli/config/config.go:96-131 | If no two records of the list conflict, none do after Add. |
| `ConfigProperties.RemoveFirstMatch` | cli/config/config.go:150-159 | If index i holds the first record with the name, Remove returns that record and leaves the records before and after i in order. |
| `ConfigProperties.RemoveKeepsConflictFree` | cli/config/config.go:150-159 | If no two records of the list conflict, none do after Remove. |
| `ConfigProperties.UpgradeChangedIffDifferent` | cli/config/config.go:133-148 | Upgrade reports a change exactly when the upgraded list differs from the old one. |
| `ConfigProperties.UpgradeIdempotent` | cli/config/config.go:133-148 | After one Upgrade no record has a legacy option. A second Upgrade therefore returns false and leaves the list as it was. |
| `AddFinding.AddIntended` | cli/config/config.go:96-131 | The intended Add either fails with the list unchanged or succeeds with the new record last. It reports "multiple conflicts" only when two distinct records conflict. |
| `AddFinding.AddIntendedSingleConflict` | cli/config/config.go:110-126 | With exactly one conflicting record, wherever it stands, the intended Add reports that record's kind. With `force` it removes that record and appends the new one instead. |
| `AddFinding.AddIntendedTwoConflicts` | cli/config/config.go:110-113 | Two distinct conflicting records make the intended Add report "multiple conflicts", with or without `force`. |
| `AddFinding.AddIntendedAgreesOnLastConflict` | cli/config/config.go:96-131 | The intended Add and Add as written agree when nothing conflicts or the first conflict is on the last record. |
| `AddFinding.AddStaleMessageCounterexample` | cli/config/config.go:97-113 | Take two records "prod" and "dev", and a new record that shares only its name with "prod". Add as written fails with "multiple conflicts", with or without `force`. The intended Add replaces "prod" under `force` and otherwise reports that the name "prod" exists. |

## Left out

- Cluster records are values. The source keeps a slice of pointers (`[]*Cluster`), so a caller holding a pointer sees Upgrade's changes and shares the record Add appended. That aliasing is not modelled.
- Error message texts (`fmt.Sprintf` with `%q`, and `fmt.Errorf(msg)` treating the message as a format string) are not modelled. Each `AddError` kind carries the value its message quotes.
- `Cluster.Client` is not modelled: it is a base64 decode of the TLS pin followed by a call into the controller client library, which is not part of this model.
- `HomeDir`, `Dir` and `DefaultPath` are not modelled: they read the environment, the operating system and the home directory.
- `ReadFile`, `Marshal` and `SaveTo` are not modelled: they are TOML encoding and file I/O.
- cli/route.go, host/volume/api/http.go and the vendored Docker `run.go` are not part of this model. They are command-line, HTTP and terminal plumbing around clients whose code is not available. The volume manager those handlers call, with its registry, lineage and diff transfer, is not part of this model either, because its code is not available.

## Findings

| source | as written | input that shows it | evidently intended | confidence | as-written member | corrected member |
|---|---|---|---|---|---|---|
| cli/config/config.go:97-113 | `msg` is declared once before the loop and never cleared. After the first conflicting record, every later record finds `msg` non-empty with `conflictIdx != i`, so Add returns "multiple conflicts". This happens even though only one record conflicts, and before `force` is consulted. | The list is `[prod, dev]` with distinct controller URLs, and the new record is named `prod` with a third controller URL. Add fails with "multiple conflicts", forced or not. | Only two distinct conflicting records give "multiple conflicts". A single conflict is reported by its kind, or replaced under `force`, wherever it stands. | not executed; high | `AddFinding.AddStaleMessageCounterexample` | `AddFinding.AddIntended` |

`CliConfig.Config.Add` keeps the behaviour as written, because that is what the
command-line client does. The corrected Add is `AddFinding.AddIntended`. Its
intended property is proved in `AddFinding.AddIntendedSingleConflict` and
`AddFinding.AddIntendedTwoConflicts`.
