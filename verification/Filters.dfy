/** The fields of `FilterStore` (stores.svelte.ts) and the names its values go by. */
module Filters {
  import opened Wrappers
  import Schema

  type Status = Schema.Status

  datatype Level = Fatal | Error | Warning | Info | Debug

  datatype SortKey = Recent | Stale | Count

  /**
   A sort value is one of the three keys, or what a plain-object table hands back
   for a property every object inherits ("constructor", "__proto__").
   */
  datatype SortValue = By(key: SortKey) | Inherited(name: string)

  datatype Filter = Filter(
    query: string,
    statuses: set<Status>,
    levels: set<Level>,
    sinceMs: Option<int>,
    spikingOnly: bool,
    sort: SortValue,
    limit: Option<int>,
    newOnly: bool,
    staleOnly: bool)

  const ALL_STATUSES: set<Status> := {Schema.Unresolved, Schema.Resolved, Schema.Muted, Schema.Ignored}

  const ALL_LEVELS: set<Level> := {Fatal, Error, Warning, Info, Debug}

  const DEFAULT_STATUSES: set<Status> := {Schema.Unresolved}

  function LevelName(l: Level): string {
    match l
    case Fatal => "fatal"
    case Error => "error"
    case Warning => "warning"
    case Info => "info"
    case Debug => "debug"
  }

  function StatusName(s: Status): string {
    match s
    case Unresolved => "unresolved"
    case Resolved => "resolved"
    case Muted => "muted"
    case Ignored => "ignored"
  }

  function SortName(k: SortKey): string {
    match k
    case Recent => "recent"
    case Stale => "stale"
    case Count => "count"
  }
}
