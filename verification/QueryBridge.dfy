/**
 `queryBridge.ts` and the `FilterStore` it works on: a parsed query written into
 the store, and the store printed as a query string.
 */
module QueryBridge {
  import opened Decimals
  import opened Filters
  import opened QueryParser
  import opened Scanning
  import opened Wrappers

  // ----- applyQueryToFilter -----

  /** `t.value.replace(/\//g, '\\/')` */
  function EscapeSlashes(s: string): string {
    if s == "" then "" else (if s[0] == '/' then "\\/" else [s[0]]) + EscapeSlashes(s[1..])
  }

  function MatcherText(m: Matcher): string {
    if m.isPattern then "/" + EscapeSlashes(m.value) + "/" else m.value
  }

  function MatcherTexts(ms: seq<Matcher>): seq<string> {
    if ms == [] then [] else MatcherTexts(ms[..|ms| - 1]) + [MatcherText(ms[|ms| - 1])]
  }

  /** `join(sep)` */
  function Join(parts: seq<string>, sep: string): string {
    if parts == [] then ""
    else if |parts| == 1 then parts[0]
    else parts[0] + sep + Join(parts[1..], sep)
  }

  function MaybeInt(n: Option<nat>): Option<int> {
    if n.Some? then Some(n.value) else None
  }

  function TextParts(q: Query): seq<string> {
    MatcherTexts(q.text) + q.words
  }

  /** No status named: all but the negated ones, or else the default. */
  function StatusesFor(q: Query): set<Status> {
    if q.statuses != {} then q.statuses
    else if q.negStatuses != {} then ALL_STATUSES - q.negStatuses
    else DEFAULT_STATUSES
  }

  function LevelsFor(q: Query): set<Level> {
    if q.levels == {} && q.negLevels != {} then ALL_LEVELS - q.negLevels else q.levels
  }

  function SortFor(q: Query): SortValue {
    if q.sort.Some? then q.sort.value else By(Recent)
  }

  /** The filter a query stands for: every field is set, none is kept from before. */
  function Applied(q: Query): Filter {
    Filter(Join(TextParts(q), " "), StatusesFor(q), LevelsFor(q), MaybeInt(q.sinceMs), q.spiking, SortFor(q),
      MaybeInt(q.limit), q.newOnly, q.staleOnly)
  }

  // ----- filterToQueryString -----

  function LevelsAmong(order: seq<Level>, chosen: set<Level>): seq<Level> {
    if order == [] then []
    else (if order[0] in chosen then [order[0]] else []) + LevelsAmong(order[1..], chosen)
  }

  function StatusesAmong(order: seq<Status>, chosen: set<Status>): seq<Status> {
    if order == [] then []
    else (if order[0] in chosen then [order[0]] else []) + StatusesAmong(order[1..], chosen)
  }

  function LevelNames(ls: seq<Level>): seq<string> {
    if ls == [] then [] else [LevelName(ls[0])] + LevelNames(ls[1..])
  }

  function StatusNames(ss: seq<Status>): seq<string> {
    if ss == [] then [] else [StatusName(ss[0])] + StatusNames(ss[1..])
  }

  function IntText(n: int): string {
    if n < 0 then "-" + Decimal(-n) else Decimal(n)
  }

  /** `formatSince`; `Math.round` rounds halves up. */
  function FormatSince(ms: int): string {
    if ms == 7 * DAY then "7d"
    else if ms == 24 * HOUR then "24h"
    else if ms == HOUR then "1h"
    else if ms == 15 * MINUTE then "15m"
    else if ms == 5 * MINUTE then "5m"
    else if ms % DAY == 0 then IntText(ms / DAY) + "d"
    else if ms % HOUR == 0 then IntText(ms / HOUR) + "h"
    else IntText((ms + MINUTE / 2) / MINUTE) + "m"
  }

  /** What a template string makes of a sort value. */
  function SortText(v: SortValue): string {
    match v
    case By(k) => SortName(k)
    case Inherited(name) => if name == "constructor" then "function" + " Object() { [native code] }" else "[object Object]"
  }

  function Trimmed(s: string): string
    decreases |s|
  {
    if s == "" then ""
    else if IsSpace(s[0]) then Trimmed(s[1..])
    else if IsSpace(s[|s| - 1]) then Trimmed(s[..|s| - 1])
    else s
  }

  function When(b: bool, part: string): seq<string> {
    if b then [part] else []
  }

  function LevelPart(f: Filter): seq<string> {
    When(f.levels != {}, Join(LevelNames(LevelsAmong(LEVELS, f.levels)), ","))
  }

  function StatusPart(f: Filter): seq<string> {
    When(f.statuses != DEFAULT_STATUSES, "status:" + Join(StatusNames(StatusesAmong(STATUSES, f.statuses)), ","))
  }

  function SincePart(f: Filter): seq<string> {
    if f.sinceMs.Some? then [FormatSince(f.sinceMs.value)] else []
  }

  function FlagParts(f: Filter): seq<string> {
    When(f.spikingOnly, "spiking") + When(f.newOnly, "new") + When(f.staleOnly, "stale")
  }

  function SortPart(f: Filter): seq<string> {
    When(f.sort != By(Recent), "sort:" + SortText(f.sort))
  }

  function LimitPart(f: Filter): seq<string> {
    if f.limit.Some? then ["limit:" + IntText(f.limit.value)] else []
  }

  function FacetParts(f: Filter): seq<string> {
    LevelPart(f) + StatusPart(f) + SincePart(f)
  }

  function TailParts(f: Filter): seq<string> {
    SortPart(f) + LimitPart(f) + When(Trimmed(f.query) != "", Trimmed(f.query))
  }

  function Parts(f: Filter): seq<string> {
    FacetParts(f) + FlagParts(f) + TailParts(f)
  }

  function QueryString(f: Filter): string {
    Join(Parts(f), " ")
  }

  // ----- the store -----

  class FilterStore {
    var query: string
    var statuses: set<Status>
    var levels: set<Level>
    var sinceMs: Option<int>
    var spikingOnly: bool
    var sort: SortValue
    var limit: Option<int>
    var newOnly: bool
    var staleOnly: bool

    constructor ()
      ensures State() == Filter("", DEFAULT_STATUSES, {}, None, false, By(Recent), None, false, false)
    {
      query, statuses, levels, sinceMs, spikingOnly := "", DEFAULT_STATUSES, {}, None, false;
      sort, limit, newOnly, staleOnly := By(Recent), None, false, false;
    }

    ghost function State(): Filter
      reads this
    {
      Filter(query, statuses, levels, sinceMs, spikingOnly, sort, limit, newOnly, staleOnly)
    }

    method ToggleStatus(s: Status)
      modifies this
      ensures s in old(statuses) <==> s !in statuses
      ensures forall t :: t != s ==> (t in statuses <==> t in old(statuses))
      ensures State() == old(State()).(statuses := statuses)
    {
      statuses := if s in statuses then statuses - {s} else statuses + {s};
    }

    method ToggleLevel(l: Level)
      modifies this
      ensures l in old(levels) <==> l !in levels
      ensures forall k :: k != l ==> (k in levels <==> k in old(levels))
      ensures State() == old(State()).(levels := levels)
    {
      levels := if l in levels then levels - {l} else levels + {l};
    }

    method ApplyQueryToFilter(q: Query)
      modifies this
      ensures State() == Applied(q)
    {
      ApplySets(q);
      sinceMs, spikingOnly, newOnly, staleOnly := MaybeInt(q.sinceMs), q.spiking, q.newOnly, q.staleOnly;
      sort := if q.sort.Some? then q.sort.value else By(Recent);
      limit := MaybeInt(q.limit);
      var textParts := FoldText(q);
      query := Join(textParts, " ");
    }

    method ApplySets(q: Query)
      modifies this`statuses, this`levels
      ensures statuses == StatusesFor(q) && levels == LevelsFor(q)
    {
      statuses := if q.statuses != {} then q.statuses else DEFAULT_STATUSES;
      if q.negStatuses != {} && q.statuses == {} {
        statuses := ALL_STATUSES - q.negStatuses;
      }
      levels := q.levels;
      if q.negLevels != {} && q.levels == {} {
        levels := ALL_LEVELS - q.negLevels;
      }
    }

    static method FoldText(q: Query) returns (textParts: seq<string>)
      ensures textParts == TextParts(q)
    {
      textParts := [];
      for k := 0 to |q.text|
        invariant textParts == MatcherTexts(q.text[..k])
      {
        assert q.text[..k + 1][..k] == q.text[..k];
        textParts := textParts + [MatcherText(q.text[k])];
      }
      assert q.text[..|q.text|] == q.text;
      for k := 0 to |q.words|
        invariant textParts == MatcherTexts(q.text) + q.words[..k]
      {
        assert q.words[..k + 1] == q.words[..k] + [q.words[k]];
        textParts := textParts + [q.words[k]];
      }
      assert q.words[..|q.words|] == q.words;
    }

    method PrintFlags() returns (parts: seq<string>)
      ensures parts == FlagParts(State())
    {
      parts := [];
      if spikingOnly {
        parts := parts + ["spiking"];
      }
      if newOnly {
        parts := parts + ["new"];
      }
      if staleOnly {
        parts := parts + ["stale"];
      }
    }

    method PrintFacets() returns (parts: seq<string>)
      ensures parts == FacetParts(State())
    {
      parts := [];
      if levels != {} {
        parts := parts + [Join(LevelNames(LevelsAmong(LEVELS, levels)), ",")];
      }
      assert parts == LevelPart(State());
      if statuses != DEFAULT_STATUSES {
        parts := parts + ["status:" + Join(StatusNames(StatusesAmong(STATUSES, statuses)), ",")];
      }
      assert parts == LevelPart(State()) + StatusPart(State());
      if sinceMs.Some? {
        parts := parts + [FormatSince(sinceMs.value)];
      }
    }

    method PrintTail() returns (parts: seq<string>)
      ensures parts == TailParts(State())
    {
      parts := [];
      if sort != By(Recent) {
        parts := parts + ["sort:" + SortText(sort)];
      }
      if limit.Some? {
        parts := parts + ["limit:" + IntText(limit.value)];
      }
      if Trimmed(query) != "" {
        parts := parts + [Trimmed(query)];
      }
    }

    method FilterToQueryString() returns (s: string)
      ensures s == QueryString(State())
    {
      var facets := PrintFacets();
      var flags := PrintFlags();
      var tail := PrintTail();
      s := Join(facets + flags + tail, " ");
    }

    method ApplyInputToFilter(input: string)
      modifies this
      ensures State() == Applied(ParseQuery(input))
    {
      var tokens := Tokenize(input);
      var q := BuildQuery(tokens);
      ApplyQueryToFilter(q);
    }
  }
}
