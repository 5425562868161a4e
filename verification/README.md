# errex: a verified model

errex is a small self-hosted error tracker: SDKs post Sentry envelopes, one task
digests the events into SQLite, and browsers follow the issues over WebSockets.
This project models its logic in Dafny and proves what it keeps.

| part | files |
|---|---|
| tables, the batched digest, alerts, retention, rename and delete | `Schema`, `Store`, `Digest`, `Sightings`, `Pipeline`, `Retention`, `RetentionProofs`, `RetentionRules`, `RetentionLoss`, `Projects` |
| broadcast, WebSocket server task, client fold | `Fanout` |
| users, sessions, lockout | `Accounts`, `AccountRules`, `AccountRuns` |
| envelope parser, fingerprint hash, rate limiter | `Octets`, `Envelope`, `EnvelopeErrors`, `Fingerprint`, `Grouping`, `RateLimit` |
| calendar and RFC 3339 texts (section 5.6 of RFC 3339) | `Calendar`, `Decimals`, `Iso`, `IsoForms` |
| filter query language: tokenizer, builder, bridge, round trip | `Filters`, `Scanning`, `QueryParser`, `QueryBridge`, `QueryTokens`, `QueryReading`, `QueryRoundTrip`, `QuerySynonyms`, `QuerySorts`, `QueryWords`, `QueryForms`, `QueryFields`, `QueryNumbers`, `QueryPhrases` |
| live counters, issue list | `EventStream`, `Spikes`, `IssueView`, `IssueOrder` |

`dafny verify dfyconfig.toml` checks all of it.

## How to read it

Code that changes state is a class or a method with a loop (`Store`, `DigestTask`,
`IssuesStore`, `Receiver`, `FilterStore`, `TokenBucket`, `RateLimiter`, `AuthService`,
`EventStreamStore`, `Fnv1a`, `TokenizeBy`, `ParseEnvelope`, `ParseIsoToMs`). Each is
proved equal to a function of the old state, and the theorems are about those functions:
over every run, every cut into batches, every clock, every input string.

What those functions mean is stated a second time without them, in counts, orders and
literal constants: `Sightings` (a row's count is the number of its events), `AccountRules`
(who gets in), `QueryTokens`, `QueryForms`, `QueryFields`, `QueryNumbers` and `QueryPhrases` (what a text
asks for), `Grouping` (which events are one issue), `IssueOrder` (which row comes first),
`RetentionRules`, `Spikes`, `IsoForms` and `EnvelopeErrors`.

Premises, each from the source:

- A commit and the broadcasts that follow it are one step: the pool has one connection
  (`crates/errexd/src/store.rs:250-253`; `docs/ARCHITECTURE.md` still says up to four), the runtime is
  single-threaded (`crates/errexd/src/main.rs:117`), and nothing is awaited in between.
- Each HTTP handler is one atomic step at one clock reading. New session ids are fresh.
- Clocks are integers, `f64` is `real`, JavaScript numbers are unbounded integers,
  strings are sequences of Unicode scalar values. 64-bit hash arithmetic and the `usize`
  addition in the envelope cursor are written out.
- Uniqueness, ascending ids and cascades are those of the migrations
  (`crates/errexd/migrations/`).
- JSON, password hashing, regular-expression search in titles and the spike flag are
  function parameters.

## What the proofs found

- **The age sweep deletes up to a day too early.** `received_at` holds
  `YYYY-MM-DD HH:MM:SS` and the cutoff is bound as RFC 3339 text; on equal dates the space
  sorts before the `T`. `AgePurgeMeetsPromise` gives the exact condition, `TickDeletesTooEarly`
  a run in which a one-day retention deletes an event after five hours, and
  `TextBeforeIsDayOrder` proves it of the texts.
- **An empty status set does not survive printing.** It prints `status:`, which reads as
  nothing and takes the next part for its value (`PrintParseIff`,
  `EmptyStatusesTakeTheNextPart`). Toggling the last status off, or negating all four, gets there.
- **`5 minute` is no time window**, though `5 minutes` and `5 minute ago` are: the compact
  pattern leaves the singular out, and the input becomes words to search for
  (`SpellingsAgree`, for every number, unit name and spelling).
- **`sort:constructor` is accepted**: the table of sort words is a plain object, so inherited
  properties resolve (`ConstructorIsASort`). Of the `sort:` fields exactly two words do this
  (`SortIsInheritedIff`), and no input without one of them does (`SortIsAKey`). Such a sort
  leaves rows in insertion order (`UnknownSortKeepsOrder`), and printing the filter and
  reading it back loses it (`ConstructorIsLost`; `ParsePrintParse` says for every input
  when that is so).
- **Free text is printed bare and read again as query words**: a search for `stale` comes
  back as the stale flag (`StaleIsLost`). `FreeTextReturns` gives words that do come back.
- **A stated item length near 2^64 is no parse error**: cursor plus length leaves the
  `usize` range before it is compared with the buffer (`SomeInputOverflows`,
  `OversizedLengthOverflows`). `ParseOverflowIff` says for which inputs, and
  `ModestNeverOverflows` gives a condition on the stated lengths that rules it out.
- **An exception without frames and a message of the same text are one issue**: both are
  hashed as one field with no tag for its kind (`TypeAndMessageShare`).
- **`past day` is two days and `last day` is one**: an earlier pattern takes `past day`
  together with `since yesterday` (`PhraseMeans`).
- **`crashing` asks for fatal issues, `is:crashing` for nothing**: the field gives a keyword
  that no query field takes (`WordsMean`, `FlagField`).
- **The webhook task's muted/ignored filter never discards anything** (`FilterNeverFires`).
- **The spike guard reads the pruned buffer**: `SpikingSeesAllButGuard` says exactly when
  that changes the answer, `GuardHidesASpike` shows six arrivals for which it does.
- **A header line with no newline loses its last byte**, the envelope's
  (`UnterminatedHeaderLosesAByte`) and an item's (`UnterminatedItemLosesAByte`).

## Model

Source paths are relative to the repository root.

| member | source | states |
|---|---|---|
| Store.Store.UpsertInTx | crates/errexd/src/store.rs:403-476 | the statements one event runs inside the batch transaction do what `Schema.Upsert` says; in rows: a known key gets one event more, the new last-seen time and, if it was resolved, its reopening, a new key gets a row with exactly the input's fields, an unknown event id exactly one event row, and nothing else changes |
| Schema.UpsertMeans | crates/errexd/src/store.rs:403-476 | the same of the function: title, culprit, level and first sighting of a known key stay, a new row has count 1, both times now and status Unresolved, and the result says which case it was |
| Sightings.CountsAddUp | crates/errexd/src/store.rs:403-476 | after any events an issue's count is its old count plus the number of events with its key, its last-seen time that of the last of them, its first that of the first if it is new, and rows without one are as they were |
| Sightings.EventIsAnnounced | crates/errexd/src/digest.rs:184-228 | an event sends exactly one message with the new row, created or updated as the row is new or not, and raises a new-issue alert for a new row, a regression alert for one that was resolved, else none |
| Sightings.StatusChanges | crates/errexd/src/store.rs:488-512 | only the status of only that row changes |
| Store.Store.UpsertBatchWithEvents | crates/errexd/src/store.rs:383-483 | a batch is all or nothing: on any fault the tables are as before, otherwise tables and results are those of the events in order |
| Store.Store.SetStatus | crates/errexd/src/store.rs:488-512 | changes the status of exactly that row and returns it; unknown id is NotFound and changes nothing |
| Store.Store.PurgeEventsOlderThan | crates/errexd/src/store.rs:828-834 | exactly the events of days after the cutoff's day are left, unchanged; issues and projects are untouched; the count is the number that went |
| Store.Store.PurgeExcessEventsPerIssue | crates/errexd/src/store.rs:778-799 | afterwards each issue has the newest of its events up to the cap, unchanged; all of them when the cap is not positive; the count is the number that went |
| Store.Store.PurgeExcessIssuesPerProject | crates/errexd/src/store.rs:804-822 | afterwards each project has the newest of its issues up to the cap, with exactly their events; the count is the number of issues that went |
| Store.Store.RunOneTick | crates/errexd/src/retention.rs:35-93 | nothing when the settings cannot be read; otherwise the three sweeps in order, each under its own guard, a failing one skipped; without faults that is `Tick` |
| Store.Store.RenameProject | crates/errexd/src/store.rs:916-944 | all or nothing, with the source's error for each refusal; the returned project carries its old token |
| Store.Store.DeleteProject | crates/errexd/src/store.rs:868-912 | removes the project, its issues and their events; the reported counts are what went |
| Schema.RenamedKeysUnique | crates/errexd/src/store.rs:916-944 | a rename without a fingerprint clash keeps (project, fingerprint) unique |
| Pipeline.ReachableIsSound | crates/errexd/src/store.rs:383-512 | in every reachable state no two issues share (project, fingerprint), no two events an event_id, every event has its issue, and stored events per issue never exceed event_count |
| Pipeline.StepSound | crates/errexd/src/store.rs:778-944 | every server step, sweep, rename and delete included, keeps those invariants and both uniqueness facts |
| Pipeline.RunAccounts | crates/errexd/src/digest.rs:205-215 | exact account over any run: regression triggers are changes to Resolved minus those undone or still standing; new-issue triggers are rows made minus rows moved in |
| Pipeline.AlertBounds | crates/errexd/src/store.rs:414-448 | an issue never raises more regression alerts than it was resolved, a key at most one new-issue alert plus its removals |
| Pipeline.FilterNeverFires | crates/errexd/src/webhook.rs:226-244 | every trigger the digest raises carries an Unresolved issue, so the muted/ignored filter discards none |
| Digest.DigestTask.Publish | crates/errexd/src/digest.rs:184-228 | one message and at most one trigger per result, in order |
| Digest.DigestTask.ProcessBatch | crates/errexd/src/digest.rs:149-229 | a batch that fails leaves tables, broadcasts and alerts untouched; one that commits applies them all |
| Digest.DigestTask.Fill | crates/errexd/src/digest.rs:116-135 | one drain takes a prefix of what is queued: at least one event, at most 16, and it stops short of 16 only at the first poll that finds nothing queued |
| Digest.DigestTask.Run | crates/errexd/src/digest.rs:108-143 | the drain loop loses and reorders nothing: its batches are a cut of the stream, and the outcome is that of the committed events one at a time |
| Digest.BatchingIsInvisible | crates/errexd/src/digest.rs:108-229 | tables, results, broadcasts and triggers of any sequence of batches equal those of the committed events digested singly |
| Digest.CutsAgree | crates/errexd/src/digest.rs:116-143 | two ways of cutting the same stream end in the same state |
| Digest.RunMeaning | crates/errexd/src/digest.rs:108-229 | with no failed batch the state after a run depends on the stream alone |
| Projects.CreateIsExact | crates/errexd/src/store.rs:588-605 | refused exactly when the name is taken; otherwise one project more, with that token and no webhook |
| Projects.RenamePreserves | crates/errexd/src/store.rs:916-944 | when a rename succeeds, and that then ids, counts, statuses, events and token stay and only the project name changes |
| Projects.RenameRoundTrip | crates/errexd/src/store.rs:916-944 | renaming back undoes a rename if and only if the target held no issues |
| Projects.DeleteIsExact | crates/errexd/src/store.rs:868-892 | exactly the project, its issues and their events go |
| RetentionProofs.NewestIsUnique | crates/errexd/src/store.rs:778-822 | the ranked rows are the only set of that size whose members are all newer than the rest |
| RetentionProofs.NewestCount | crates/errexd/src/store.rs:778-822 | the rank filter keeps min(cap, size) rows |
| RetentionProofs.EventCapKeepsNewest | crates/errexd/src/store.rs:778-799 | each issue keeps exactly its newest capped events, unchanged |
| RetentionProofs.IssueCapKeepsNewest | crates/errexd/src/store.rs:804-822 | each project keeps exactly its newest capped issues; their events stay, no orphan is left |
| RetentionProofs.TickKeepsNewest | crates/errexd/src/retention.rs:35-93 | after a whole tick each issue left has exactly the newest capped of its events that had not aged out, each project exactly its newest capped issues, every event its issue, and nothing is altered |
| RetentionProofs.SweepsCommute | crates/errexd/src/retention.rs:47-93 | all six orders of the three sweeps give the same tables |
| RetentionProofs.TickIdempotent | crates/errexd/src/retention.rs:35-93 | a second tick at the same clock deletes nothing |
| RetentionProofs.TickAndLatestEvent | crates/errexd/src/store.rs:839-847 | a surviving issue's latest event survives a tick unless that event aged out, and then none is left |
| RetentionProofs.AgePurgeMeetsPromise | crates/errexd/src/store.rs:824-834 | the age sweep deletes what it promises if and only if no event of the cutoff's date is at or after the cutoff |
| RetentionRules.AgeSweepMeans | crates/errexd/src/retention.rs:35-60 | the days are the stored setting, or the boot flag where it is zero; exactly the events received on the day so many days back, or before it, go |
| RetentionRules.NoneTooOld | crates/errexd/src/retention.rs:35-93 | after a tick no event of such a day is left |
| RetentionRules.TickTakesOldest | crates/errexd/src/store.rs:778-799 | of two events of one issue that have not aged out a tick never keeps the one received earlier and drops the other |
| RetentionRules.TickTakesQuietest | crates/errexd/src/store.rs:804-822 | of two issues of one project it never keeps the one seen longer ago and drops the other |
| RetentionRules.FailedSweepIsOff | crates/errexd/src/retention.rs:54-93 | a tick in which some sweeps fail is one with those switched off |
| RetentionLoss.TickDeletesTooEarly | crates/errexd/src/store.rs:828-834 | in the state one digested event leads to, a tick with one day of retention deletes that event five hours after it came in |
| Iso.TextBeforeIsDayOrder | crates/errexd/src/store.rs:828-834 | the two text formats compare as their days do, times of day ignored |
| Fanout.IssuesStore.ResetTo | web/src/lib/stores.svelte.ts:20-24 | the map holds the rows by id, later rows winning |
| Fanout.IssuesStore.Upsert | web/src/lib/stores.svelte.ts:26-30 | the issue shown under that id is the new one, all others stay, and the map is the old one with one more message folded in |
| Fanout.IssuesStore.HandleFrame | web/src/lib/ws.ts:121-140 | one message folds into the map as `Handle` says |
| Fanout.Receiver.Recv | crates/errexd/src/ws.rs:121-136 | next message, or a jump to the oldest kept one with the number skipped; the same `TakeNext` the client's receive step uses |
| Fanout.Receiver.Drain | crates/errexd/src/ws.rs:98-137 | what a drained receiver forwards: everything unread that the ring still holds, in order |
| Fanout.LagKeepsSixtyFour | crates/errexd/src/main.rs:102-102 | a receiver up to 64 messages behind loses none, one further behind gets exactly the last 64 |
| Fanout.ReceivesAreDrain | crates/errexd/src/ws.rs:98-137 | a client's receive steps, repeated until nothing is queued, put on its socket what a drain returns and note as lost what it skipped |
| Fanout.ShowsUntilDelivery | web/src/lib/ws.ts:121-140 | a client shows what it showed until something is delivered to it, through reconnects too |
| Fanout.SnapshotIsTable | crates/errexd/src/ws.rs:106-118 | resetting to a listing of the table, in any order, gives the table |
| Fanout.StepAnnounces | crates/errexd/src/digest.rs:184-228 | replaying the messages of an ingest or status step on the old rows gives the new rows |
| Fanout.Converges | crates/errexd/src/ws.rs:43-137 | for every interleaving of ingests, status changes and other clients: with nothing lost, view plus queue is the table; with losses, only issues whose last message was dropped may differ |
| Fanout.ConvergesByIssue | crates/errexd/src/ws.rs:43-137 | for every run after a subscribe, sweeps, renames and deletes included: a drained live client agrees on each issue that is not stale (changed unannounced since its last message or the snapshot) and whose last message was not dropped |
| Fanout.UntouchedIsFresh | crates/errexd/src/ws.rs:43-137 | an issue no unannounced step of the run changed is never stale |
| Fanout.ViewsArePast | crates/errexd/src/ws.rs:121-137 | with sweeps, renames and deletes too, every client copy is a value its row once had, and its event_count never exceeds the row's |
| RateLimit.TokenBucket.TryAcquire | crates/errexd/src/rate_limit.rs:31-45 | updates tokens and refill time as `Acquire` says; an earlier clock reading refills nothing |
| RateLimit.RateLimiter.Check | crates/errexd/src/rate_limit.rs:71-82 | touches the project's bucket only, made full on first use; a zero rate always grants |
| RateLimit.TokensConserved | crates/errexd/src/rate_limit.rs:31-45 | over any calls, in any clock order: tokens left plus requests granted never exceed tokens at the start plus the refill of the advance of the running maximum clock |
| RateLimit.WindowBound | crates/errexd/src/rate_limit.rs:31-45 | between any two calls, in any clock order, grants are at most capacity plus rate times the advance of the running maximum clock |
| RateLimit.NeverRefusedIffConforms | crates/errexd/src/rate_limit.rs:31-45 | a caller is never refused if and only if every window of its calls fits capacity plus refill |
| RateLimit.SpacedNeverRefused | crates/errexd/src/rate_limit.rs:31-45 | calls at least one token apart are never refused |
| RateLimit.PacedNeverRefused | crates/errexd/src/rate_limit.rs:59-65 | calls at least 60 / per_min seconds apart are never refused |
| RateLimit.MinuteBound | crates/errexd/src/rate_limit.rs:59-65 | within any minute at most per_min plus the burst (at least one) are granted |
| RateLimit.BurstGranted | crates/errexd/src/rate_limit.rs:59-65 | of a project's first calls, all at once, none is refused if and only if they are at most the burst (or one) |
| RateLimit.ZeroGrantsAll | crates/errexd/src/rate_limit.rs:67-74 | a rate of zero grants every call |
| RateLimit.ProjectsAreIsolated | crates/errexd/src/rate_limit.rs:71-82 | a project's decisions in any interleaving are those of its own calls alone |
| RateLimit.ProjectWindowBound | crates/errexd/src/rate_limit.rs:71-82 | the window bound for one project's calls inside any interleaving with others, from an empty limiter |
| RateLimit.ProjectNeverRefusedIffConforms | crates/errexd/src/rate_limit.rs:71-82 | a project is never refused, whatever the others do, if and only if every window of its own calls fits |
| RateLimit.ConfigIsValid | crates/errexd/src/rate_limit.rs:59-65 | capacity is at least one; the rate is positive exactly when enabled |
| Calendar.NextDay | scripts/stress/src/main.rs:213-221 | from any valid date to the next adds one, by the Gregorian month lengths and leap rule |
| Calendar.Epoch | scripts/stress/src/main.rs:213-221 | 1970-01-01 is day 0 |
| Calendar.DateOrder | scripts/stress/src/main.rs:213-221 | day numbers are ordered as dates are |
| Calendar.DaysRoundTrip | scripts/stress/src/main.rs:284-296 | every day number becomes a valid date with that number |
| Calendar.DateRoundTrip | scripts/stress/src/main.rs:213-221 | every valid date comes back from its number |
| Iso.ParseIsoToMs | scripts/stress/src/main.rs:163-211 | the parser with its digit loop and nine-digit padding equals `ParseIso` |
| Iso.IsoRoundTrip | scripts/stress/src/main.rs:272-282 | for every second to the end of 9999, parsing the printed text gives 1000 times it |
| Iso.DateTextOrder | scripts/stress/src/main.rs:272-282 | printed dates sort as text the way the dates do |
| Envelope.ParseEnvelope | crates/errexd/src/ingest.rs:1124-1180 | the cursor loop equals the recursive parse, errors included |
| Envelope.SlicesAreDisjoint | crates/errexd/src/ingest.rs:1136-1178 | payload slices are in bounds, in order and disjoint, for every input that parses |
| Envelope.ParseOverflowIff | crates/errexd/src/ingest.rs:1149-1157 | the parse leaves the `usize` range if and only if, taking items in turn, it gets to a header whose length does |
| Envelope.ModestNeverOverflows | crates/errexd/src/ingest.rs:1149-1157 | if no line that reads as an item header states a length of 2^64 less the size of the input or more, every input gives events or a parse error |
| Envelope.OversizedLengthOverflows | crates/errexd/src/ingest.rs:1149-1157 | one header and one item header whose length is within its offset of 2^64 overflow |
| Envelope.SomeInputOverflows | crates/errexd/src/ingest.rs:1149-1157 | `{}`, then `{"length":18446744073709551615}`: neither events nor a parse error, for every reader that takes the two lines for what they are |
| Envelope.OneItem | crates/errexd/src/ingest.rs:1138-1176 | one printed item is taken whole, whichever of the two framings it uses |
| Envelope.RoundTrip | crates/errexd/src/ingest.rs:1124-1193 | printing a header and any well-formed items and parsing gives back every payload and the events in order |
| Envelope.UnterminatedHeaderLosesAByte | crates/errexd/src/ingest.rs:1185-1193 | the last byte of an unterminated header line is not looked at |
| Envelope.UnterminatedItemLosesAByte | crates/errexd/src/ingest.rs:1136-1150 | after any well-formed items, nor is that of an unterminated item header line: any two bytes there parse alike |
| EnvelopeErrors.FirstFaultDecides | crates/errexd/src/ingest.rs:1124-1183 | after a header and any well-formed items, an item header not understood or an event payload that is none gives BadJson, a stated length beyond the end LengthTooLong, whatever follows |
| EnvelopeErrors.HeaderDecides | crates/errexd/src/ingest.rs:1124-1183 | MissingHeader is for the empty input alone; a header line that is no JSON gives BadJson whatever follows |
| Fingerprint.Fnv1a.Write | crates/errexd/src/fingerprint.rs:28-35 | one step per byte from the old state |
| Fingerprint.Fnv1a.WriteOptStr | crates/errexd/src/fingerprint.rs:37-46 | the tagged, terminated field bytes are hashed |
| Fingerprint.DeriveFingerprint | crates/errexd/src/fingerprint.rs:53-79 | the 16 hex digits of the hash of the event's stream; which events share one is said by the `Grouping` rows |
| Fingerprint.HashAppend | crates/errexd/src/fingerprint.rs:28-35 | writes compose over concatenation |
| Fingerprint.StepIsBijective | crates/errexd/src/fingerprint.rs:28-35 | XOR and multiplication modulo 2^64 are undone by `Unstep`, both ways round |
| Fingerprint.OneByteNeverCollides | crates/errexd/src/fingerprint.rs:28-35 | equal-length streams that differ in one byte never share a hash |
| Fingerprint.OneByteNeverShares | crates/errexd/src/fingerprint.rs:53-79 | nor a printed fingerprint |
| Fingerprint.NoneIsNotEmpty | crates/errexd/src/fingerprint.rs:37-46 | an absent field and an empty one hash differently before any same rest |
| Fingerprint.Utf8IsText | crates/errexd/src/fingerprint.rs:37-46 | UTF-8 (section 4 of RFC 3629) never contains the terminator 0xff |
| Fingerprint.EncodingIsInjective | crates/errexd/src/fingerprint.rs:37-71 | field lists with the same bytes are the same |
| Fingerprint.SameStreamIffSameFields | crates/errexd/src/fingerprint.rs:53-71 | two events with an exception feed the same stream if and only if their fields agree |
| Grouping.FramedGroup | crates/errexd/src/fingerprint.rs:53-71 | two events whose first exception has frames hash the same bytes if and only if that exception's types, and function and file of its last frame, agree |
| Grouping.FramedIgnores | crates/errex-proto/src/event.rs:162-166 | other exceptions, earlier frames, message and event id make no difference then |
| Grouping.FramelessGroup | crates/errexd/src/fingerprint.rs:53-71 | without frames the type alone decides |
| Grouping.FramelessIgnores | crates/errexd/src/fingerprint.rs:53-71 | and nothing else makes a difference |
| Grouping.MessageGroup | crates/errexd/src/fingerprint.rs:53-71 | without an exception the message alone decides |
| Grouping.IdGroup | crates/errexd/src/fingerprint.rs:53-71 | with neither, the event id |
| Grouping.BytesHashed | crates/errexd/src/fingerprint.rs:37-71 | the bytes hashed in each of the cases, tags and terminators included |
| Grouping.FramesSetApart | crates/errexd/src/fingerprint.rs:53-71 | an event with frames never hashes the bytes of one without |
| Grouping.TypeAndMessageShare | crates/errexd/src/fingerprint.rs:53-71 | an exception without frames shares its fingerprint with a message of the same text |
| Grouping.DigitsShowTheHash | crates/errexd/src/fingerprint.rs:53-79 | fingerprints are 16 characters and equal exactly when the hashes are |
| Grouping.HexAt | crates/errexd/src/fingerprint.rs:73-73 | each character of a fingerprint shows its hexadecimal digit, in lower case, the highest first |
| Grouping.XorAt | crates/errexd/src/fingerprint.rs:28-35 | a bit of the exclusive or is set exactly when the two bits differ |
| Grouping.TestVectors | crates/errexd/src/fingerprint.rs:14-35 | the published FNV-1a values of the empty text and of "a" |
| Accounts.AuthService.HandleSetup | crates/errexd/src/auth.rs:186-286 | username trimmed and measured in bytes; lockout, token, name and password checks in order, one recorded attempt, first admin and session on success |
| Accounts.AuthService.HandleLogin | crates/errexd/src/auth.rs:288-387 | Ok if and only if fewer than 5 failures of the trimmed name and 20 of the address fall in the last 15 minutes, the user is active and the password verifies; then exactly that session and one success are added, Unauthorized adds one failure, TooMany nothing |
| Accounts.TrimStrips | crates/errexd/src/auth.rs:297-297 | white space at both ends of a username goes, and nothing else |
| Accounts.AuthService.HandleLogout | crates/errexd/src/auth.rs:389-402 | that session is looked up no more and authenticates nobody; users, attempts and every other session stay |
| Accounts.AuthService.RequireAdmin | crates/errexd/src/auth.rs:152-184 | who is let through, and that the session is touched |
| Accounts.AuthService.AdminPatchUser | crates/errexd/src/ingest.rs:839-903 | last-admin guard, then password, role and activation in that order, sessions revoked on deactivation |
| Accounts.AuthService.AdminDeleteUser | crates/errexd/src/ingest.rs:905-925 | refused for the last active admin; otherwise user and sessions go, attempts stay |
| AccountRules.SetupMeans | crates/errexd/src/auth.rs:186-286 | Created exactly before there is any user, with the configured token, a name of 1 to 64 bytes, a strong password and fewer than 20 failures of the address in 15 minutes; then one admin and one session; the answer in every other case, in which at most the failed attempt is added |
| AccountRules.AuthenticateMeans | crates/errexd/src/auth.rs:152-184 | a session of an existing user gives that user's role and is touched; nothing else changes |
| AccountRules.OnlyAdminsAdminister | crates/errexd/src/auth.rs:174-184 | without an admin's session an admin request is refused and changes no user and no session |
| AccountRules.AdminsAdminister | crates/errexd/src/ingest.rs:788-955 | with one, each request does what it is named for, or nothing |
| AccountRules.CreateMeans | crates/errexd/src/ingest.rs:788-814 | Created exactly for a free name of 1 to 64 bytes and a strong password; then exactly that active user with that role |
| AccountRules.PatchMeans | crates/errexd/src/ingest.rs:839-903 | refused exactly for an unknown user, a weak password or the last active admin's demotion or deactivation; otherwise exactly the named fields change, and deactivation ends that user's sessions |
| AccountRules.DeleteMeans | crates/errexd/src/ingest.rs:905-925 | refused exactly for an unknown user and the last active admin; otherwise that user and those sessions go |
| AccountRules.RevokeMeans | crates/errexd/src/ingest.rs:942-955 | ends exactly that user's sessions |
| AccountRules.PurgeMeans | crates/errexd/src/retention.rs:106-115 | exactly the sessions idle for more than thirty days go |
| AccountRules.PruneMeans | crates/errexd/src/retention.rs:95-104 | exactly the attempts older than a day go |
| AccountRules.SessionsAreEarned | crates/errexd/src/auth.rs:186-387 | in every reachable state each session was opened by a login whose password verified against that user's hash at that step, or by a setup with the configured token |
| AccountRules.PasswordsAreSet | crates/errexd/src/ingest.rs:788-903 | and each stored hash is of a password set by a setup, a creation or a patch of the run |
| AccountRuns.ReachableIsGoverned | crates/errexd/src/ingest.rs:839-925 | in every reachable state there is no user or an active admin, and every session is an existing active user's, so the deactivated flag is never set |
| AccountRuns.SetupStaysClosed | crates/errexd/src/auth.rs:186-260 | once any user exists setup answers Conflict for ever and changes nothing |
| AccountRuns.LockoutBound | crates/errexd/src/lockout.rs:78-91 | in any 15 minutes of any run at most 5 failures are recorded per username and 20 per address, setup and login together |
| AccountRuns.PruningIsInvisible | crates/errexd/src/store.rs:1364-1423 | dropping attempts older than 24 hours changes no answer, user or session |
| AccountRuns.LedgerGated | crates/errexd/src/auth.rs:303-359 | in any run under a clock that never goes back, prunes included, each failure ever recorded passed both gates at its time |
| QueryParser.Tokenize | web/src/lib/queryParser.ts:167-493 | the loop yields `Tokens`, and ends on every string |
| QueryParser.TokenizeBy | web/src/lib/queryParser.ts:167-493 | the loop over any branch function that consumes its input is the recursive reading of the rest |
| QueryParser.NextTurn | web/src/lib/queryParser.ts:171-490 | every turn advances, with spans inside what it consumed; windows are whole minutes, a minus token needs a minus sign, a sort that is no key is spelled out |
| QueryParser.SpansAreOrdered | web/src/lib/queryParser.ts:167-493 | for every string, spans are non-empty, in bounds, in order and disjoint, except that the values of one text:, is: or has: field share the span of the field, and the text at that span begins with that word |
| QueryParser.ParseBareCsv | web/src/lib/queryParser.ts:146-164 | the bare list loop, its values and its end |
| QueryParser.BuildQuery | web/src/lib/queryParser.ts:496-559 | the loop over the tokens is `Build`; what each field gets from which tokens is said by the `QueryTokens` rows |
| QueryTokens.LevelsMean | web/src/lib/queryParser.ts:518-527 | for every token list a level is unwanted if and only if a level token holding it stands right after a minus, wanted if and only if one holding it does not |
| QueryTokens.StatusesMean | web/src/lib/queryParser.ts:528-533 | the same for statuses |
| QueryTokens.SavedMeans | web/src/lib/queryParser.ts:547-550 | a saved name is excluded if and only if one stands right after a minus; the one recalled is the last that does not |
| QueryTokens.NumbersMean | web/src/lib/queryParser.ts:534-541 | window, sort and limit are those of the last such token, minus or not |
| QueryTokens.CommandsMean | web/src/lib/queryParser.ts:546-551 | so are the names to save and to forget |
| QueryTokens.FlagsMean | web/src/lib/queryParser.ts:535-539 | each flag is set if and only if its keyword occurs |
| QueryTokens.ListsMean | web/src/lib/queryParser.ts:542-545 | texts, words, tags and urls come in the order typed, tag values in lower case |
| QueryTokens.LevelsShown | web/src/lib/queryBridge.ts:42-51 | for every token list a level passes the filter if and only if it is named without a minus, or none is and some level, but not this one, is named with one |
| QueryTokens.StatusesShown | web/src/lib/queryBridge.ts:29-40 | the same for statuses, the unresolved ones when none is named at all |
| QueryTokens.OthersShown | web/src/lib/queryBridge.ts:53-71 | the other fields are taken over; the sort is by last activity when none is named; texts come before words |
| QueryForms.MinusLevel | web/src/lib/queryBridge.ts:42-51 | a minus before a level's name leaves the other four |
| QueryForms.MinusStatus | web/src/lib/queryBridge.ts:31-40 | a minus before a status's name leaves the other three |
| QueryForms.WordsMean | web/src/lib/queryParser.ts:416-456 | each word of the tables sets what its entry says and nothing else; fillers set nothing |
| QueryNumbers.PluralLevel | web/src/lib/queryParser.ts:402-408 | the plural of a level's name asks for that level |
| QueryNumbers.PluralNumber | web/src/lib/queryParser.ts:480-485 | digits and an "s" are searched for without the "s" |
| QueryNumbers.SortThenNumber | web/src/lib/queryParser.ts:436-466 | a number right after a sort word is a limit |
| QueryNumbers.FirstIsLimit | web/src/lib/queryParser.ts:193-209 | "first N" is a limit without a sort |
| QueryNumbers.LimitSpaced | web/src/lib/queryParser.ts:237-244 | "limit N" needs no colon |
| QueryNumbers.SinceAgo | web/src/lib/queryParser.ts:103-107 | "since N units ago" is N units, to the end of the phrase |
| QueryNumbers.StarIsPattern | web/src/lib/queryParser.ts:468-478 | a word that begins with an asterisk is a pattern without it |
| QueryForms.AtRecalls | web/src/lib/queryParser.ts:290-298 | "@name" recalls that filter |
| QueryForms.MinusAtExcludes | web/src/lib/queryParser.ts:268-298 | "-@name" excludes it |
| QueryForms.SaveAsSaves | web/src/lib/queryParser.ts:177-183 | "save as :name" saves under that name |
| QueryForms.ForgetForgets | web/src/lib/queryParser.ts:185-191 | "forget @name" forgets it |
| QueryForms.UnsaveForgets | web/src/lib/queryParser.ts:185-191 | so does "unsave name" |
| QueryForms.QuotedMeans | web/src/lib/queryParser.ts:275-288 | quoted text is searched for without its asterisks, as a pattern if it had any |
| QueryForms.UnstarredCat | web/src/lib/queryParser.ts:282-282 | asterisks go piece by piece, so the rest keeps its order |
| QueryForms.EscapedAt | web/src/lib/queryBridge.ts:67-67 | slashes are escaped piece by piece |
| QueryForms.EmptyIsDefault | web/src/lib/queryBridge.ts:28-73 | the empty input is the default view |
| QueryFields.LevelField | web/src/lib/queryParser.ts:340-344 | "level:" and a level's name asks for that level |
| QueryFields.IsLevel | web/src/lib/queryParser.ts:354-363 | so do "is:" and "has:" |
| QueryFields.IsStatus | web/src/lib/queryParser.ts:354-363 | with a status's name they ask for that status |
| QueryFields.FlagField | web/src/lib/queryParser.ts:354-363 | with "spiking", "new" or "stale" they set that flag, with "crashing" nothing |
| QueryFields.SortField | web/src/lib/queryParser.ts:364-372 | "sort:word" sets the key that word is for, any other word of letters but "constructor" none |
| QueryFields.TextField | web/src/lib/queryParser.ts:350-353 | "text:word" searches for the word |
| QueryFields.TagAlone | web/src/lib/queryParser.ts:300-313 | "tag:word" asks for that tag under any key |
| QueryFields.TagPair | web/src/lib/queryParser.ts:300-313 | "tag:key:value" asks for that value under that key |
| QueryFields.UrlField | web/src/lib/queryParser.ts:315-331 | "url:path" asks for that text, without its asterisks, as a pattern if it had any |
| QueryFields.QuotedUrl | web/src/lib/queryParser.ts:315-331 | in quotes the text may hold spaces |
| QueryPhrases.PhraseMeans | web/src/lib/queryParser.ts:81-117 | each of the two-word time phrases sets its window in milliseconds and nothing else |
| QueryPhrases.ArticleMeans | web/src/lib/queryParser.ts:118-119 | "a" or "an" and a unit is one of it |
| QueryPhrases.WordMeans | web/src/lib/queryParser.ts:82-128 | "overnight" is 14 hours, "today" a day, "yesterday" two, "now" five minutes |
| QueryBridge.FilterStore.ApplyQueryToFilter | web/src/lib/queryBridge.ts:28-73 | every field of the store is set from the query alone, negated sets as complements |
| QueryBridge.FilterStore.FilterToQueryString | web/src/lib/queryBridge.ts:77-108 | the parts in order, joined by spaces |
| QueryBridge.FilterStore.ApplyInputToFilter | web/src/lib/queryBridge.ts:129-132 | parse and apply in one go |
| QueryBridge.FilterStore.ToggleStatus | web/src/lib/stores.svelte.ts:70-75 | flips one status, nothing else; it can leave none |
| QueryBridge.FilterStore.ToggleLevel | web/src/lib/stores.svelte.ts:77-82 | flips one level, nothing else |
| QueryReading.LevelsRead | web/src/lib/queryBridge.ts:81-84 | a printed level list reads back as one token with those levels, whatever parts follow |
| QueryReading.StatusesRead | web/src/lib/queryBridge.ts:87-90 | so does a printed non-empty status list |
| QueryReading.TimeReads | web/src/lib/queryBridge.ts:110-127 | digits and a unit letter read back as that length of time |
| QueryReading.FlagReads | web/src/lib/queryBridge.ts:98-100 | each flag word reads back as its keyword |
| QueryReading.SortReads | web/src/lib/queryBridge.ts:101-101 | a printed sort key reads back as that key |
| QueryReading.LimitReads | web/src/lib/queryBridge.ts:102-102 | a printed natural limit reads back as that number |
| QueryRoundTrip.SinceSpells | web/src/lib/queryBridge.ts:110-127 | every preset and every unit spells exactly the window it is printed for, on whole minutes |
| QueryRoundTrip.PrintedTokens | web/src/lib/queryParser.ts:167-493 | the tokens of a printed filter are exactly its parts |
| QueryRoundTrip.PrintParseIff | web/src/lib/queryBridge.ts:28-127 | without free text other than blanks, print then apply restores every field if and only if the text is empty, the sort is one of the three keys, some status is chosen, the window is none or whole minutes, the limit none or natural |
| QueryRoundTrip.ParsePrintParse | web/src/lib/queryBridge.ts:77-132 | for every input whose free text is at most blank, parse, print, parse is parse, if and only if the text is empty, the sort is one of the three keys and some status is left |
| QueryRoundTrip.ParseHonest | web/src/lib/queryParser.ts:81-141 | for every input the window is whole minutes, without a minus sign no status is negated, and a sort that is no key is spelled out in the input |
| QueryRoundTrip.EmptyStatusesTakeTheNextPart | web/src/lib/queryBridge.ts:87-98 | the empty status set with "only spiking" comes back as the default view |
| QuerySynonyms.SpellingsAgree | web/src/lib/queryParser.ts:88-141 | "last", "past", "since", "the last", "in the last" N units, N units ago and N units alone parse to that one window and nothing else, for every N and unit name, spaced or not, except the bare "N minute", which parses to its words |
| QuerySynonyms.SpellingReads | web/src/lib/queryParser.ts:81-134 | of all the time patterns, tried in order, the one meant is the one that matches, to the end of the phrase |
| QuerySynonyms.CountMeans | web/src/lib/queryParser.ts:129-141 | at any position a number and a unit name, spaced or not, are read as the number times the length of the unit, to the end of the name |
| QuerySynonyms.MinuteQuery | web/src/lib/queryParser.ts:129-133 | a bare count in "minute" parses to its own words and nothing else: one word, or two if spaced |
| QuerySynonyms.TopIsCountWithLimit | web/src/lib/queryParser.ts:193-209 | "top N" and "sort:count limit:N" parse to the same query, for every N |
| QuerySynonyms.MostIsSortWithLimit | web/src/lib/queryParser.ts:211-235 | "most W N" and "sort:K limit:N" parse to the same query, the key K by the word W |
| QuerySorts.SortFieldMeans | web/src/lib/queryParser.ts:333-373 | a `sort:` field with any value parses to what the table holds for it in lower case, and to nothing else |
| QuerySorts.ConstructorIsASort | web/src/lib/queryParser.ts:364-371 | "sort:constructor" sets a sort that is none of the keys |
| QuerySorts.ConstructorIsLost | web/src/lib/queryBridge.ts:77-132 | the filter "sort:constructor" sets is not the one its printed form sets |
| QuerySorts.SortIsInheritedIff | web/src/lib/queryParser.ts:364-371 | for every word of value characters, a `sort:` field sets such a sort if and only if the word is "constructor" or "__proto__" in some case |
| QuerySorts.SortIsAKey | web/src/lib/queryParser.ts:167-493 | every input in which neither word occurs, in any case, gives no sort or one of the three keys |
| QueryWords.FreeTextReturns | web/src/lib/queryBridge.ts:77-132 | a filter whose free text is lower-case words, none beginning with "a", none an opener of a command, phrase or field and none in a table, comes back whole under the conditions for one without text |
| QueryWords.StaleIsLost | web/src/lib/queryBridge.ts:77-132 | a search for "stale" comes back as the stale flag without a search |
| EventStream.EventStreamStore.Record | web/src/lib/eventStream.svelte.ts:24-33 | both buffers take the arrival and are pruned at it |
| EventStream.EventStreamStore.Clear | web/src/lib/eventStream.svelte.ts:35-39 | as if nothing had ever arrived: the state of the empty history, every count zero, nothing spikes |
| EventStream.EventStreamStore.RatePerMin | web/src/lib/eventStream.svelte.ts:41-45 | the counted arrivals scaled to a minute; a window of zero gives infinity or not a number, as the division does |
| EventStream.EventStreamStore.IsSpiking | web/src/lib/eventStream.svelte.ts:49-56 | the guard and the two windows compared |
| EventStream.EventStreamStore.Buckets | web/src/lib/eventStream.svelte.ts:59-71 | for any slot count and window, each slot holds the arrivals `Slot` puts there, and none is counted where that names no slot |
| EventStream.PruneLoop | web/src/lib/eventStream.svelte.ts:74-79 | the left scan drops the leading entries before the cutoff |
| EventStream.CountAfterLoop | web/src/lib/eventStream.svelte.ts:81-89 | the right scan counts the trailing run |
| EventStream.RateSeesAll | web/src/lib/eventStream.svelte.ts:41-45 | for ordered arrivals the count on the pruned buffer is that on the whole history, any window up to an hour |
| EventStream.IssueCountSeesAll | web/src/lib/eventStream.svelte.ts:49-56 | the same for one issue, up to half an hour |
| EventStream.SpikingSeesAllButGuard | web/src/lib/eventStream.svelte.ts:49-56 | the spike answer differs from the full history's if and only if exactly five arrivals are retained of more, all five in the window, and the factor is at most five |
| EventStream.GuardHidesASpike | web/src/lib/eventStream.svelte.ts:49-56 | one arrival and five more forty minutes later spike by the rule and not by the buffer |
| EventStream.SlotBounds | web/src/lib/eventStream.svelte.ts:59-71 | slot k holds exactly its share of the window, the last one the rest |
| EventStream.SparklineAddsUp | web/src/lib/eventStream.svelte.ts:59-71 | the buckets sum to the issue's arrivals in the window, over the full history |
| Spikes.SpikeMeans | web/src/lib/eventStream.svelte.ts:49-56 | a spike is six arrivals kept, five or more in the window, and the factor times those of the window before, none counting as one |
| Spikes.RateMeans | web/src/lib/eventStream.svelte.ts:41-45 | the rate times the window is the arrivals in it times 60 000 |
| Spikes.HourKept | web/src/lib/eventStream.svelte.ts:24-33 | after ordered arrivals the store holds exactly those of the hour before the last |
| Spikes.HalfHourKept | web/src/lib/eventStream.svelte.ts:24-33 | and of each issue exactly those of the half hour before its last |
| Spikes.OddSlots | web/src/lib/eventStream.svelte.ts:59-71 | a window of zero puts every later arrival in the last slot, a negative one those at its start in the first |
| IssueView.VisibleIff | web/src/lib/stores.svelte.ts:182-231 | a row is shown if and only if it is in the map, passes the filter and has fewer passing rows ahead of it than the limit |
| IssueView.OrderIndependent | web/src/lib/stores.svelte.ts:182-231 | the view depends on the map, not on the order messages filled it |
| IssueView.SortedIsUnique | web/src/lib/stores.svelte.ts:162-176 | there is one strictly sorted list of given rows |
| IssueView.RankIsIndex | web/src/lib/stores.svelte.ts:223-231 | position in the sorted list is the number of passing rows ahead |
| IssueOrder.VisibleInOrder | web/src/lib/stores.svelte.ts:162-176 | of two rows shown the earlier one was seen later (recent), seen earlier (stale) or has more events (count); equal ones come in ascending id |
| IssueOrder.VisibleIsTheTop | web/src/lib/stores.svelte.ts:223-231 | with a positive limit the number shown is the smaller of it and the number of passing rows, and every passing row left out comes after every row shown |
| IssueOrder.RecentFirst | web/src/lib/stores.svelte.ts:58-58 | of two passing rows the default sort with limit one shows the one seen last |
| IssueView.UnknownSortKeepsOrder | web/src/lib/stores.svelte.ts:162-176 | a sort value that is no key leaves insertion order |

## Left out

- Fanout.Converges: is about runs without a sweep, rename or delete, because the server does not announce those; `ConvergesByIssue` and `ViewsArePast` are what holds then.
- Pipeline.StepSound: a conflicting insert is taken to consume no id.
- QueryRoundTrip.PrintParseIff: free text that is not blank is excluded; printed free text is read again as query words, and `FreeTextReturns` covers those that stay words, not exactly all that do.
- QuerySynonyms.SpellingsAgree: covers the counted phrases; what the phrases without a number are is said by `PhraseMeans`, `ArticleMeans` and `WordMeans`.
- QueryParser.Tokenize: labels of time tokens are not modelled; strings are sequences of Unicode scalar values, not UTF-16 units.
- Envelope.RoundTrip: JSON is three parameters (is it JSON, item header, event); inputs are below the `usize` limit.
- Envelope.ParseEnvelope: what a build does once cursor plus length leaves the `usize` range (debug stops, release wraps and then slices out of range) is one error value, `Overflow`.
- Accounts.AuthService.HandleLogin: password hashing, tokens and session ids are opaque; interleavings inside one handler are not modelled.
- RateLimit.WindowBound: reals in place of `f64`, so rounding is not modelled.
- EventStream.EventStreamStore.Buckets: bucket bounds are exact fractions.
- IssueView.VisibleIff: rows have parseable times; the title search and the spike flag are parameters, and `Array.prototype.sort` is its result, a stable sort.
- Iso.IsoRoundTrip: the printer writes neither offset nor fraction; `IsoForms.OffsetReads` says how a text with both reads, for a fraction of three digits.
- Webhook delivery, retries and payload text; telemetry columns; project tokens beyond their being kept; activity statistics.
- HTTP routing, headers, TLS, gzip, static assets, MCP and triage stubs, configuration, command line.
- SQLite, its pragmas and sqlx: tables are maps, a transaction is all or nothing.
- Reconnects, timers, Svelte reactivity, saved filters, URL filters and toasts.
