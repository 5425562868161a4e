/**
 From the tables to the browsers: `ws.rs` on the server and the message fold of
 `ws.ts` in the client. A client subscribes to the broadcast first, then loads a
 snapshot, then replays the queue, so messages older than the snapshot are
 applied on top of it.
 */
module Fanout {
  import opened Wrappers
  import opened Schema
  import opened Digest
  import opened Pipeline

  /** FANOUT_CHANNEL_CAPACITY: the broadcast ring keeps this many messages. */
  const CAPACITY: nat := 64

  type View = map<nat, Issue>

  datatype Frame = Hello | Snapshot(rows: seq<Issue>) | Push(msg: Message)

  // ----- the client's fold -----

  /** `IssuesStore.reset`: rows into a fresh map, later rows winning. */
  function Reset(rows: seq<Issue>): View {
    if rows == [] then map[] else Reset(rows[..|rows| - 1])[rows[|rows| - 1].id := rows[|rows| - 1]]
  }

  function Handle(view: View, f: Frame): View {
    match f
    case Hello => view
    case Snapshot(rows) => Reset(rows)
    case Push(msg) => view[msg.issue.id := msg.issue]
  }

  function Fold(view: View, frames: seq<Frame>): View {
    if frames == [] then view else Handle(Fold(view, frames[..|frames| - 1]), frames[|frames| - 1])
  }

  function Replay(view: View, msgs: seq<Message>): View {
    if msgs == [] then view
    else
      var last := msgs[|msgs| - 1];
      Replay(view, msgs[..|msgs| - 1])[last.issue.id := last.issue]
  }

  class IssuesStore {
    var byId: View

    constructor ()
      ensures byId == map[]
    {
      byId := map[];
    }

    method ResetTo(rows: seq<Issue>)
      modifies this
      ensures byId == Reset(rows) && Keyed(byId)
    {
      var m: View := map[];
      for k := 0 to |rows|
        invariant m == Reset(rows[..k]) && Keyed(m)
      {
        assert rows[..k + 1][..k] == rows[..k];
        m := m[rows[k].id := rows[k]];
      }
      assert rows[..|rows|] == rows;
      byId := m;
    }

    /** The row shown under the issue's id is the issue, the others stay, and rows stay filed under their own ids. */
    method Upsert(issue: Issue)
      modifies this
      ensures byId == old(byId)[issue.id := issue]
      ensures Get(byId, issue.id) == Some(issue)
      ensures forall i: nat :: i != issue.id ==> Get(byId, i) == Get(old(byId), i)
      ensures Keyed(old(byId)) ==> Keyed(byId)
      ensures byId == Replay(old(byId), [IssueUpdated(issue)]) == Replay(old(byId), [IssueCreated(issue)])
    {
      assert [IssueUpdated(issue)][..0] == [] && [IssueCreated(issue)][..0] == [];
      byId := byId[issue.id := issue];
    }

    /** `handle` in ws.ts, for the frames that touch the issue map. */
    method HandleFrame(f: Frame)
      modifies this
      ensures byId == Handle(old(byId), f)
      ensures Keyed(old(byId)) ==> Keyed(byId)
    {
      match f
      case Hello =>
      case Snapshot(rows) => ResetTo(rows);
      case Push(msg) => Upsert(msg.issue);
    }
  }

  // ----- the broadcast receiver -----

  datatype Received = Got(msg: Message) | Lagged(skipped: nat) | Pending

  /** A receiver that is more than the capacity behind loses everything but the newest CAPACITY messages. */
  function Oldest(sent: seq<Message>): nat {
    if |sent| <= CAPACITY then 0 else |sent| - CAPACITY
  }

  /** What receiving once gives and where it leaves the receiver. */
  function TakeNext(next: nat, sent: seq<Message>): (nat, Received)
    requires next <= |sent|
  {
    if next == |sent| then (next, Pending)
    else if next < Oldest(sent) then (Oldest(sent), Lagged(Oldest(sent) - next))
    else (next + 1, Got(sent[next]))
  }

  /** The first message a receiver at `next` still gets. */
  function FirstKept(next: nat, sent: seq<Message>): (k: nat)
    requires next <= |sent|
    ensures next <= k <= |sent|
  {
    if next < Oldest(sent) then Oldest(sent) else next
  }

  /** A receiver up to sixty-four messages behind loses none; one further behind gets exactly the last sixty-four. */
  lemma LagKeepsSixtyFour(next: nat, sent: seq<Message>)
    requires next <= |sent|
    ensures |sent| - next <= 64 ==> FirstKept(next, sent) == next
    ensures |sent| - next > 64 ==> FirstKept(next, sent) == |sent| - 64
  {
  }

  lemma OnePushMore(sent: seq<Message>, start: nat, n: nat)
    requires start <= n < |sent|
    ensures Pushes(sent[start..n + 1]) == Pushes(sent[start..n]) + [Push(sent[n])]
  {
    var msgs := sent[start..n + 1];
    assert msgs[..|msgs| - 1] == sent[start..n] && msgs[|msgs| - 1] == sent[n];
  }

  class Receiver {
    var next: nat

    constructor (sent: seq<Message>)
      ensures next == |sent|
    {
      next := |sent|;
    }

    method Recv(sent: seq<Message>) returns (r: Received)
      requires next <= |sent|
      modifies this
      ensures next <= |sent| && (next, r) == TakeNext(old(next), sent)
      ensures r.Pending? <==> old(next) == |sent|
      ensures r.Lagged? <==> old(next) < Oldest(sent)
      ensures r.Pending? ==> next == old(next)
      ensures r.Lagged? ==> next == Oldest(sent) && r.skipped == next - old(next)
      ensures r.Got? ==> next == old(next) + 1 && r.msg == sent[old(next)]
    {
      if next == |sent| {
        return Pending;
      }
      if next < Oldest(sent) {
        var skipped := Oldest(sent) - next;
        next := Oldest(sent);
        return Lagged(skipped);
      }
      next := next + 1;
      return Got(sent[next - 1]);
    }

    /** The receive loop of `run`, until the queue is empty: what goes onto the socket. */
    method Drain(sent: seq<Message>) returns (wire: seq<Frame>)
      requires next <= |sent|
      modifies this
      ensures next == |sent|
      ensures wire == Pushes(sent[FirstKept(old(next), sent)..])
    {
      wire := [];
      ghost var start := FirstKept(next, sent);
      while next < |sent|
        invariant next <= |sent|
        invariant next < start ==> next == old(next) && start == Oldest(sent) && wire == []
        invariant start <= next ==> wire == Pushes(sent[start..next]) && Oldest(sent) <= next
        decreases |sent| - next
      {
        var r := Recv(sent);
        if r.Got? {
          wire := wire + [Push(r.msg)];
          OnePushMore(sent, start, next - 1);
        }
      }
      assert sent[start..next] == sent[start..];
    }
  }

  function Pushes(msgs: seq<Message>): seq<Frame> {
    if msgs == [] then [] else Pushes(msgs[..|msgs| - 1]) + [Push(msgs[|msgs| - 1])]
  }

  // ----- the system -----

  /**
   `cursor`: the receiver's next message. `wire`: frames on the socket, in order.
   `live`: the snapshot has been sent. `dropped`: positions lost to lag since then.
   */
  datatype Client = Client(cursor: nat, live: bool, wire: seq<Frame>, view: View, dropped: set<int>)

  datatype Sys = Sys(world: World, clients: map<nat, Client>)

  datatype Event =
    | Server(op: Op)
    | Subscribe(c: nat)
    | LoadSnapshot(c: nat, rows: seq<Issue>)
    | Receive(c: nat)
    | Deliver(c: nat)

  /** `SELECT .. FROM issues`: every row once, in some order. */
  ghost predicate Lists(rows: seq<Issue>, issues: map<nat, Issue>) {
    && (forall k :: 0 <= k < |rows| ==> rows[k].id in issues && issues[rows[k].id] == rows[k])
    && (forall i :: i in issues ==> issues[i] in rows)
  }

  ghost predicate Enabled(s: Sys, e: Event) {
    match e
    case Server(op) => true
    case Subscribe(c) => true
    case LoadSnapshot(c, rows) => c in s.clients && !s.clients[c].live && Lists(rows, s.world.db.issues)
    case Receive(c) => c in s.clients && s.clients[c].live && s.clients[c].cursor < |s.world.sent|
    case Deliver(c) => c in s.clients && s.clients[c].wire != []
  }

  /** A reconnecting browser keeps what it shows until the new snapshot replaces it. */
  function Connected(s: Sys, c: nat): Client {
    Client(|s.world.sent|, false, [], if c in s.clients then s.clients[c].view else map[], {})
  }

  function Span(from: nat, to: nat): (r: set<int>)
    ensures forall k :: k in r <==> from <= k < to
  {
    if from >= to then {} else Span(from, to - 1) + {to - 1}
  }

  /** One turn of the receive loop: a message goes onto the socket, or the lost ones are noted. */
  function Received1(cl: Client, sent: seq<Message>): Client
    requires cl.cursor <= |sent|
  {
    var (next, r) := TakeNext(cl.cursor, sent);
    match r
    case Pending => cl
    case Lagged(_) => cl.(cursor := next, dropped := cl.dropped + Span(cl.cursor, next))
    case Got(msg) => cl.(cursor := next, wire := cl.wire + [Push(msg)])
  }

  /** Receiving until nothing is queued. */
  function ReceivedAll(cl: Client, sent: seq<Message>): Client
    requires cl.cursor <= |sent|
    decreases |sent| - cl.cursor
  {
    if cl.cursor == |sent| then cl else ReceivedAll(Received1(cl, sent), sent)
  }

  /** A client's receives, taken together, put on its socket what `Receiver.Drain` returns. */
  lemma {:induction false} ReceivesAreDrain(cl: Client, sent: seq<Message>)
    requires cl.cursor <= |sent|
    ensures var start := FirstKept(cl.cursor, sent);
            ReceivedAll(cl, sent) == cl.(cursor := |sent|, wire := cl.wire + Pushes(sent[start..]),
                                         dropped := cl.dropped + Span(cl.cursor, start))
    decreases |sent| - cl.cursor
  {
    var start := FirstKept(cl.cursor, sent);
    if cl.cursor == |sent| {
      assert sent[start..] == [] && cl.wire + [] == cl.wire && cl.dropped + {} == cl.dropped;
    } else {
      var t := Received1(cl, sent);
      ReceivesAreDrain(t, sent);
      if cl.cursor < Oldest(sent) {
        assert t.dropped + {} == t.dropped;
      } else {
        PushesRest(cl.wire, sent, start, Pushes(sent[start..]), Pushes(sent[start + 1..]));
        assert cl.dropped + {} == cl.dropped;
      }
    }
  }

  lemma PushesRest(wire: seq<Frame>, sent: seq<Message>, start: nat, all: seq<Frame>, rest: seq<Frame>)
    requires start < |sent| && all == Pushes(sent[start..]) && rest == Pushes(sent[start + 1..])
    ensures wire + [Push(sent[start])] + rest == wire + all
  {
    PushesFirst(sent[start..]);
    assert sent[start..][1..] == sent[start + 1..];
    assert wire + [Push(sent[start])] + rest == wire + ([Push(sent[start])] + rest);
  }

  lemma {:induction false} PushesFirst(msgs: seq<Message>)
    requires msgs != []
    ensures Pushes(msgs) == [Push(msgs[0])] + Pushes(msgs[1..])
  {
    var n := |msgs| - 1;
    if n > 0 {
      PushesFirst(msgs[..n]);
      assert msgs[..n][1..] == msgs[1..][..n - 1];
    }
  }

  ghost function After(s: Sys, e: Event): Sys
    requires Enabled(s, e)
  {
    match e
    case Server(op) => s.(world := Step(s.world, op))
    case Subscribe(c) => s.(clients := s.clients[c := Connected(s, c)])
    case LoadSnapshot(c, rows) =>
      var cl := s.clients[c];
      s.(clients := s.clients[c := cl.(live := true, wire := cl.wire + [Hello, Snapshot(rows)])])
    case Receive(c) => s.(clients := s.clients[c := Received1(s.clients[c], s.world.sent)])
    case Deliver(c) =>
      var cl := s.clients[c];
      s.(clients := s.clients[c := cl.(wire := cl.wire[1..], view := Handle(cl.view, cl.wire[0]))])
  }

  /** A client shows what it showed until something is delivered to it, through reconnects too. */
  lemma ShowsUntilDelivery(s: Sys, e: Event, c: nat)
    requires Enabled(s, e) && c in s.clients && e != Deliver(c)
    ensures c in After(s, e).clients && After(s, e).clients[c].view == s.clients[c].view
  {
  }

  ghost predicate IsRun(states: seq<Sys>, events: seq<Event>) {
    && |states| == |events| + 1
    && forall k :: 0 <= k < |events| ==> Enabled(states[k], events[k]) && states[k + 1] == After(states[k], events[k])
  }

  // ----- replaying -----

  /** What client `cl` will show once it has received and handled everything already sent. */
  function Future(cl: Client, sent: seq<Message>): View
    requires cl.cursor <= |sent|
  {
    Replay(Fold(cl.view, cl.wire), sent[cl.cursor..])
  }

  /** Position of the last message about issue `id`, or -1. */
  function LastAbout(sent: seq<Message>, id: nat): (k: int)
    ensures -1 <= k < |sent|
    ensures k >= 0 ==> sent[k].issue.id == id
    ensures forall j :: k < j < |sent| ==> sent[j].issue.id != id
  {
    if sent == [] then -1
    else if sent[|sent| - 1].issue.id == id then |sent| - 1
    else LastAbout(sent[..|sent| - 1], id)
  }

  function Get(view: View, id: nat): Option<Issue> {
    if id in view then Some(view[id]) else None
  }

  /** The fold in closed form: the last message about an issue wins, else the old value stays. */
  lemma {:induction false} ReplayAt(view: View, msgs: seq<Message>, id: nat)
    ensures var k := LastAbout(msgs, id);
            Get(Replay(view, msgs), id) == if k >= 0 then Some(msgs[k].issue) else Get(view, id)
  {
    if msgs != [] {
      ReplayAt(view, msgs[..|msgs| - 1], id);
    }
  }

  lemma LastUnique(sent: seq<Message>, id: nat, k: int)
    requires -1 <= k < |sent| && (k >= 0 ==> sent[k].issue.id == id)
    requires forall j :: k < j < |sent| ==> sent[j].issue.id != id
    ensures LastAbout(sent, id) == k
  {
  }

  /** Where the last message about an issue is, from a suffix of the log. */
  lemma LastInSuffix(sent: seq<Message>, from: nat, id: nat)
    requires from <= |sent|
    ensures var k := LastAbout(sent, id);
            LastAbout(sent[from..], id) == if k >= from then k - from else -1
  {
    var k := LastAbout(sent, id);
    LastUnique(sent[from..], id, if k >= from then k - from else -1);
  }

  lemma LastInAppend(a: seq<Message>, b: seq<Message>, id: nat)
    ensures LastAbout(a + b, id) == if LastAbout(b, id) >= 0 then |a| + LastAbout(b, id) else LastAbout(a, id)
  {
    var k := LastAbout(b, id);
    LastUnique(a + b, id, if k >= 0 then |a| + k else LastAbout(a, id));
  }

  /** `Future`, issue by issue. */
  lemma FutureAt(cl: Client, sent: seq<Message>, id: nat)
    requires cl.cursor <= |sent|
    ensures var k := LastAbout(sent, id);
            Get(Future(cl, sent), id) == if k >= cl.cursor then Some(sent[k].issue) else Get(Fold(cl.view, cl.wire), id)
  {
    ReplayAt(Fold(cl.view, cl.wire), sent[cl.cursor..], id);
    LastInSuffix(sent, cl.cursor, id);
  }

  lemma SameView(a: View, b: View)
    requires forall id :: Get(a, id) == Get(b, id)
    ensures a == b
  {
    assert forall id :: id in a <==> Get(a, id).Some?;
    assert forall id :: id in b <==> Get(b, id).Some?;
    assert forall id :: id in a ==> Get(a, id) == Some(a[id]) && Get(b, id) == Some(b[id]);
  }

  lemma {:induction false} ReplayAppend(view: View, a: seq<Message>, b: seq<Message>)
    ensures Replay(view, a + b) == Replay(Replay(view, a), b)
  {
    if b == [] {
      assert a + b == a;
    } else {
      ReplayAppend(view, a, b[..|b| - 1]);
      assert (a + b)[..|a + b| - 1] == a + b[..|b| - 1];
    }
  }

  lemma {:induction false} FoldCons(view: View, f: Frame, rest: seq<Frame>)
    ensures Fold(view, [f] + rest) == Fold(Handle(view, f), rest)
  {
    if rest == [] {
      assert [f] + rest == [f] && [f][..0] == [];
    } else {
      FoldCons(view, f, rest[..|rest| - 1]);
      assert ([f] + rest)[..|[f] + rest| - 1] == [f] + rest[..|rest| - 1];
    }
  }

  lemma FoldSnoc(view: View, frames: seq<Frame>, f: Frame)
    ensures Fold(view, frames + [f]) == Handle(Fold(view, frames), f)
  {
    assert (frames + [f])[..|frames + [f]| - 1] == frames;
  }

  lemma {:induction false} ResetAt(rows: seq<Issue>, issues: map<nat, Issue>)
    requires forall k :: 0 <= k < |rows| ==> rows[k].id in issues && issues[rows[k].id] == rows[k]
    ensures forall i :: i in Reset(rows) <==> i in issues && issues[i] in rows
    ensures forall i :: i in Reset(rows) ==> i in issues && Reset(rows)[i] == issues[i]
    requires forall i :: i in issues ==> issues[i].id == i
  {
    if rows != [] {
      var n := |rows| - 1;
      ResetAt(rows[..n], issues);
      forall i ensures i in Reset(rows) <==> i in issues && issues[i] in rows {
        assert rows == rows[..n] + [rows[n]];
      }
    }
  }

  /** A snapshot is the issue table, whatever order the rows come in. */
  lemma SnapshotIsTable(rows: seq<Issue>, issues: map<nat, Issue>)
    requires Lists(rows, issues) && forall i :: i in issues ==> issues[i].id == i
    ensures Reset(rows) == issues
  {
    ResetAt(rows, issues);
  }

  // ----- the server's side: every change to an issue is announced -----

  predicate Broadcasting(op: Op) {
    op.Ingest? || op.PutStatus?
  }

  lemma DigestOneAnnounces(w: World, input: Input)
    requires Sound(w.db)
    ensures var r := UpsertIssue(w.db, input).1;
            && DigestOne(w, input).sent == w.sent + [MessageFor(r)]
            && DigestOne(w, input).db.issues == w.db.issues[r.issue.id := r.issue]
            && MessageFor(r).issue == r.issue
  {
  }

  lemma ReplaySnoc(view: View, msgs: seq<Message>, m: Message)
    ensures Replay(view, msgs + [m]) == Replay(view, msgs)[m.issue.id := m.issue]
  {
    assert (msgs + [m])[..|msgs + [m]| - 1] == msgs;
  }

  lemma {:induction false} DigestAnnounces(w: World, inputs: seq<Input>)
    requires Sound(w.db)
    ensures var v := DigestAll(w, inputs);
            && w.sent <= v.sent
            && Replay(w.db.issues, v.sent[|w.sent|..]) == v.db.issues
  {
    if inputs != [] {
      var n := |inputs| - 1;
      var u, v := DigestAll(w, inputs[..n]), DigestAll(w, inputs);
      DigestAnnounces(w, inputs[..n]);
      DigestAllSound(w, inputs[..n]);
      DigestOneAnnounces(u, inputs[n]);
      var m := MessageFor(UpsertIssue(u.db, inputs[n]).1);
      assert v.sent[|w.sent|..] == u.sent[|w.sent|..] + [m];
      ReplaySnoc(w.db.issues, u.sent[|w.sent|..], m);
    }
  }

  /** Folding the messages a step sends into the old issue table gives the new one. */
  lemma StepAnnounces(w: World, op: Op)
    requires Sound(w.db) && Broadcasting(op)
    ensures var v := Step(w, op);
            && w.sent <= v.sent
            && Replay(w.db.issues, v.sent[|w.sent|..]) == v.db.issues
  {
    var v := Step(w, op);
    match op
    case Ingest(batch) =>
      if batch.commits {
        assert batch == Batch(batch.inputs, true);
        BatchIsItsEvents(w, batch.inputs);
        DigestAnnounces(w, batch.inputs);
      } else {
        assert v.sent[|w.sent|..] == [];
      }
    case PutStatus(id, status) =>
      if id in w.db.issues {
        var row := SetStatus(w.db, id, status).1.value;
        assert v.sent[|w.sent|..] == [IssueUpdated(row)];
        assert [IssueUpdated(row)][..0] == [];
      } else {
        assert v.sent[|w.sent|..] == [];
      }
  }

  // ----- convergence -----

  /** The cursor is within the log, what was lost is behind it, and nothing is on the socket before the snapshot. */
  predicate Placed(cl: Client, sent: seq<Message>) {
    && cl.cursor <= |sent|
    && (forall k :: k in cl.dropped ==> 0 <= k < cl.cursor)
    && (!cl.live ==> cl.wire == [] && cl.dropped == {})
  }

  /**
   About issue `id`: a live client ends up with the server's row, unless the last
   message about it was dropped; before the snapshot, what is queued adds nothing to
   the table.
   */
  ghost predicate TracksAt(cl: Client, sent: seq<Message>, issues: View, id: nat)
    requires cl.cursor <= |sent|
  {
    if cl.live then LastAbout(sent, id) !in cl.dropped ==> Get(Future(cl, sent), id) == Get(issues, id)
    else Get(Replay(issues, sent[cl.cursor..]), id) == Get(issues, id)
  }

  ghost predicate TracksBut(cl: Client, sent: seq<Message>, issues: View, stale: set<nat>) {
    Placed(cl, sent) && forall id :: id !in stale ==> TracksAt(cl, sent, issues, id)
  }

  ghost predicate Tracks(s: Sys, c: nat, stale: set<nat>) {
    c in s.clients && TracksBut(s.clients[c], s.world.sent, s.world.db.issues, stale)
  }

  lemma SubscribeTracks(s: Sys, c: nat)
    ensures Tracks(After(s, Subscribe(c)), c, {})
  {
    assert s.world.sent[|s.world.sent|..] == [];
  }

  // ----- a broadcast -----

  lemma QueueGrows(sent: seq<Message>, news: seq<Message>, i: nat)
    requires i <= |sent|
    ensures (sent + news)[i..] == sent[i..] + news
  {
  }

  /** An announced issue, or one that was tracked and is not announced, is tracked after the broadcast. */
  lemma QueuedAt(queue: seq<Message>, news: seq<Message>, before: View, after: View, id: nat)
    requires Replay(before, news) == after
    requires LastAbout(news, id) >= 0 || Get(Replay(before, queue), id) == Get(before, id)
    ensures Get(Replay(after, queue + news), id) == Get(after, id)
  {
    LastInAppend(queue, news, id);
    ReplayAt(after, queue + news, id);
    ReplayAt(before, news, id);
    ReplayAt(before, queue, id);
  }

  lemma StillAgrees(cl: Client, sent: seq<Message>, news: seq<Message>, before: View, after: View, id: nat)
    requires cl.cursor <= |sent| && Replay(before, news) == after
    requires LastAbout(news, id) < 0 ==> Get(Future(cl, sent), id) == Get(before, id)
    ensures Get(Future(cl, sent + news), id) == Get(after, id)
  {
    LastInAppend(sent, news, id);
    ReplayAt(before, news, id);
    FutureAt(cl, sent + news, id);
    FutureAt(cl, sent, id);
  }

  lemma NewsAt(cl: Client, sent: seq<Message>, news: seq<Message>, before: View, after: View, id: nat)
    requires Placed(cl, sent) && Replay(before, news) == after
    requires LastAbout(news, id) >= 0 || TracksAt(cl, sent, before, id)
    ensures TracksAt(cl, sent + news, after, id)
  {
    if cl.live {
      if LastAbout(sent + news, id) !in cl.dropped {
        LastInAppend(sent, news, id);
        StillAgrees(cl, sent, news, before, after, id);
      }
    } else {
      QueuedAt(sent[cl.cursor..], news, before, after, id);
      QueueGrows(sent, news, cl.cursor);
    }
  }

  ghost function Announced(news: seq<Message>): set<nat> {
    set k | 0 <= k < |news| :: news[k].issue.id
  }

  lemma AnnouncedAt(news: seq<Message>, id: nat)
    requires id in Announced(news)
    ensures LastAbout(news, id) >= 0
  {
  }

  lemma NewsTracks(cl: Client, sent: seq<Message>, news: seq<Message>, before: View, after: View, stale: set<nat>)
    requires TracksBut(cl, sent, before, stale) && Replay(before, news) == after
    ensures TracksBut(cl, sent + news, after, stale - Announced(news))
  {
    forall id | id !in stale - Announced(news) ensures TracksAt(cl, sent + news, after, id) {
      if id in stale {
        AnnouncedAt(news, id);
      }
      NewsAt(cl, sent, news, before, after, id);
    }
  }

  // ----- a change nobody announces -----

  /** The issues whose rows differ. */
  ghost function Changed(before: View, after: View): set<nat> {
    set id | id in before.Keys + after.Keys && Get(before, id) != Get(after, id)
  }

  lemma ChangeTracks(cl: Client, sent: seq<Message>, before: View, after: View, stale: set<nat>)
    requires TracksBut(cl, sent, before, stale)
    ensures TracksBut(cl, sent, after, stale + Changed(before, after))
  {
    forall id | id !in stale + Changed(before, after) ensures TracksAt(cl, sent, after, id) {
      assert TracksAt(cl, sent, before, id);
      if !cl.live {
        ReplayAt(before, sent[cl.cursor..], id);
        ReplayAt(after, sent[cl.cursor..], id);
      }
    }
  }

  // ----- the snapshot and the queue -----

  lemma SnapshotFuture(cl: Client, sent: seq<Message>, rows: seq<Issue>, issues: View, t: Client)
    requires Placed(cl, sent) && !cl.live && Reset(rows) == issues
    requires t == cl.(live := true, wire := cl.wire + [Hello, Snapshot(rows)])
    ensures Future(t, sent) == Replay(issues, sent[cl.cursor..])
  {
    FoldSnoc(cl.view, [Hello], Snapshot(rows));
    assert t.wire == [Hello] + [Snapshot(rows)];
  }

  /** The snapshot settles every issue no queued message is about. */
  lemma SnapshotTracks(cl: Client, sent: seq<Message>, rows: seq<Issue>, issues: View, stale: set<nat>, t: Client)
    requires TracksBut(cl, sent, issues, stale) && !cl.live && Reset(rows) == issues
    requires t == cl.(live := true, wire := cl.wire + [Hello, Snapshot(rows)])
    ensures TracksBut(t, sent, issues, stale * Announced(sent[cl.cursor..]))
  {
    var queue := sent[cl.cursor..];
    SnapshotFuture(cl, sent, rows, issues, t);
    forall id | id !in stale * Announced(queue) ensures TracksAt(t, sent, issues, id) {
      ReplayAt(issues, queue, id);
      assert id !in stale ==> TracksAt(cl, sent, issues, id);
    }
  }

  /** Taking a message off the queue does not change what the queue will do; losing some may. */
  lemma ReceivedAt(cl: Client, sent: seq<Message>, issues: View, id: nat)
    requires Placed(cl, sent) && cl.live && cl.cursor < |sent| && TracksAt(cl, sent, issues, id)
    ensures TracksAt(Received1(cl, sent), sent, issues, id)
  {
    var t := Received1(cl, sent);
    if cl.cursor >= Oldest(sent) {
      FoldSnoc(cl.view, cl.wire, Push(sent[cl.cursor]));
    }
    FutureAt(cl, sent, id);
    FutureAt(t, sent, id);
  }

  lemma ReceivedTracks(cl: Client, sent: seq<Message>, issues: View, stale: set<nat>)
    requires TracksBut(cl, sent, issues, stale) && cl.live && cl.cursor < |sent|
    ensures TracksBut(Received1(cl, sent), sent, issues, stale)
  {
    forall id | id !in stale ensures TracksAt(Received1(cl, sent), sent, issues, id) {
      ReceivedAt(cl, sent, issues, id);
    }
  }

  lemma DeliveredTracks(cl: Client, sent: seq<Message>, issues: View, stale: set<nat>, t: Client)
    requires TracksBut(cl, sent, issues, stale) && cl.wire != []
    requires t == cl.(wire := cl.wire[1..], view := Handle(cl.view, cl.wire[0]))
    ensures TracksBut(t, sent, issues, stale)
  {
    FoldCons(cl.view, cl.wire[0], cl.wire[1..]);
    assert [cl.wire[0]] + cl.wire[1..] == cl.wire;
    assert Future(t, sent) == Future(cl, sent);
    forall id | id !in stale ensures TracksAt(t, sent, issues, id) {
      assert TracksAt(cl, sent, issues, id);
    }
  }

  // ----- runs -----

  /**
   The issues client c may be wrong about: those an unannounced step changed, until
   the next message about them or the snapshot, unless a message sent before the
   change is still to come.
   */
  ghost function StaleAfter(s: Sys, e: Event, c: nat, stale: set<nat>): set<nat>
    requires Enabled(s, e)
  {
    match e
    case Server(op) =>
      var v := Step(s.world, op);
      if Broadcasting(op) then stale - Announced(v.sent[|s.world.sent|..])
      else stale + Changed(s.world.db.issues, v.db.issues)
    case Subscribe(d) => if d == c then {} else stale
    case LoadSnapshot(d, _) =>
      if d == c && s.clients[c].cursor <= |s.world.sent| then stale * Announced(s.world.sent[s.clients[c].cursor..]) else stale
    case _ => stale
  }

  ghost function Stale(states: seq<Sys>, events: seq<Event>, c: nat): set<nat>
    requires IsRun(states, events)
  {
    if events == [] then {}
    else
      var n := |events| - 1;
      StaleAfter(states[n], events[n], c, Stale(states[..n + 1], events[..n], c))
  }

  lemma ServerTracks(s: Sys, op: Op, c: nat, stale: set<nat>)
    requires Sound(s.world.db) && Tracks(s, c, stale)
    ensures Tracks(After(s, Server(op)), c, StaleAfter(s, Server(op), c, stale))
  {
    var w, v := s.world, Step(s.world, op);
    if Broadcasting(op) {
      StepAnnounces(w, op);
      var news := v.sent[|w.sent|..];
      assert v.sent == w.sent + news;
      NewsTracks(s.clients[c], w.sent, news, w.db.issues, v.db.issues, stale);
    } else {
      ChangeTracks(s.clients[c], w.sent, w.db.issues, v.db.issues, stale);
    }
  }

  /** Steps about other clients leave client c and the server alone. */
  lemma EventTracks(s: Sys, e: Event, c: nat, stale: set<nat>)
    requires Sound(s.world.db) && Tracks(s, c, stale) && Enabled(s, e)
    ensures Tracks(After(s, e), c, StaleAfter(s, e, c, stale)) && Sound(After(s, e).world.db)
  {
    var sent, issues := s.world.sent, s.world.db.issues;
    match e
    case Server(op) =>
      ServerTracks(s, op, c, stale);
      StepSound(s.world, op);
    case Subscribe(d) =>
      if d == c { SubscribeTracks(s, c); }
    case LoadSnapshot(d, rows) =>
      if d == c {
        SnapshotIsTable(rows, issues);
        SnapshotTracks(s.clients[c], sent, rows, issues, stale, After(s, e).clients[c]);
      }
    case Receive(d) =>
      if d == c { ReceivedTracks(s.clients[c], sent, issues, stale); }
    case Deliver(d) =>
      if d == c { DeliveredTracks(s.clients[c], sent, issues, stale, After(s, e).clients[c]); }
  }

  lemma {:induction false} RunTracks(states: seq<Sys>, events: seq<Event>, c: nat)
    requires IsRun(states, events) && |events| > 0
    requires Sound(states[0].world.db) && events[0] == Subscribe(c)
    ensures Sound(states[|events|].world.db) && Tracks(states[|events|], c, Stale(states, events, c))
  {
    var n := |events| - 1;
    if n == 0 {
      SubscribeTracks(states[0], c);
      assert states[1] == After(states[0], events[0]);
    } else {
      RunTracks(states[..n + 1], events[..n], c);
      assert states[..n + 1][n] == states[n];
      EventTracks(states[n], events[n], c, Stale(states[..n + 1], events[..n], c));
    }
  }

  /** Drained: nothing is queued and nothing is on the socket. */
  predicate Drained(cl: Client, sent: seq<Message>) {
    cl.live && cl.cursor == |sent| && cl.wire == []
  }

  lemma DrainedShows(cl: Client, sent: seq<Message>)
    requires Drained(cl, sent)
    ensures Future(cl, sent) == cl.view
  {
    assert sent[cl.cursor..] == [];
  }

  /**
   Issue by issue, in any run that starts with client c subscribing: once drained,
   c shows the server's row (or none, as the server) for every issue that is not
   stale and whose last message lag did not drop.
   */
  lemma ConvergesByIssue(states: seq<Sys>, events: seq<Event>, c: nat, id: nat)
    requires IsRun(states, events) && |events| > 0
    requires Sound(states[0].world.db) && events[0] == Subscribe(c)
    requires id !in Stale(states, events, c)
    ensures var s := states[|events|];
            && c in s.clients && s.clients[c].cursor <= |s.world.sent|
            && var cl, sent, issues := s.clients[c], s.world.sent, s.world.db.issues;
            cl.live && LastAbout(sent, id) !in cl.dropped ==>
              && Get(Future(cl, sent), id) == Get(issues, id)
              && (Drained(cl, sent) ==> Get(cl.view, id) == Get(issues, id))
  {
    RunTracks(states, events, c);
    var s := states[|events|];
    assert TracksAt(s.clients[c], s.world.sent, s.world.db.issues, id);
    if Drained(s.clients[c], s.world.sent) {
      DrainedShows(s.clients[c], s.world.sent);
    }
  }

  /** No unannounced step of the run changed the issue. */
  ghost predicate Untouched(states: seq<Sys>, events: seq<Event>, id: nat)
    requires IsRun(states, events)
  {
    forall k :: 0 <= k < |events| && events[k].Server? && !Broadcasting(events[k].op) ==>
      Get(states[k].world.db.issues, id) == Get(states[k + 1].world.db.issues, id)
  }

  lemma {:induction false} UntouchedIsFresh(states: seq<Sys>, events: seq<Event>, c: nat, id: nat)
    requires IsRun(states, events) && Untouched(states, events, id)
    ensures id !in Stale(states, events, c)
  {
    if events != [] {
      var n := |events| - 1;
      UntouchedIsFresh(states[..n + 1], events[..n], c, id);
      assert states[n + 1] == After(states[n], events[n]);
    }
  }

  ghost predicate Quiet(e: Event) {
    e.Server? ==> Broadcasting(e.op)
  }

  /**
   Convergence. Take any run that starts with client c subscribing (first connect
   or reconnect, whatever it showed before) and in which the server only ingests
   and changes statuses. At its end, if c is live:
   the queue it has not handled yet folds into the server's row for every issue
   whose last message lag did not drop; with no lag, into exactly the issue table;
   and once drained, the view itself is that.
   */
  lemma Converges(states: seq<Sys>, events: seq<Event>, c: nat)
    requires IsRun(states, events) && |events| > 0
    requires Sound(states[0].world.db) && events[0] == Subscribe(c)
    requires forall k :: 0 <= k < |events| ==> Quiet(events[k])
    ensures var s := states[|events|];
            && Sound(s.world.db) && Tracks(s, c, {})
            && var cl, sent, issues := s.clients[c], s.world.sent, s.world.db.issues;
            && (cl.live && cl.dropped == {} ==> Future(cl, sent) == issues)
            && (Drained(cl, sent) ==>
                  && (forall id :: LastAbout(sent, id) !in cl.dropped ==> Get(cl.view, id) == Get(issues, id))
                  && (cl.dropped == {} ==> cl.view == issues))
  {
    RunTracks(states, events, c);
    forall id ensures id !in Stale(states, events, c) {
      UntouchedIsFresh(states, events, c, id);
    }
    var cl, sent, issues := states[|events|].clients[c], states[|events|].world.sent, states[|events|].world.db.issues;
    TracksAll(cl, sent, issues);
  }

  lemma TracksAll(cl: Client, sent: seq<Message>, issues: View)
    requires TracksBut(cl, sent, issues, {})
    ensures cl.live && cl.dropped == {} ==> Future(cl, sent) == issues
    ensures Drained(cl, sent) ==> forall id :: LastAbout(sent, id) !in cl.dropped ==> Get(cl.view, id) == Get(issues, id)
    ensures Drained(cl, sent) && cl.dropped == {} ==> cl.view == issues
  {
    if cl.live && cl.dropped == {} {
      forall id ensures Get(Future(cl, sent), id) == Get(issues, id) {
        assert TracksAt(cl, sent, issues, id);
      }
      SameView(Future(cl, sent), issues);
    }
    if Drained(cl, sent) {
      DrainedShows(cl, sent);
      forall id | LastAbout(sent, id) !in cl.dropped ensures Get(cl.view, id) == Get(issues, id) {
        assert TracksAt(cl, sent, issues, id);
      }
    }
  }

  // ----- with sweeps, renames and deletes: only past values -----

  ghost function Rows(issues: map<nat, Issue>): set<Issue> {
    set i | i in issues :: issues[i]
  }

  /** Every value any row has after each of the given events. */
  ghost function RowsDuring(w: World, inputs: seq<Input>): set<Issue> {
    if inputs == [] then Rows(w.db.issues)
    else RowsDuring(w, inputs[..|inputs| - 1]) + Rows(DigestAll(w, inputs).db.issues)
  }

  /** Every value a row takes during one server step, including inside a batch's transaction. */
  ghost function Written(w: World, op: Op): set<Issue> {
    if op.Ingest? && op.batch.commits then RowsDuring(w, op.batch.inputs) else Rows(Step(w, op).db.issues)
  }

  /** Every value any row ever had along a run. */
  ghost function History(states: seq<Sys>, events: seq<Event>): set<Issue>
    requires IsRun(states, events)
  {
    if events == [] then Rows(states[0].world.db.issues)
    else
      var n := |events| - 1;
      History(states[..n + 1], events[..n])
        + if events[n].Server? then Written(states[n].world, events[n].op) else {}
  }

  ghost predicate FrameFrom(f: Frame, past: set<Issue>) {
    match f
    case Hello => true
    case Snapshot(rows) => forall k :: 0 <= k < |rows| ==> rows[k] in past
    case Push(msg) => msg.issue in past
  }

  ghost predicate ViewFrom(view: View, past: set<Issue>) {
    forall i :: i in view ==> view[i] in past && view[i].id == i
  }

  ghost predicate ClientFrom(cl: Client, past: set<Issue>) {
    && ViewFrom(cl.view, past)
    && forall k :: 0 <= k < |cl.wire| ==> FrameFrom(cl.wire[k], past)
  }

  /** Counts of a past value never exceed the row's present count; its id has been allocated. */
  ghost predicate PastOf(t: Tables, past: set<Issue>) {
    && Rows(t.issues) <= past
    && forall h :: h in past ==> h.id < t.nextIssue && (h.id in t.issues ==> h.eventCount <= t.issues[h.id].eventCount)
  }

  ghost predicate MsgsFrom(sent: seq<Message>, past: set<Issue>) {
    forall k :: 0 <= k < |sent| ==> sent[k].issue in past
  }

  ghost predicate ClientsFrom(s: Sys, past: set<Issue>) {
    forall c :: c in s.clients ==> ClientFrom(s.clients[c], past)
  }

  lemma {:induction false} DigestPast(w: World, inputs: seq<Input>, past: set<Issue>)
    requires Sound(w.db) && PastOf(w.db, past) && MsgsFrom(w.sent, past)
    ensures var v := DigestAll(w, inputs);
            var all := past + RowsDuring(w, inputs);
            PastOf(v.db, all) && MsgsFrom(v.sent, all)
  {
    if inputs == [] {
      assert past + RowsDuring(w, inputs) == past;
    } else {
      var n := |inputs| - 1;
      var u := DigestAll(w, inputs[..n]);
      var before := past + RowsDuring(w, inputs[..n]);
      DigestPast(w, inputs[..n], past);
      DigestAllSound(w, inputs[..n]);
      DigestOnePast(u, inputs[n], before);
      assert past + RowsDuring(w, inputs) == before + Rows(DigestOne(u, inputs[n]).db.issues);
    }
  }

  /** One event allocates at most one id, loses no row and lowers no count; what it sends is a row it wrote. */
  lemma DigestOneGrows(w: World, input: Input)
    requires Sound(w.db)
    ensures var v := DigestOne(w, input);
            && Grows(w.db, v.db) && UpsertIssue(w.db, input).1.issue in Rows(v.db.issues)
  {
    var v := DigestOne(w, input);
    var (u, r) := UpsertIssue(w.db, input);
    UpsertGrows(w.db, input, u, r);
    assert v.db.issues == u.issues && v.db.nextIssue == u.nextIssue;
    assert u.issues[r.issue.id] == r.issue;
  }

  /** No row is lost, no count is lowered, new ids are fresh. */
  ghost predicate Grows(t: Tables, u: Tables) {
    && t.nextIssue <= u.nextIssue
    && (forall i :: i in t.issues ==> i in u.issues && t.issues[i].eventCount <= u.issues[i].eventCount)
    && (forall i :: i in u.issues ==> u.issues[i].id == i && (i in t.issues || i >= t.nextIssue) && i < u.nextIssue)
  }

  lemma UpsertGrows(t: Tables, input: Input, u: Tables, r: UpsertResult)
    requires Sound(t) && (u, r) == UpsertIssue(t, input)
    ensures Grows(t, u) && r.issue.id in u.issues && u.issues[r.issue.id] == r.issue
  {
  }

  /** Row values stay past values while the rows are kept, their counts grow and new ids are fresh. */
  lemma PastGrows(t: Tables, u: Tables, past: set<Issue>, all: set<Issue>)
    requires PastOf(t, past) && all == past + Rows(u.issues) && Grows(t, u)
    ensures PastOf(u, all)
  {
    forall h | h in all ensures h.id < u.nextIssue && (h.id in u.issues ==> h.eventCount <= u.issues[h.id].eventCount) {
      if h !in past {
        assert h in Rows(u.issues);
      }
    }
  }

  lemma DigestOnePast(w: World, input: Input, past: set<Issue>)
    requires Sound(w.db) && PastOf(w.db, past) && MsgsFrom(w.sent, past)
    ensures var v := DigestOne(w, input);
            var all := past + Rows(v.db.issues);
            PastOf(v.db, all) && MsgsFrom(v.sent, all)
  {
    var v := DigestOne(w, input);
    var all := past + Rows(v.db.issues);
    DigestOneGrows(w, input);
    PastGrows(w.db, v.db, past, all);
    DigestOneAnnounces(w, input);
    MsgsGrow(w.sent, MessageFor(UpsertIssue(w.db, input).1), past, all, v.sent);
  }

  lemma MsgsGrow(sent: seq<Message>, m: Message, past: set<Issue>, all: set<Issue>, now: seq<Message>)
    requires MsgsFrom(sent, past) && past <= all && m.issue in all && now == sent + [m]
    ensures MsgsFrom(now, all)
  {
  }

  lemma ServerPast(w: World, op: Op, past: set<Issue>)
    requires Sound(w.db) && PastOf(w.db, past) && MsgsFrom(w.sent, past)
    ensures var v := Step(w, op);
            var all := past + Written(w, op);
            PastOf(v.db, all) && MsgsFrom(v.sent, all)
  {
    if op.Ingest? {
      if op.batch.commits {
        assert op.batch == Batch(op.batch.inputs, true);
        BatchIsItsEvents(w, op.batch.inputs);
        DigestPast(w, op.batch.inputs, past);
      }
    } else {
      CountsPast(w, op, past);
      StatusSends(w, op);
    }
  }

  lemma CountsPast(w: World, op: Op, past: set<Issue>)
    requires Sound(w.db) && PastOf(w.db, past) && !op.Ingest?
    ensures PastOf(Step(w, op).db, past + Rows(Step(w, op).db.issues))
  {
    CountsStay(w, op);
    StepSound(w, op);
  }

  /** Between batches only a status change sends, and what it sends is the row it wrote. */
  lemma StatusSends(w: World, op: Op)
    requires !op.Ingest? && Sound(w.db)
    ensures var v := Step(w, op);
            v.sent == w.sent || (|v.sent| == |w.sent| + 1 && v.sent[..|w.sent|] == w.sent
                                 && v.sent[|w.sent|].issue in Rows(v.db.issues))
  {
    var v := Step(w, op);
    if op.PutStatus? && op.id in w.db.issues {
      assert v.db.issues[op.id] in Rows(v.db.issues);
    }
  }

  lemma CountsStay(w: World, op: Op)
    requires !op.Ingest?
    ensures var v := Step(w, op);
            && v.db.nextIssue == w.db.nextIssue
            && (forall i :: i in v.db.issues ==> i in w.db.issues && v.db.issues[i].eventCount == w.db.issues[i].eventCount)
  {
  }

  lemma {:induction false} ResetFrom(rows: seq<Issue>, past: set<Issue>)
    requires forall k :: 0 <= k < |rows| ==> rows[k] in past
    ensures ViewFrom(Reset(rows), past)
  {
    if rows != [] {
      ResetFrom(rows[..|rows| - 1], past);
    }
  }

  lemma ClientPast(s: Sys, e: Event, past: set<Issue>)
    requires Enabled(s, e) && !e.Server?
    requires Rows(s.world.db.issues) <= past && MsgsFrom(s.world.sent, past) && ClientsFrom(s, past)
    ensures ClientsFrom(After(s, e), past)
  {
    var u := After(s, e);
    match e
    case Server(op) =>
    case Subscribe(c) =>
    case LoadSnapshot(c, rows) =>
      forall k | 0 <= k < |rows| ensures rows[k] in past {
        assert s.world.db.issues[rows[k].id] in Rows(s.world.db.issues);
      }
      assert ClientFrom(u.clients[c], past);
    case Receive(c) =>
      assert ClientFrom(u.clients[c], past);
    case Deliver(c) =>
      var f := s.clients[c].wire[0];
      assert FrameFrom(f, past);
      if f.Snapshot? {
        ResetFrom(f.rows, past);
      }
      assert ClientFrom(u.clients[c], past);
  }

  /**
   Whatever happens in a run - lag, sweeps, renames and deletes included - each
   copy a client shows is a value its row once had, and its event count never
   exceeds the store's.
   */
  lemma {:induction false} ViewsArePast(states: seq<Sys>, events: seq<Event>)
    requires IsRun(states, events) && states[0] == Sys(START, map[])
    ensures var s := states[|events|];
            var past := History(states, events);
            && Sound(s.world.db) && PastOf(s.world.db, past) && MsgsFrom(s.world.sent, past) && ClientsFrom(s, past)
            && forall c, i :: c in s.clients && i in s.clients[c].view ==>
                 var copy := s.clients[c].view[i];
                 && copy in past && copy.id == i
                 && (i in s.world.db.issues ==> copy.eventCount <= s.world.db.issues[i].eventCount)
  {
    var n := |events|;
    if n > 0 {
      var s, e := states[n - 1], events[n - 1];
      ViewsArePast(states[..n], events[..n - 1]);
      assert states[..n][n - 1] == s && states[..n - 1 + 1] == states[..n];
      var past := History(states[..n], events[..n - 1]);
      if e.Server? {
        ServerPast(s.world, e.op, past);
        StepSound(s.world, e.op);
        Weaker(s, past, past + Written(s.world, e.op));
      } else {
        ClientPast(s, e, past);
        assert past + {} == past;
      }
    }
    var s, past := states[n], History(states, events);
    forall c, i | c in s.clients && i in s.clients[c].view
      ensures s.clients[c].view[i] in past && s.clients[c].view[i].id == i
              && (i in s.world.db.issues ==> s.clients[c].view[i].eventCount <= s.world.db.issues[i].eventCount)
    {
      assert ClientFrom(s.clients[c], past);
    }
  }

  lemma Weaker(s: Sys, a: set<Issue>, b: set<Issue>)
    requires a <= b && ClientsFrom(s, a)
    ensures ClientsFrom(s, b)
  {
    forall c | c in s.clients ensures ClientFrom(s.clients[c], b) {
      assert ClientFrom(s.clients[c], a);
      forall k | 0 <= k < |s.clients[c].wire| ensures FrameFrom(s.clients[c].wire[k], b) {
        assert FrameFrom(s.clients[c].wire[k], a);
      }
    }
  }
}
