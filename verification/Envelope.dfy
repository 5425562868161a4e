/**
 `parse_envelope` (ingest.rs): a byte cursor over a Sentry envelope. Items are
 length-prefixed or run to the next newline. JSON is a parameter: what a header
 line says and whether a payload is an event are given functions of the bytes.
 */
module Envelope {
  import opened Octets
  import opened Wrappers

  const NEWLINE: Byte := 10

  /** `type` defaults to "" and `length` to None when absent or of another kind. */
  datatype ItemHeader = ItemHeader(kind: string, length: Option<nat>)

  /** `isJson`: the envelope header. `item`: an item header. `event`: a payload decoded as an event. */
  datatype Json<!E> = Json(isJson: Bytes -> bool, item: Bytes -> Option<ItemHeader>, event: Bytes -> Option<E>)

  /**
   `Overflow`: the `usize` addition of cursor and length leaves the range. Wrapped
   around, the end lies before the start and taking the slice ends the process.
   */
  datatype Error = MissingHeader | BadJson | LengthTooLong | Overflow

  const USIZE_LIMIT: nat := 0x1_0000_0000_0000_0000

  // ----- lines -----

  /** Position of the first newline at or after `start`, or the end. */
  function NewlineAt(raw: Bytes, start: nat): (p: nat)
    requires start <= |raw|
    ensures start <= p <= |raw|
    ensures forall k :: start <= k < p ==> raw[k] != NEWLINE
    ensures p < |raw| ==> raw[p] == NEWLINE
    decreases |raw| - start
  {
    if start < |raw| && raw[start] != NEWLINE then NewlineAt(raw, start + 1) else start
  }

  /** `read_line`: both offsets are one past the newline, or the end of the buffer. */
  function ReadLine(raw: Bytes, start: nat): (r: Option<(nat, nat)>)
    ensures r.None? <==> start >= |raw|
    ensures r.Some? ==> r.value.0 == r.value.1 && start < r.value.1 <= |raw|
  {
    if start >= |raw| then None
    else
      var p := NewlineAt(raw, start);
      var next := if p < |raw| then p + 1 else |raw|;
      Some((next, next))
  }

  // ----- the parser -----

  datatype Slice = Slice(from: nat, to: nat)

  /** The events, and the payload slices of all items, in order. */
  datatype Parsed<E> = Parsed(events: seq<E>, slices: seq<Slice>)

  /** Past the payload and the newline after it, if there is one. */
  function PastPayload(raw: Bytes, end: nat): nat {
    if end < |raw| && raw[end] == NEWLINE then end + 1 else end
  }

  function PayloadEnd(raw: Bytes, start: nat, h: ItemHeader): (r: Result<nat, Error>)
    requires start <= |raw|
    ensures r.Success? ==> start <= r.value <= |raw|
  {
    match h.length
    case Some(len) =>
      if start + len >= USIZE_LIMIT then Failure(Overflow)
      else if start + len > |raw| then Failure(LengthTooLong)
      else Success(start + len)
    case None => Success(NewlineAt(raw, start))
  }

  /** One turn of the loop: a blank line skipped, or an item with its payload. */
  datatype Turn<E> = Blank(next: nat) | Got(event: Option<E>, slice: Slice, next: nat)

  function TakeItem<E>(js: Json<E>, raw: Bytes, cursor: nat): (r: Result<Turn<E>, Error>)
    requires cursor < |raw|
    ensures r.Success? ==> cursor < r.value.next <= |raw|
    ensures r.Success? && r.value.Got? ==>
              cursor + 2 <= r.value.slice.from <= r.value.slice.to <= r.value.next <= r.value.slice.to + 1
  {
    var next := ReadLine(raw, cursor).value.1;
    var header := raw[cursor..next - 1];
    if header == [] then Success(Blank(next))
    else
      match js.item(header)
      case None => Failure(BadJson)
      case Some(h) =>
        match PayloadEnd(raw, next, h)
        case Failure(e) => Failure(e)
        case Success(end) =>
          var event := if h.kind == "event" then js.event(raw[next..end]) else None;
          if h.kind == "event" && event.None? then Failure(BadJson)
          else Success(Got(event, Slice(next, end), PastPayload(raw, end)))
  }

  function Add<E>(t: Turn<E>, rest: Parsed<E>): Parsed<E> {
    if t.Blank? then rest
    else Parsed((if t.event.Some? then [t.event.value] else []) + rest.events, [t.slice] + rest.slices)
  }

  function ParseItems<E>(js: Json<E>, raw: Bytes, cursor: nat): Result<Parsed<E>, Error>
    requires cursor <= |raw|
    decreases |raw| - cursor
  {
    if cursor >= |raw| then Success(Parsed([], []))
    else
      match TakeItem(js, raw, cursor)
      case Failure(e) => Failure(e)
      case Success(t) =>
        match ParseItems(js, raw, t.next)
        case Failure(e) => Failure(e)
        case Success(rest) => Success(Add(t, rest))
  }

  function Parse<E>(js: Json<E>, raw: Bytes): Result<Parsed<E>, Error> {
    match ReadLine(raw, 0)
    case None => Failure(MissingHeader)
    case Some((_, after)) =>
      if !js.isJson(raw[0..after - 1]) then Failure(BadJson) else ParseItems(js, raw, after)
  }

  /** What is still to come, behind what the loop has collected. */
  function Onto<E>(done: Parsed<E>, rest: Result<Parsed<E>, Error>): Result<Parsed<E>, Error> {
    match rest
    case Failure(_) => rest
    case Success(p) => Success(Parsed(done.events + p.events, done.slices + p.slices))
  }

  function Extend<E>(done: Parsed<E>, t: Turn<E>): Parsed<E> {
    if t.Blank? then done
    else Parsed(done.events + (if t.event.Some? then [t.event.value] else []), done.slices + [t.slice])
  }

  lemma OntoExtend<E>(done: Parsed<E>, t: Turn<E>, rest: Parsed<E>)
    ensures Onto(done, Success(Add(t, rest))) == Onto(Extend(done, t), Success(rest))
  {
    if t.Got? {
      var one := if t.event.Some? then [t.event.value] else [];
      assert done.events + (one + rest.events) == done.events + one + rest.events;
      assert done.slices + ([t.slice] + rest.slices) == done.slices + [t.slice] + rest.slices;
    }
  }

  lemma LoopTurn<E>(js: Json<E>, raw: Bytes, cursor: nat, done: Parsed<E>)
    requires cursor < |raw|
    ensures var t := TakeItem(js, raw, cursor);
            if t.Failure? then Onto(done, ParseItems(js, raw, cursor)) == Failure(t.error)
            else Onto(done, ParseItems(js, raw, cursor)) == Onto(Extend(done, t.value), ParseItems(js, raw, t.value.next))
  {
    var t := TakeItem(js, raw, cursor);
    if t.Success? && ParseItems(js, raw, t.value.next).Success? {
      OntoExtend(done, t.value, ParseItems(js, raw, t.value.next).value);
    }
  }

  lemma OntoEmpty<E>(rest: Result<Parsed<E>, Error>)
    ensures Onto(Parsed([], []), rest) == rest
  {
    if rest.Success? {
      assert [] + rest.value.events == rest.value.events && [] + rest.value.slices == rest.value.slices;
    }
  }

  method ParseEnvelope<E>(js: Json<E>, raw: Bytes) returns (r: Result<Parsed<E>, Error>)
    ensures r == Parse(js, raw)
  {
    var first := ReadLine(raw, 0);
    if first.None? {
      return Failure(MissingHeader);
    }
    var cursor := first.value.1;
    if !js.isJson(raw[0..cursor - 1]) {
      return Failure(BadJson);
    }
    r := ParseRest(js, raw, cursor);
  }

  method ParseRest<E>(js: Json<E>, raw: Bytes, start: nat) returns (r: Result<Parsed<E>, Error>)
    requires start <= |raw|
    ensures r == ParseItems(js, raw, start)
  {
    var cursor, done := start, Parsed([], []);
    OntoEmpty(ParseItems(js, raw, start));
    while cursor < |raw|
      invariant cursor <= |raw|
      invariant Onto(done, ParseItems(js, raw, cursor)) == ParseItems(js, raw, start)
      decreases |raw| - cursor
    {
      LoopTurn(js, raw, cursor, done);
      var turn := NextItem(js, raw, cursor);
      if turn.Failure? {
        return Failure(turn.error);
      }
      cursor := turn.value.next;
      done := Extend(done, turn.value);
    }
    assert done.events + [] == done.events && done.slices + [] == done.slices;
    return Success(done);
  }

  /** The loop's body. */
  method NextItem<E>(js: Json<E>, raw: Bytes, cursor: nat) returns (r: Result<Turn<E>, Error>)
    requires cursor < |raw|
    ensures r == TakeItem(js, raw, cursor)
  {
    var line := ReadLine(raw, cursor);
    var next := line.value.1;
    var header := raw[cursor..next - 1];
    if header == [] {
      return Success(Blank(next));
    }
    var item := js.item(header);
    if item.None? {
      return Failure(BadJson);
    }
    var end := PayloadEnd(raw, next, item.value);
    if end.Failure? {
      return Failure(end.error);
    }
    var event: Option<E> := None;
    if item.value.kind == "event" {
      event := js.event(raw[next..end.value]);
      if event.None? {
        return Failure(BadJson);
      }
    }
    return Success(Got(event, Slice(next, end.value), PastPayload(raw, end.value)));
  }

  // ----- when the addition overflows -----

  /** The line that starts at `start`, as the parser cuts it. */
  function LineFrom(raw: Bytes, start: nat): Bytes
    requires start < |raw|
  {
    raw[start..ReadLine(raw, start).value.1 - 1]
  }

  /** The item header that starts at `c` states a length that carries its payload past the range. */
  ghost predicate OverflowsAt<E>(js: Json<E>, raw: Bytes, c: nat) {
    && c < |raw| && LineFrom(raw, c) != []
    && var h := js.item(LineFrom(raw, c));
       h.Some? && h.value.length.Some? && ReadLine(raw, c).value.1 + h.value.length.value >= USIZE_LIMIT
  }

  /** Taking `n` items or blank lines brings the cursor from `cursor` to `c`. */
  ghost predicate Reaches<E>(js: Json<E>, raw: Bytes, cursor: nat, c: nat, n: nat)
    decreases n
  {
    if n == 0 then cursor == c
    else
      && cursor < |raw| && TakeItem(js, raw, cursor).Success?
      && Reaches(js, raw, TakeItem(js, raw, cursor).value.next, c, n - 1)
  }

  lemma ItemOverflow<E>(js: Json<E>, raw: Bytes, c: nat)
    requires c < |raw|
    ensures TakeItem(js, raw, c) == Failure(Overflow) <==> OverflowsAt(js, raw, c)
  {
  }

  lemma {:induction false} OverflowReached<E>(js: Json<E>, raw: Bytes, cursor: nat, c: nat, n: nat)
    requires cursor <= |raw| && Reaches(js, raw, cursor, c, n) && OverflowsAt(js, raw, c)
    ensures ParseItems(js, raw, cursor) == Failure(Overflow)
    decreases n
  {
    if n == 0 {
      ItemOverflow(js, raw, cursor);
    } else {
      OverflowReached(js, raw, TakeItem(js, raw, cursor).value.next, c, n - 1);
    }
  }

  lemma {:induction false} ReachOverflow<E>(js: Json<E>, raw: Bytes, cursor: nat) returns (c: nat, n: nat)
    requires cursor <= |raw| && ParseItems(js, raw, cursor) == Failure(Overflow)
    ensures Reaches(js, raw, cursor, c, n) && OverflowsAt(js, raw, c)
    decreases |raw| - cursor
  {
    ItemOverflow(js, raw, cursor);
    if OverflowsAt(js, raw, cursor) {
      c, n := cursor, 0;
    } else {
      c, n := ReachOverflow(js, raw, TakeItem(js, raw, cursor).value.next);
      n := n + 1;
    }
  }

  /** The parser gets to a header that overflows. */
  ghost predicate MeetsOverflow<E>(js: Json<E>, raw: Bytes, cursor: nat) {
    exists c: nat, n: nat :: Reaches(js, raw, cursor, c, n) && OverflowsAt(js, raw, c)
  }

  /** The parse overflows exactly when it gets to a header that does. */
  lemma OverflowIff<E>(js: Json<E>, raw: Bytes, cursor: nat)
    requires cursor <= |raw|
    ensures ParseItems(js, raw, cursor) == Failure(Overflow) <==> MeetsOverflow(js, raw, cursor)
  {
    if ParseItems(js, raw, cursor) == Failure(Overflow) {
      var c, n := ReachOverflow(js, raw, cursor);
      assert MeetsOverflow(js, raw, cursor);
    }
    if MeetsOverflow(js, raw, cursor) {
      var c: nat, n: nat :| Reaches(js, raw, cursor, c, n) && OverflowsAt(js, raw, c);
      OverflowReached(js, raw, cursor, c, n);
    }
  }

  lemma ParseOverflowIff<E>(js: Json<E>, raw: Bytes)
    ensures Parse(js, raw) == Failure(Overflow)
            <==> raw != [] && js.isJson(LineFrom(raw, 0)) && MeetsOverflow(js, raw, ReadLine(raw, 0).value.1)
  {
    if raw != [] {
      OverflowIff(js, raw, ReadLine(raw, 0).value.1);
    }
  }

  /** No line that reads as an item header states a length of 2^64 less the envelope's size, or more. */
  ghost predicate ModestLengths<E>(js: Json<E>, raw: Bytes) {
    forall start :: 0 <= start < |raw| ==>
      var h := js.item(LineFrom(raw, start));
      h.Some? && h.value.length.Some? ==> h.value.length.value < USIZE_LIMIT - |raw|
  }

  /** What a caller can check beforehand: with modest lengths every input gives events or an error. */
  lemma ModestNeverOverflows<E>(js: Json<E>, raw: Bytes)
    requires ModestLengths(js, raw)
    ensures Parse(js, raw) != Failure(Overflow)
  {
    ParseOverflowIff(js, raw);
    forall c: nat ensures !OverflowsAt(js, raw, c) {
      if c < |raw| {
        var h := js.item(LineFrom(raw, c));
        assert h.Some? && h.value.length.Some? ==> h.value.length.value < USIZE_LIMIT - |raw|;
      }
    }
  }

  // ----- slices -----

  /** In bounds, in order, and a header line lies before each. */
  ghost predicate Ordered(slices: seq<Slice>, from: nat, to: nat) {
    && (forall k :: 0 <= k < |slices| ==> from + 2 <= slices[k].from <= slices[k].to <= to)
    && (forall j, k :: 0 <= j < k < |slices| ==> slices[j].to + 2 <= slices[k].from)
  }

  /** Payload slices stay inside the envelope and are pairwise disjoint, with a header line before each. */
  lemma {:induction false} SlicesAreDisjoint<E>(js: Json<E>, raw: Bytes, cursor: nat)
    requires cursor <= |raw| && ParseItems(js, raw, cursor).Success?
    ensures Ordered(ParseItems(js, raw, cursor).value.slices, cursor, |raw|)
    decreases |raw| - cursor
  {
    if cursor < |raw| {
      SlicesAreDisjoint(js, raw, TakeItem(js, raw, cursor).value.next);
    }
  }

  // ----- printing -----

  /** An item as an SDK writes it: its header line and its payload. */
  datatype Item = Item(header: Bytes, payload: Bytes)

  ghost predicate NoNewline(b: Bytes) {
    forall k :: 0 <= k < |b| ==> b[k] != NEWLINE
  }

  /** The header is one non-empty line that states the payload's length, or states none and the payload is one line. */
  ghost predicate WellFormed<E>(js: Json<E>, it: Item) {
    && it.header != [] && NoNewline(it.header)
    && js.item(it.header).Some?
    && var h := js.item(it.header).value;
    && (h.length.Some? ==> h.length.value == |it.payload|)
    && (h.length.None? ==> NoNewline(it.payload))
    && (h.kind == "event" ==> js.event(it.payload).Some?)
  }

  function PrintItem(it: Item): Bytes {
    it.header + [NEWLINE] + it.payload + [NEWLINE]
  }

  function PrintItems(items: seq<Item>): Bytes {
    if items == [] then [] else PrintItem(items[0]) + PrintItems(items[1..])
  }

  function Print(header: Bytes, items: seq<Item>): Bytes {
    header + [NEWLINE] + PrintItems(items)
  }

  ghost predicate AllWellFormed<E>(js: Json<E>, items: seq<Item>) {
    forall k :: 0 <= k < |items| ==> WellFormed(js, items[k])
  }

  ghost function EventOf<E>(js: Json<E>, it: Item): Option<E>
    requires WellFormed(js, it)
  {
    if js.item(it.header).value.kind == "event" then js.event(it.payload) else None
  }

  /** The payloads of the event items, decoded, in order. */
  ghost function Events<E>(js: Json<E>, items: seq<Item>): seq<E>
    requires AllWellFormed(js, items)
  {
    if items == [] then []
    else
      var e := EventOf(js, items[0]);
      (if e.Some? then [e.value] else []) + Events(js, items[1..])
  }

  lemma LineEnd(raw: Bytes, start: nat, line: Bytes)
    requires start + |line| < |raw| && raw[start..start + |line|] == line
    requires NoNewline(line) && raw[start + |line|] == NEWLINE
    ensures NewlineAt(raw, start) == start + |line|
  {
    assert forall k :: start <= k < start + |line| ==> raw[k] == line[k - start];
  }

  /** Where the pieces of one printed item lie. */
  lemma ItemLayout(raw: Bytes, cursor: nat, it: Item, rest: Bytes)
    requires cursor <= |raw| && raw[cursor..] == PrintItem(it) + rest
    ensures LaidOut(raw, cursor, it) && raw[cursor + |it.header| + |it.payload| + 2..] == rest
  {
    var all := raw[cursor..];
    var next := cursor + |it.header| + 1;
    var end := next + |it.payload|;
    assert |PrintItem(it)| == |it.header| + |it.payload| + 2;
    assert raw[cursor..next - 1] == all[..|it.header|] == it.header;
    assert raw[next - 1] == all[|it.header|];
    assert raw[next..end] == all[|it.header| + 1..|it.header| + 1 + |it.payload|] == it.payload;
    assert raw[end] == all[|it.header| + 1 + |it.payload|];
    assert raw[end + 1..] == all[|PrintItem(it)|..] == rest;
  }

  /** `it` is laid out from `cursor` on, with its two newlines. */
  ghost predicate LaidOut(raw: Bytes, cursor: nat, it: Item) {
    var next := cursor + |it.header| + 1;
    var end := next + |it.payload|;
    && end + 1 <= |raw|
    && raw[cursor..next - 1] == it.header && raw[next - 1] == NEWLINE
    && raw[next..end] == it.payload && raw[end] == NEWLINE
  }

  lemma PayloadEndOf<E>(js: Json<E>, raw: Bytes, cursor: nat, it: Item)
    requires |raw| < USIZE_LIMIT && LaidOut(raw, cursor, it) && WellFormed(js, it)
    ensures var next := cursor + |it.header| + 1;
            PayloadEnd(raw, next, js.item(it.header).value) == Success(next + |it.payload|)
  {
    if js.item(it.header).value.length.None? {
      LineEnd(raw, cursor + |it.header| + 1, it.payload);
    }
  }

  /** One printed item is taken whole, wherever the cursor stands on it. */
  lemma OneItem<E>(js: Json<E>, raw: Bytes, cursor: nat, it: Item)
    requires |raw| < USIZE_LIMIT && LaidOut(raw, cursor, it) && WellFormed(js, it)
    ensures var next := cursor + |it.header| + 1;
            var end := next + |it.payload|;
            TakeItem(js, raw, cursor) == Success(Got(EventOf(js, it), Slice(next, end), end + 1))
  {
    LineEnd(raw, cursor, it.header);
    assert ReadLine(raw, cursor).value.1 == cursor + |it.header| + 1;
    PayloadEndOf(js, raw, cursor, it);
  }

  /** The slices cut out exactly the payloads. */
  ghost predicate Cuts(raw: Bytes, slices: seq<Slice>, items: seq<Item>) {
    && |slices| == |items|
    && forall k :: 0 <= k < |items| ==>
         slices[k].from <= slices[k].to <= |raw| && raw[slices[k].from..slices[k].to] == items[k].payload
  }

  /** Where the payloads of items printed from `cursor` on lie. */
  function Places(items: seq<Item>, cursor: nat): seq<Slice> {
    if items == [] then []
    else
      var next := cursor + |items[0].header| + 1;
      var end := next + |items[0].payload|;
      [Slice(next, end)] + Places(items[1..], end + 1)
  }

  lemma AddOnto<E>(t: Turn<E>, done: Parsed<E>, rest: Parsed<E>)
    requires t.Got?
    ensures Success(Add(t, Onto(done, Success(rest)).value)) == Onto(Add(t, done), Success(rest))
  {
    var one := if t.event.Some? then [t.event.value] else [];
    assert one + (done.events + rest.events) == (one + done.events) + rest.events;
    assert [t.slice] + (done.slices + rest.slices) == ([t.slice] + done.slices) + rest.slices;
  }

  lemma OntoTurn<E>(js: Json<E>, raw: Bytes, cursor: nat, t: Turn<E>, done: Parsed<E>, rest: Result<Parsed<E>, Error>)
    requires cursor < |raw| && TakeItem(js, raw, cursor) == Success(t) && t.Got?
    requires ParseItems(js, raw, t.next) == Onto(done, rest)
    ensures ParseItems(js, raw, cursor) == Onto(Add(t, done), rest)
  {
    if rest.Success? {
      AddOnto(t, done, rest.value);
    }
  }

  /** The events and the slices of items printed from `cursor` on. */
  ghost function Found<E>(js: Json<E>, items: seq<Item>, cursor: nat): Parsed<E>
    requires AllWellFormed(js, items)
  {
    Parsed(Events(js, items), Places(items, cursor))
  }

  lemma FoundStep<E>(js: Json<E>, items: seq<Item>, cursor: nat, t: Turn<E>)
    requires AllWellFormed(js, items) && items != []
    requires var next := cursor + |items[0].header| + 1;
             var end := next + |items[0].payload|;
             t == Got(EventOf(js, items[0]), Slice(next, end), end + 1)
    ensures Found(js, items, cursor) == Add(t, Found(js, items[1..], t.next))
  {
  }

  lemma ItemThen<E>(js: Json<E>, raw: Bytes, cursor: nat, items: seq<Item>, next: nat, rest: Result<Parsed<E>, Error>)
    requires |raw| < USIZE_LIMIT && items != [] && AllWellFormed(js, items) && LaidOut(raw, cursor, items[0])
    requires next == cursor + |items[0].header| + |items[0].payload| + 2
    requires ParseItems(js, raw, next) == Onto(Found(js, items[1..], next), rest)
    ensures ParseItems(js, raw, cursor) == Onto(Found(js, items, cursor), rest)
  {
    var t := Got(EventOf(js, items[0]), Slice(cursor + |items[0].header| + 1, next - 1), next);
    OneItem(js, raw, cursor, items[0]);
    FoundStep(js, items, cursor, t);
    OntoTurn(js, raw, cursor, t, Found(js, items[1..], next), rest);
  }

  lemma PrintedFirst(raw: Bytes, cursor: nat, items: seq<Item>, tail: Bytes, next: nat)
    requires cursor <= |raw| && raw[cursor..] == PrintItems(items) + tail && items != []
    requires next == cursor + |items[0].header| + |items[0].payload| + 2
    ensures LaidOut(raw, cursor, items[0]) && raw[next..] == PrintItems(items[1..]) + tail
  {
    var more := PrintItems(items[1..]);
    Reassociate(PrintItem(items[0]), more, tail, PrintItems(items));
    ItemLayout(raw, cursor, items[0], more + tail);
  }

  lemma Reassociate(first: Bytes, more: Bytes, tail: Bytes, all: Bytes)
    requires all == first + more
    ensures all + tail == first + (more + tail)
  {
  }

  /** Printed items are taken one by one, whatever comes after them. */
  lemma {:induction false} ItemsThen<E>(js: Json<E>, raw: Bytes, cursor: nat, items: seq<Item>, tail: Bytes, c: nat)
    requires cursor <= |raw| < USIZE_LIMIT && raw[cursor..] == PrintItems(items) + tail && c == |raw| - |tail|
    requires AllWellFormed(js, items)
    ensures ParseItems(js, raw, cursor) == Onto(Found(js, items, cursor), ParseItems(js, raw, c))
    decreases |items|
  {
    if items == [] {
      assert |raw[cursor..]| == |raw| - cursor;
      OntoEmpty(ParseItems(js, raw, c));
    } else {
      var next := cursor + |items[0].header| + |items[0].payload| + 2;
      PrintedFirst(raw, cursor, items, tail, next);
      ItemsThen(js, raw, next, items[1..], tail, c);
      ItemThen(js, raw, cursor, items, next, ParseItems(js, raw, c));
    }
  }

  lemma {:induction false} PlacesCut(raw: Bytes, cursor: nat, items: seq<Item>, tail: Bytes)
    requires cursor <= |raw| && raw[cursor..] == PrintItems(items) + tail
    ensures Cuts(raw, Places(items, cursor), items)
    decreases |items|
  {
    if items != [] {
      var next := cursor + |items[0].header| + |items[0].payload| + 2;
      PrintedFirst(raw, cursor, items, tail, next);
      PlacesCut(raw, next, items[1..], tail);
      CutsOneMore(raw, items, Places(items[1..], next), Slice(cursor + |items[0].header| + 1, next - 1));
    }
  }

  lemma CutsOneMore(raw: Bytes, items: seq<Item>, more: seq<Slice>, place: Slice)
    requires items != [] && Cuts(raw, more, items[1..])
    requires place.from <= place.to <= |raw| && raw[place.from..place.to] == items[0].payload
    ensures Cuts(raw, [place] + more, items)
  {
    var all := [place] + more;
    forall k | 0 < k < |items|
      ensures all[k].from <= all[k].to <= |raw| && raw[all[k].from..all[k].to] == items[k].payload
    {
      assert all[k] == more[k - 1] && items[k] == items[1..][k - 1];
    }
  }

  lemma OntoNothing<E>(done: Parsed<E>)
    ensures Onto(done, Success(Parsed([], []))) == Success(done)
  {
    assert done.events + [] == done.events && done.slices + [] == done.slices;
  }

  lemma HeaderLine<E>(js: Json<E>, header: Bytes, rest: Bytes, raw: Bytes)
    requires NoNewline(header) && js.isJson(header) && raw == header + [NEWLINE] + rest
    ensures Parse(js, raw) == ParseItems(js, raw, |header| + 1) && raw[|header| + 1..] == rest
  {
    assert raw[0..|header|] == header && raw[|header|] == NEWLINE;
    LineEnd(raw, 0, header);
  }

  /**
   Printing a header line and any well-formed items and parsing the result gives
   back every payload, and exactly the events, in order. Payloads with a stated
   length may hold any bytes, newlines included.
   */
  lemma RoundTrip<E>(js: Json<E>, header: Bytes, items: seq<Item>)
    requires NoNewline(header) && js.isJson(header) && AllWellFormed(js, items)
    requires |Print(header, items)| < USIZE_LIMIT
    ensures var r := Parse(js, Print(header, items));
            r.Success? && r.value.events == Events(js, items) && Cuts(Print(header, items), r.value.slices, items)
  {
    var raw := Print(header, items);
    HeaderLine(js, header, PrintItems(items), raw);
    var c := |header| + 1;
    assert PrintItems(items) == PrintItems(items) + [];
    ItemsThen(js, raw, c, items, [], |raw|);
    PlacesCut(raw, c, items, []);
    OntoNothing(Found(js, items, c));
  }

  /** One header line and one item header line whose length is too large by at least the bytes before its payload. */
  lemma OversizedLengthOverflows<E>(js: Json<E>, header: Bytes, line: Bytes, h: ItemHeader)
    requires NoNewline(header) && NoNewline(line) && line != [] && js.isJson(header) && js.item(line) == Some(h)
    requires h.length.Some? && USIZE_LIMIT - (|header| + |line| + 2) <= h.length.value < USIZE_LIMIT
    ensures Parse(js, header + [NEWLINE] + (line + [NEWLINE])) == Failure(Overflow)
  {
    var raw := header + [NEWLINE] + (line + [NEWLINE]);
    var c := |header| + 1;
    assert raw[0..|header|] == header && raw[|header|] == NEWLINE;
    LineEnd(raw, 0, header);
    assert raw[c..c + |line|] == line && raw[c + |line|] == NEWLINE;
    LineEnd(raw, c, line);
    assert Reaches(js, raw, c, c, 0);
    ParseOverflowIff(js, raw);
  }

  /** ASCII text as bytes. */
  function Ascii(text: string): Bytes
    requires forall k :: 0 <= k < |text| ==> text[k] as int < 128
  {
    seq(|text|, k requires 0 <= k < |text| => text[k] as int)
  }

  const EMPTY_HEADER: Bytes := Ascii("{}")

  const LARGEST_LENGTH: Bytes := Ascii("{\"length\":18446744073709551615}")

  /** For every reader that takes these two lines for what they are: an object, and an item header with no type and that length. */
  lemma SomeInputOverflows<E>(js: Json<E>)
    requires js.isJson(EMPTY_HEADER) && js.item(LARGEST_LENGTH) == Some(ItemHeader("", Some(USIZE_LIMIT - 1)))
    ensures Parse(js, EMPTY_HEADER + [NEWLINE] + (LARGEST_LENGTH + [NEWLINE])) == Failure(Overflow)
  {
    OversizedLengthOverflows(js, EMPTY_HEADER, LARGEST_LENGTH, ItemHeader("", Some(USIZE_LIMIT - 1)));
  }

  /** What the parser makes of an item header line at the end of the buffer, whose payload is empty. */
  function AtEnd<E>(js: Json<E>, line: Bytes, size: nat): Result<Parsed<E>, Error> {
    if line == [] then Success(Parsed([], []))
    else
      match js.item(line)
      case None => Failure(BadJson)
      case Some(h) =>
        if h.length.Some? && size + h.length.value >= USIZE_LIMIT then Failure(Overflow)
        else if h.length.Some? && h.length.value > 0 then Failure(LengthTooLong)
        else if h.kind != "event" then Success(Parsed([], [Slice(size, size)]))
        else if js.event([]).None? then Failure(BadJson)
        else Success(Parsed([js.event([]).value], [Slice(size, size)]))
  }

  lemma LastLine(raw: Bytes, c: nat, line: Bytes, last: Byte)
    requires c <= |raw| && raw[c..] == line + [last] && NoNewline(line) && last != NEWLINE
    ensures c < |raw| && NewlineAt(raw, c) == |raw| && raw[c..|raw| - 1] == line
  {
    var all := raw[c..];
    assert |all| == |raw| - c;
    forall k | c <= k < |raw| ensures raw[k] != NEWLINE {
      assert raw[k] == all[k - c];
    }
    assert raw[c..|raw| - 1] == all[..|line|];
  }

  lemma LastItem<E>(js: Json<E>, raw: Bytes, c: nat, line: Bytes, last: Byte)
    requires c <= |raw| && raw[c..] == line + [last] && NoNewline(line) && last != NEWLINE
    ensures ParseItems(js, raw, c) == AtEnd(js, line, |raw|)
  {
    LastLine(raw, c, line, last);
    assert raw[|raw|..|raw|] == [];
    var t := TakeItem(js, raw, c);
    if t.Success? {
      assert ParseItems(js, raw, t.value.next) == Success(Parsed([], []));
      AddNothing(t.value);
    }
  }

  lemma AddNothing<E>(t: Turn<E>)
    ensures Add(t, Parsed([], [])) == if t.Blank? then Parsed([], []) else Parsed(if t.event.Some? then [t.event.value] else [], [t.slice])
  {
  }

  lemma ItemsThenLast<E>(js: Json<E>, header: Bytes, items: seq<Item>, line: Bytes, last: Byte, raw: Bytes)
    requires NoNewline(header) && js.isJson(header) && AllWellFormed(js, items) && NoNewline(line) && last != NEWLINE
    requires raw == Print(header, items) + (line + [last]) && |raw| < USIZE_LIMIT
    ensures Parse(js, raw) == Onto(Found(js, items, |header| + 1), AtEnd(js, line, |raw|))
  {
    var tail := line + [last];
    var c := |raw| - |tail|;
    assert raw == header + [NEWLINE] + (PrintItems(items) + tail);
    HeaderLine(js, header, PrintItems(items) + tail, raw);
    ItemsThen(js, raw, |header| + 1, items, tail, c);
    assert raw[c..] == tail;
    LastItem(js, raw, c, line, last);
  }

  lemma EndCases<E>(js: Json<E>, line: Bytes, size: nat, done: Parsed<E>, r: Result<Parsed<E>, Error>)
    requires r == Onto(done, AtEnd(js, line, size))
    ensures line != [] && js.item(line) == None ==> r == Failure(BadJson)
    ensures line == [] ==> r == Success(done)
  {
    OntoNothing(done);
  }

  lemma SameLength(front: Bytes, line: Bytes, a: Byte, b: Byte, x: Bytes, y: Bytes)
    requires x == front + (line + [a]) && y == front + (line + [b])
    ensures |x| == |y|
  {
  }

  /** After any well-formed items, an item header line that ends the envelope without a newline is read without its last byte. */
  lemma UnterminatedItemLosesAByte<E>(js: Json<E>, header: Bytes, items: seq<Item>, line: Bytes, a: Byte, b: Byte, x: Bytes, y: Bytes)
    requires NoNewline(header) && js.isJson(header) && AllWellFormed(js, items)
    requires NoNewline(line) && a != NEWLINE && b != NEWLINE
    requires x == Print(header, items) + (line + [a]) && y == Print(header, items) + (line + [b]) && |x| < USIZE_LIMIT
    ensures Parse(js, x) == Parse(js, y)
    ensures line != [] && js.item(line) == None ==> Parse(js, x) == Failure(BadJson)
    ensures line == [] ==> Parse(js, x) == Success(Found(js, items, |header| + 1))
  {
    var done := Found(js, items, |header| + 1);
    SameLength(Print(header, items), line, a, b, x, y);
    ItemsThenLast(js, header, items, line, a, x);
    ItemsThenLast(js, header, items, line, b, y);
    EndCases(js, line, |x|, done, Parse(js, x));
  }

  /** The last byte of a header line that has no newline is not looked at. */
  lemma UnterminatedHeaderLosesAByte<E>(js: Json<E>, header: Bytes, last: Byte)
    requires NoNewline(header) && last != NEWLINE
    ensures Parse(js, header + [last]) == if js.isJson(header) then Success(Parsed([], [])) else Failure(BadJson)
  {
    var raw := header + [last];
    assert NewlineAt(raw, 0) == |raw|;
    assert raw[0..|raw| - 1] == header;
  }
}
