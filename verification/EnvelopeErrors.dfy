/** Which error an envelope that cannot be read gives, wherever in it the fault lies. */
module EnvelopeErrors {
  import opened Envelope
  import opened Octets
  import opened Wrappers

  /** `tail`, the end of `raw`, is the line `line` and then `rest`. */
  ghost predicate LineThen(raw: Bytes, c: nat, line: Bytes, rest: Bytes) {
    c < |raw| && line != [] && NoNewline(line) && raw[c..] == line + ([NEWLINE] + rest)
  }

  lemma LineTaken(raw: Bytes, c: nat, line: Bytes, rest: Bytes, next: nat)
    requires LineThen(raw, c, line, rest) && next == c + |line| + 1
    ensures next <= |raw| && ReadLine(raw, c) == Some((next, next)) && raw[c..next - 1] == line && raw[next..] == rest
    ensures |rest| == |raw| - next
  {
    var end := c + |line|;
    assert |raw[c..]| == |line| + 1 + |rest|;
    assert raw[c..end] == raw[c..][..|line|] == line;
    assert raw[end] == raw[c..][|line|] == NEWLINE;
    assert raw[next..] == raw[c..][|line| + 1..] == rest;
    LineEnd(raw, c, line);
  }

  /** An item header that is not understood. */
  lemma UnreadableHeader<E>(js: Json<E>, raw: Bytes, c: nat, line: Bytes, rest: Bytes)
    requires LineThen(raw, c, line, rest) && js.item(line) == None
    ensures TakeItem(js, raw, c) == Failure(BadJson)
  {
    LineTaken(raw, c, line, rest, c + |line| + 1);
  }

  /** A stated length beyond the end. */
  lemma LengthBeyondEnd<E>(js: Json<E>, raw: Bytes, c: nat, line: Bytes, rest: Bytes, h: ItemHeader)
    requires LineThen(raw, c, line, rest) && js.item(line) == Some(h)
    requires h.length.Some? && h.length.value > |rest| && |raw| - |rest| + h.length.value < USIZE_LIMIT
    ensures TakeItem(js, raw, c) == Failure(LengthTooLong)
  {
    LineTaken(raw, c, line, rest, c + |line| + 1);
  }

  /** An event item whose payload, of the stated length, is no event. */
  lemma UnreadableEvent<E>(js: Json<E>, raw: Bytes, c: nat, line: Bytes, rest: Bytes, h: ItemHeader)
    requires |raw| < USIZE_LIMIT && LineThen(raw, c, line, rest) && js.item(line) == Some(h)
    requires h.length.Some? && h.length.value <= |rest| && h.kind == "event" && js.event(rest[..h.length.value]) == None
    ensures TakeItem(js, raw, c) == Failure(BadJson)
  {
    var next := c + |line| + 1;
    LineTaken(raw, c, line, rest, next);
    assert raw[next..next + h.length.value] == raw[next..][..h.length.value];
  }

  lemma Stops<E>(js: Json<E>, header: Bytes, items: seq<Item>, tail: Bytes, raw: Bytes, c: nat, e: Error)
    requires NoNewline(header) && js.isJson(header) && AllWellFormed(js, items)
    requires raw == header + [NEWLINE] + (PrintItems(items) + tail) && |raw| < USIZE_LIMIT && tail != []
    requires c == |raw| - |tail| && TakeItem(js, raw, c) == Failure(e)
    ensures Parse(js, raw) == Failure(e)
  {
    HeaderLine(js, header, PrintItems(items) + tail, raw);
    ItemsThen(js, raw, |header| + 1, items, tail, c);
  }

  lemma TailIs(header: Bytes, items: Bytes, tail: Bytes, raw: Bytes, c: nat)
    requires raw == header + [NEWLINE] + (items + tail) && c == |raw| - |tail|
    ensures raw[c..] == tail
  {
  }

  /** What is wrong with an item: its line, or its length, or its payload. */
  ghost predicate Faulty<E>(js: Json<E>, line: Bytes, rest: Bytes, size: nat, e: Error) {
    match js.item(line)
    case None => e == BadJson
    case Some(h) =>
      && h.length.Some?
      && if h.length.value > |rest| then size - |rest| + h.length.value < USIZE_LIMIT && e == LengthTooLong
         else h.kind == "event" && js.event(rest[..h.length.value]) == None && e == BadJson
  }

  lemma FaultyItem<E>(js: Json<E>, raw: Bytes, c: nat, line: Bytes, rest: Bytes, e: Error)
    requires |raw| < USIZE_LIMIT && LineThen(raw, c, line, rest) && |rest| <= |raw| && Faulty(js, line, rest, |raw|, e)
    ensures TakeItem(js, raw, c) == Failure(e)
  {
    match js.item(line)
    case None => UnreadableHeader(js, raw, c, line, rest);
    case Some(h) =>
      if h.length.value > |rest| {
        LengthBeyondEnd(js, raw, c, line, rest, h);
      } else {
        UnreadableEvent(js, raw, c, line, rest, h);
      }
  }

  /** After any well-formed items the first faulty one decides, and nothing is kept of those before it. */
  lemma FirstFaultDecides<E>(js: Json<E>, header: Bytes, items: seq<Item>, line: Bytes, rest: Bytes, tail: Bytes, raw: Bytes, e: Error)
    requires NoNewline(header) && js.isJson(header) && AllWellFormed(js, items)
    requires line != [] && NoNewline(line) && tail == line + ([NEWLINE] + rest)
    requires raw == header + [NEWLINE] + (PrintItems(items) + tail) && |raw| < USIZE_LIMIT
    requires Faulty(js, line, rest, |raw|, e)
    ensures Parse(js, raw) == Failure(e)
  {
    var c := |raw| - |tail|;
    TailIs(header, PrintItems(items), tail, raw, c);
    FaultyItem(js, raw, c, line, rest, e);
    Stops(js, header, items, tail, raw, c, e);
  }

  /** Without a header line there is no envelope; a header that is no JSON is refused whatever follows. */
  lemma HeaderDecides<E>(js: Json<E>, raw: Bytes, header: Bytes, rest: Bytes)
    ensures Parse(js, raw) == Failure(MissingHeader) <==> raw == []
    ensures raw == header + [NEWLINE] + rest && NoNewline(header) && !js.isJson(header) ==> Parse(js, raw) == Failure(BadJson)
  {
    if raw == header + [NEWLINE] + rest && NoNewline(header) {
      assert raw[0..|header|] == header && raw[|header|] == NEWLINE;
      LineEnd(raw, 0, header);
    }
    if raw != [] && Parse(js, raw) == Failure(MissingHeader) {
      NeverMissing(js, raw, ReadLine(raw, 0).value.1);
    }
  }

  lemma {:induction false} NeverMissing<E>(js: Json<E>, raw: Bytes, cursor: nat)
    requires cursor <= |raw|
    ensures ParseItems(js, raw, cursor) != Failure(MissingHeader)
    decreases |raw| - cursor
  {
    if cursor < |raw| {
      var t := TakeItem(js, raw, cursor);
      if t.Success? {
        NeverMissing(js, raw, t.value.next);
      }
    }
  }
}
