/** A run of the daemon in which a retention tick deletes an event before its time. */
module RetentionLoss {
  import opened Digest
  import opened Pipeline
  import opened Retention
  import opened RetentionProofs
  import opened Schema
  import opened Wrappers
  import Calendar

  /** One event, received at 20:00 of the first day. */
  const EVENING := Input("p", "f", "t", None, None, 20 * 3600, "e", "{}", 20 * 3600)

  const BEFORE := Run(START, [Ingest(Batch([EVENING], true))])

  /** At 01:00 of the second day, with events kept for one day. */
  const NOW := Calendar.DAY_SECS + 3600

  lemma FirstUpsert()
    ensures var t := Upsert(EMPTY, EVENING).0;
            && 1 in t.events && t.events[1] == EventRow(1, "e", "{}", 20 * 3600)
            && 1 in t.issues && t.issues[1].eventCount == 1
  {
    assert Find(map[], EVENING.Key()) == None;
  }

  lemma OneBatch(w: World, input: Input)
    ensures AfterBatch(w, Batch([input], true)).db == Upsert(w.db, input).0
  {
    BatchIsItsEvents(w, [input]);
    assert [input][..0] == [];
    assert DigestAll(w, [input]) == DigestOne(w, input);
  }

  lemma OneStep(op: Op)
    ensures Run(START, [op]) == Step(START, op)
  {
    assert [op][..0] == [];
  }

  lemma EveningIsStored()
    ensures 1 in BEFORE.db.events && BEFORE.db.events[1] == EventRow(1, "e", "{}", 20 * 3600)
    ensures 1 in BEFORE.db.issues && BEFORE.db.issues[1].eventCount == 1
  {
    OneStep(Ingest(Batch([EVENING], true)));
    OneBatch(START, EVENING);
    FirstUpsert();
  }

  /** The tick deletes the event five hours after it came in. */
  lemma TickDeletesTooEarly()
    ensures 1 in BEFORE.db.events && BEFORE.db.events[1].receivedAt > NOW - Calendar.DAY_SECS
    ensures 1 !in Tick(BEFORE.db, Settings(0, 0, 1), 0, NOW).events
    ensures Tick(BEFORE.db, Settings(0, 0, 1), 0, NOW).events != PromisedAgePurge(BEFORE.db, NOW - Calendar.DAY_SECS).events
  {
    EveningIsStored();
    assert 1 in PromisedAgePurge(BEFORE.db, NOW - Calendar.DAY_SECS).events;
  }
}
