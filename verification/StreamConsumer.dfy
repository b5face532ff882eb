/**
  One run of the stream consumer over a delivered batch, from any state of the two stores and with any
  call failing. `Processed` is what processBatch does to both stores; the theorems are about it.
 */
module StreamConsumer {
  import opened Types
  import opened RedisScripts
  import opened RedisStore
  import opened MySqlTables
  import opened BatchProjection
  import opened MySqlStore
  import opened SelectionSystem

  /** Which scripts of a pipeline run, each on its own, and whether the pipeline's answer arrives. */
  datatype Pipeline = Pipeline(runs: nat -> bool, answered: bool)

  /**
    What the stores and the id generator do during one processBatch: for the batch and, item by item,
    for the fallback. Acknowledgements and dead letters run or do not; a lost answer only changes the log.
   */
  datatype Calls = Calls(
    ids: Ids,
    save: Call,
    clears: Pipeline,
    ack: bool,
    itemIds: nat -> Ids,
    itemSave: nat -> Call,
    itemClears: nat -> Pipeline,
    itemAck: nat -> bool,
    discard: nat -> bool,
    bury: nat -> bool)

  /** The clear scripts of a pipeline, in order, and whether one of them did not run or reported an error. */
  function ClearAll(board: Board, results: seq<Selection>, runs: nat -> bool): (Board, bool) {
    if results == [] then (board, false)
    else
      var n := |results| - 1;
      var (board', failed) := ClearAll(board, results[..n], runs);
      if !runs(n) then (board', true)
      else
        var (board'', status) := Clear(board', results[n]);
        (board'', failed || status < -1)
  }

  datatype Saved = Saved(board: Board, db: MySql, error: Option<Error>)

  /** SaveSelectionResults: the transaction, then the pipeline that clears the pending keys. */
  function SaveAndClear(
    board: Board, db: MySql, results: seq<Selection>, ids: Ids, save: Call, clears: Pipeline): Saved
  {
    if save == Down then Saved(board, db, Some(Infrastructure))
    else
      match SaveBatch(db, results, ids)
      case Err(e) => Saved(board, db, Some(if save == Lost then Infrastructure else e))
      case Ok(db') =>
        if save == Lost then Saved(board, db', Some(Infrastructure))
        else
          var (board', failed) := ClearAll(board, results, clears.runs);
          Saved(board', db', if failed || !clears.answered then Some(Infrastructure) else None)
  }

  /** The entries that do not decode go to the dead-letter stream. */
  function Discarded(stream: Stream, batch: seq<Entry>, discard: nat -> bool): Stream {
    if batch == [] then stream
    else
      var n := |batch| - 1;
      var rest := Discarded(stream, batch[..n], discard);
      if !ValidResult(batch[n].event) && discard(n) then DeadLetter(rest, batch[n]) else rest
  }

  /** One item of the fallback: saved and acknowledged, left for a later delivery, or buried. */
  function IsolatedItem(rd: Redis, db: MySql, entry: Entry, i: nat, calls: Calls): (Redis, MySql) {
    var saved := SaveAndClear(rd.board, db, [entry.event], calls.itemIds(i), calls.itemSave(i), calls.itemClears(i));
    var stream :=
      match saved.error
      case None => if calls.itemAck(i) then Acknowledge(rd.stream, {entry.id}) else rd.stream
      case Some(e) => if !Retryable(e) && calls.bury(i) then DeadLetter(rd.stream, entry) else rd.stream;
    (rd.(board := saved.board, stream := stream), saved.db)
  }

  function Isolated(rd: Redis, db: MySql, valid: seq<Entry>, calls: Calls): (Redis, MySql) {
    if valid == [] then (rd, db)
    else
      var n := |valid| - 1;
      var (rd', db') := Isolated(rd, db, valid[..n], calls);
      IsolatedItem(rd', db', valid[n], n, calls)
  }

  /** processBatch: one save for all, or the item-by-item fallback that isolates a poisonous entry. */
  function Processed(rd: Redis, db: MySql, batch: seq<Entry>, calls: Calls): (Redis, MySql) {
    var valid := WellFormed(batch);
    var stream := Discarded(rd.stream, batch, calls.discard);
    if valid == [] then (rd.(stream := stream), db)
    else
      var saved := SaveAndClear(rd.board, db, Events(valid), calls.ids, calls.save, calls.clears);
      var rd' := rd.(board := saved.board, stream := stream);
      match saved.error
      case None =>
        (if calls.ack then rd'.(stream := Acknowledge(stream, EntryIds(valid))) else rd', saved.db)
      case Some(e) =>
        if Retryable(e) then (rd', saved.db) else Isolated(rd', saved.db, valid, calls)
  }

  // --- The consumer ----------------------------------------------------------------------------

  class Consumer {
    const store: Store
    const db: Database

    constructor (store: Store, db: Database)
      ensures this.store == store && this.db == db
    {
      this.store, this.db := store, db;
    }

    method Save(results: seq<Selection>, ids: Ids, save: Call, clears: Pipeline)
      returns (error: Option<Error>)
      modifies store, db
      ensures var saved := SaveAndClear(old(store.Value()).board, old(db.Value()), results, ids, save, clears);
              && store.Value() == old(store.Value()).(board := saved.board)
              && db.Value() == saved.db && error == saved.error
    {
      hide SaveBatch;
      if save == Down {
        return Some(Infrastructure);
      }
      error := db.SaveSelectionResults(results, ids);
      if save == Lost {
        return Some(Infrastructure);
      }
      if error.Some? {
        return;
      }
      var failed := ClearPipeline(results, clears.runs);
      error := if failed || !clears.answered then Some(Infrastructure) else None;
    }

    method ClearPipeline(results: seq<Selection>, runs: nat -> bool) returns (failed: bool)
      modifies store
      ensures ClearAll(old(store.Value()).board, results, runs) == (store.Value().board, failed)
      ensures store.Value() == old(store.Value()).(board := store.Value().board)
    {
      hide Clear;
      failed := false;
      for i := 0 to |results|
        invariant ClearAll(old(store.Value()).board, results[..i], runs) == (store.Value().board, failed)
        invariant store.Value() == old(store.Value()).(board := store.Value().board)
      {
        assert results[..i + 1][..i] == results[..i];
        if runs(i) {
          var status := store.ClearPersisted(results[i]);
          failed := failed || status < -1;
        } else {
          failed := true;
        }
      }
      assert results[..|results|] == results;
    }

    /** Splits off the entries that do not decode and sends them to the dead-letter stream. */
    method DiscardMalformed(batch: seq<Entry>, discard: nat -> bool) returns (valid: seq<Entry>)
      modifies store
      ensures valid == WellFormed(batch)
      ensures store.Value() == old(store.Value()).(stream := Discarded(old(store.Value()).stream, batch, discard))
    {
      hide DeadLetter, ValidResult;
      valid := [];
      for i := 0 to |batch|
        invariant valid == WellFormed(batch[..i])
        invariant store.Value()
                  == old(store.Value()).(stream := Discarded(old(store.Value()).stream, batch[..i], discard))
      {
        assert batch[..i + 1][..i] == batch[..i];
        if ValidResult(batch[i].event) {
          valid := valid + [batch[i]];
        } else if discard(i) {
          store.DeadLetterEntry(batch[i]);
        }
      }
      assert batch[..|batch|] == batch;
    }

    method ProcessBatch(batch: seq<Entry>, calls: Calls)
      modifies store, db
      ensures (store.Value(), db.Value()) == Processed(old(store.Value()), old(db.Value()), batch, calls)
    {
      hide SaveAndClear, Discarded, WellFormed, Acknowledge, Isolated;
      var valid := DiscardMalformed(batch, calls.discard);
      if |valid| == 0 {
        return;
      }
      var error := Save(Events(valid), calls.ids, calls.save, calls.clears);
      if error == None {
        if calls.ack {
          store.AcknowledgeEntries(EntryIds(valid));
        }
        return;
      }
      if Retryable(error.value) {
        return;
      }
      Isolate(valid, calls);
    }

    method Isolate(valid: seq<Entry>, calls: Calls)
      modifies store, db
      ensures (store.Value(), db.Value()) == Isolated(old(store.Value()), old(db.Value()), valid, calls)
    {
      hide IsolatedItem;
      for i := 0 to |valid|
        invariant (store.Value(), db.Value()) == Isolated(old(store.Value()), old(db.Value()), valid[..i], calls)
      {
        assert valid[..i + 1][..i] == valid[..i];
        IsolateOne(valid[i], i, calls);
      }
      assert valid[..|valid|] == valid;
    }

    method IsolateOne(entry: Entry, i: nat, calls: Calls)
      modifies store, db
      ensures (store.Value(), db.Value()) == IsolatedItem(old(store.Value()), old(db.Value()), entry, i, calls)
    {
      hide SaveAndClear, Acknowledge, DeadLetter;
      var error := Save([entry.event], calls.itemIds(i), calls.itemSave(i), calls.itemClears(i));
      if error == None {
        if calls.itemAck(i) {
          store.AcknowledgeEntries({entry.id});
        }
      } else if !Retryable(error.value) && calls.bury(i) {
        store.DeadLetterEntry(entry);
      }
    }
  }

  // --- Nothing leaves the stream unaccounted ---------------------------------------------------

  ghost predicate Stored(events: map<EventId, EventBody>, x: Selection) {
    EventOf(x) in events && events[EventOf(x)] == SelectionBody(x)
  }

  /** Saved events stay, with their bodies. */
  ghost predicate Kept(events: map<EventId, EventBody>, events': map<EventId, EventBody>) {
    forall k :: k in events ==> k in events' && events'[k] == events[k]
  }

  /** A stream id names one entry. */
  ghost predicate Unambiguous(entries: seq<Entry>, batch: seq<Entry>) {
    forall e, b :: e in entries && b in batch && e.id == b.id ==> e == b
  }

  /** Every entry is still in the stream, or its event is stored, or it is in the dead-letter stream. */
  ghost predicate Accounted(stream: Stream, stream': Stream, events: map<EventId, EventBody>) {
    forall e :: e in stream.entries ==> e in stream'.entries || e in stream'.dead || Stored(events, e.event)
  }

  /** Only delivered entries leave, none comes back, and only delivered entries become dead. */
  ghost predicate Touched(stream: Stream, stream': Stream, batch: seq<Entry>) {
    && (forall e :: e in stream.entries && e !in batch ==> e in stream'.entries)
    && (forall e :: e in stream'.entries ==> e in stream.entries)
    && (forall e :: e in stream.dead ==> e in stream'.dead)
    && (forall e :: e in stream'.dead ==> e in stream.dead || e in batch)
  }

  lemma {:induction false} WithoutEntries(entries: seq<Entry>, ids: set<nat>)
    ensures forall e :: e in Without(entries, ids) <==> e in entries && e.id !in ids
  {
    if entries != [] {
      var n := |entries| - 1;
      WithoutEntries(entries[..n], ids);
      assert entries == entries[..n] + [entries[n]];
    }
  }

  lemma {:induction false} WellFormedMembers(batch: seq<Entry>)
    ensures forall e :: e in WellFormed(batch) <==> e in batch && ValidResult(e.event)
  {
    if batch != [] {
      var n := |batch| - 1;
      WellFormedMembers(batch[..n]);
      assert batch == batch[..n] + [batch[n]];
    }
  }

  lemma EventsMembers(batch: seq<Entry>)
    ensures forall e :: e in batch ==> e.event in Events(batch)
  {
    forall e | e in batch ensures e.event in Events(batch) {
      var i :| 0 <= i < |batch| && batch[i] == e;
      assert Events(batch)[i] == e.event;
    }
  }

  lemma AcknowledgedEntries(stream: Stream, batch: seq<Entry>)
    requires Unambiguous(stream.entries, batch)
    ensures forall e :: e in Acknowledge(stream, EntryIds(batch)).entries <==> e in stream.entries && e !in batch
  {
    var ids := EntryIds(batch);
    WithoutEntries(stream.entries, ids);
    forall e | e in stream.entries ensures e.id in ids <==> e in batch {
      if e.id in ids {
        var j :| 0 <= j < |batch| && batch[j].id == e.id;
        assert batch[j] in batch;
      }
    }
  }

  lemma BuriedEntry(stream: Stream, entry: Entry)
    requires Unambiguous(stream.entries, [entry])
    ensures forall e :: e in DeadLetter(stream, entry).entries <==> e in stream.entries && e != entry
    ensures DeadLetter(stream, entry).dead == stream.dead + [entry]
  {
    assert entry in [entry];
    WithoutEntries(stream.entries, {entry.id});
  }

  lemma SaveKeepsEvents(db: MySql, results: seq<Selection>, ids: Ids)
    requires SaveBatch(db, results, ids).Ok?
    ensures Kept(db.events, SaveBatch(db, results, ids).value.events)
  {
    SaveInsertsEvents(db, results, ids);
    var unique := Normalize(results).value;
    ClaimedMembers(db.events, unique);
    forall k | k in db.events
      ensures k in InsertEvents(db.events, Claimed(db.events, unique))
      ensures InsertEvents(db.events, Claimed(db.events, unique))[k] == db.events[k]
    {
      InsertedOther(db.events, Claimed(db.events, unique), k);
    }
  }

  /** A save without an error means that every result is stored. */
  lemma SavedMeansStored(board: Board, db: MySql, results: seq<Selection>, ids: Ids, save: Call, clears: Pipeline)
    ensures var saved := SaveAndClear(board, db, results, ids, save, clears);
            && Kept(db.events, saved.db.events)
            && (saved.error == None ==> forall x :: x in results ==> Stored(saved.db.events, x))
  {
    if SaveBatch(db, results, ids).Ok? {
      SaveKeepsEvents(db, results, ids);
      SavedEvents(db, results, ids);
    }
  }

  /** What each stage of processBatch keeps. */
  ghost predicate Sound(
    stream: Stream, events: map<EventId, EventBody>, stream': Stream, events': map<EventId, EventBody>,
    batch: seq<Entry>)
  {
    Accounted(stream, stream', events') && Touched(stream, stream', batch) && Kept(events, events')
  }

  lemma SoundThen(
    a: Stream, ea: map<EventId, EventBody>, b: Stream, eb: map<EventId, EventBody>, c: Stream,
    ec: map<EventId, EventBody>, batch: seq<Entry>)
    requires Sound(a, ea, b, eb, batch) && Sound(b, eb, c, ec, batch)
    ensures Sound(a, ea, c, ec, batch)
  {
  }

  lemma {:induction false} DiscardSound(
    stream: Stream, events: map<EventId, EventBody>, batch: seq<Entry>, discard: nat -> bool)
    requires Unambiguous(stream.entries, batch)
    ensures Sound(stream, events, Discarded(stream, batch, discard), events, batch)
    ensures forall e :: e in batch && ValidResult(e.event) && e in stream.entries ==>
              e in Discarded(stream, batch, discard).entries
  {
    if batch != [] {
      var n := |batch| - 1;
      assert batch == batch[..n] + [batch[n]];
      DiscardSound(stream, events, batch[..n], discard);
      hide ValidResult;
      BuriedEntry(Discarded(stream, batch[..n], discard), batch[n]);
    }
  }

  lemma ItemSound(rd: Redis, db: MySql, entry: Entry, i: nat, calls: Calls, batch: seq<Entry>)
    requires Unambiguous(rd.stream.entries, batch) && entry in batch
    ensures var (rd', db') := IsolatedItem(rd, db, entry, i, calls);
            Sound(rd.stream, db.events, rd'.stream, db'.events, batch)
  {
    hide SaveAndClear, Stored;
    SavedMeansStored(rd.board, db, [entry.event], calls.itemIds(i), calls.itemSave(i), calls.itemClears(i));
    assert entry.event in [entry.event] && entry in [entry];
    BuriedEntry(rd.stream, entry);
    WithoutEntries(rd.stream.entries, {entry.id});
  }

  lemma {:induction false} IsolatedSound(rd: Redis, db: MySql, valid: seq<Entry>, calls: Calls, batch: seq<Entry>)
    requires Unambiguous(rd.stream.entries, batch) && forall e :: e in valid ==> e in batch
    ensures var (rd', db') := Isolated(rd, db, valid, calls);
            Sound(rd.stream, db.events, rd'.stream, db'.events, batch)
  {
    if valid != [] {
      var n := |valid| - 1;
      assert valid[n] in valid;
      IsolatedSound(rd, db, valid[..n], calls, batch);
      var (rd', db') := Isolated(rd, db, valid[..n], calls);
      ItemSound(rd', db', valid[n], n, calls, batch);
      hide IsolatedItem, Sound;
      var (rd'', db'') := IsolatedItem(rd', db', valid[n], n, calls);
      SoundThen(rd.stream, db.events, rd'.stream, db'.events, rd''.stream, db''.events, batch);
    }
  }

  /**
    Whatever fails and whatever the batch holds: an entry that left the stream is in selection_event
    with its result or in the dead-letter stream, and only entries of the batch are touched.
   */
  lemma ProcessedSound(rd: Redis, db: MySql, batch: seq<Entry>, calls: Calls)
    requires Unambiguous(rd.stream.entries, batch)
    ensures var (rd', db') := Processed(rd, db, batch, calls);
            Sound(rd.stream, db.events, rd'.stream, db'.events, batch)
  {
    var valid, stream := WellFormed(batch), Discarded(rd.stream, batch, calls.discard);
    WellFormedMembers(batch);
    DiscardSound(rd.stream, db.events, batch, calls.discard);
    var saved := SaveAndClear(rd.board, db, Events(valid), calls.ids, calls.save, calls.clears);
    SavedMeansStored(rd.board, db, Events(valid), calls.ids, calls.save, calls.clears);
    EventsMembers(valid);
    AcknowledgedEntries(stream, valid);
    hide SaveAndClear, WellFormed, Discarded, ValidResult, Isolated, Acknowledge, Events, EntryIds, Stored;
    if valid != [] {
      var rd' := rd.(board := saved.board, stream := stream);
      IsolatedSound(rd', saved.db, valid, calls, batch);
      var (rd'', db'') := Isolated(rd', saved.db, valid, calls);
      assert Sound(rd.stream, db.events, stream, saved.db.events, batch);
      assert saved.error.Some? ==> Sound(rd.stream, db.events, rd''.stream, db''.events, batch) by {
        SoundThen(rd.stream, db.events, stream, saved.db.events, rd''.stream, db''.events, batch);
      }
    }
  }

  // --- Progress --------------------------------------------------------------------------------

  /**
    When every call answers and the tables accept the batch, its well-formed entries are saved at once and
    leave the stream.
   */
  lemma ProcessedProgress(rd: Redis, db: MySql, batch: seq<Entry>, calls: Calls)
    requires Unambiguous(rd.stream.entries, batch)
    requires calls.save == Answered && calls.ack && calls.clears.answered
    requires SaveBatch(db, Events(WellFormed(batch)), calls.ids).Ok?
    requires !ClearAll(rd.board, Events(WellFormed(batch)), calls.clears.runs).1
    ensures var (rd', db') := Processed(rd, db, batch, calls);
            && (WellFormed(batch) != [] ==> SaveBatch(db, Events(WellFormed(batch)), calls.ids) == Ok(db'))
            && rd'.board == ClearAll(rd.board, Events(WellFormed(batch)), calls.clears.runs).0
            && forall e :: e in batch && ValidResult(e.event) ==> e !in rd'.stream.entries
  {
    var valid, stream := WellFormed(batch), Discarded(rd.stream, batch, calls.discard);
    WellFormedMembers(batch);
    DiscardSound(rd.stream, db.events, batch, calls.discard);
    AcknowledgedEntries(stream, valid);
    hide SaveBatch, Discarded, WellFormed, ValidResult, EntryIds, Acknowledge;
  }

  /** A failure that a retry may mend leaves every well-formed entry in the stream and buries none of them. */
  lemma RetryKeepsEntries(rd: Redis, db: MySql, batch: seq<Entry>, calls: Calls)
    requires Unambiguous(rd.stream.entries, batch) && WellFormed(batch) != []
    requires var events := Events(WellFormed(batch));
             var error := SaveAndClear(rd.board, db, events, calls.ids, calls.save, calls.clears).error;
             error.Some? && Retryable(error.value)
    ensures var (rd', db') := Processed(rd, db, batch, calls);
            forall e :: e in rd.stream.entries && ValidResult(e.event) ==> e in rd'.stream.entries
  {
    DiscardSound(rd.stream, db.events, batch, calls.discard);
  }

  /** An item of the fallback that its own save refuses for good is buried, and nothing else changes. */
  lemma PoisonBuried(rd: Redis, db: MySql, entry: Entry, i: nat, calls: Calls)
    requires Unambiguous(rd.stream.entries, [entry]) && calls.itemSave(i) == Answered && calls.bury(i)
    requires SaveBatch(db, [entry.event], calls.itemIds(i)).Err?
    requires !Retryable(SaveBatch(db, [entry.event], calls.itemIds(i)).error)
    ensures var (rd', db') := IsolatedItem(rd, db, entry, i, calls);
            && db' == db && rd'.board == rd.board && rd'.stream.dead == rd.stream.dead + [entry]
            && forall e :: e in rd'.stream.entries <==> e in rd.stream.entries && e != entry
  {
    BuriedEntry(rd.stream, entry);
  }
}
