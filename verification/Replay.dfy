/** A client that loads snapshots at different cursors and replays the log ends where the server is. */
module Replay {
  import opened Records
  import opened Buckets
  import opened StoreSpec
  import opened Frames
  import opened Engine
  import HistoryJobs
  import opened Search
  import Sending

  const EVENT_LIMIT: nat := 1000

  // ---- the server's side ----

  /** The events after a cursor, at most `limit` of them. */
  method Events(log: Log, after: nat, limit: nat) returns (found: Option<seq<Event>>)
    requires Contiguous(log.events)
    ensures found.None? <==> limit < 1 || limit > EVENT_LIMIT
    ensures found.Some? ==> found.value == if after == MAX_UINT64 then [] else log.events[Min(after, |log.events|)..Min(after + limit, |log.events|)]
  {
    if limit < 1 || limit > EVENT_LIMIT { return None; }
    if after == MAX_UINT64 { return Some([]); }
    var start := 0;
    while start < |log.events| && log.events[start].id < after + 1
      invariant start <= Min(after, |log.events|)
    {
      IdAt(log.events, start);
      start := start + 1;
    }
    if start < |log.events| { IdAt(log.events, start); }
    var stop := start;
    while stop < |log.events| && stop - start < limit
      invariant start <= stop <= Min(start + limit, |log.events|)
    {
      stop := stop + 1;
    }
    found := Some(log.events[start..stop]);
  }

  function Min(a: nat, b: nat): nat
  {
    if a < b then a else b
  }

  function Max(a: nat, b: nat): nat
  {
    if a < b then b else a
  }

  lemma {:induction false} IdAt(events: seq<Event>, i: nat)
    requires Contiguous(events) && i < |events|
    ensures events[i].id == i + 1
  {
    if i < |events| - 1 { IdAt(events[..|events| - 1], i); }
  }

  lemma {:induction false} ContiguousPrefix(events: seq<Event>, n: nat)
    requires Contiguous(events) && n <= |events|
    ensures Contiguous(events[..n])
  {
    if n < |events| {
      ContiguousPrefix(events[..|events| - 1], n);
      assert events[..|events| - 1][..n] == events[..n];
    } else {
      assert events[..n] == events;
    }
  }

  // ---- the client's side ----

  /** The id a client files a record under comes from the record itself. */
  function DataId(data: Data): string
  {
    match data
    case ConversationData(c) => c.id
    case MessageData(m) => m.id
    case OutboxData(o) => o.id
    case HistoryData(job) => job.id
    case Opaque(_) => ""
    case InvalidJson => ""
  }

  function Listed(view: map<string, Data>, records: seq<Record>): map<string, Data>
  {
    if records == [] then view
    else
      var last := records[|records| - 1].data;
      Listed(view, records[..|records| - 1])[DataId(last) := last]
  }

  /** What the server holds of one kind. */
  function View(latest: map<Key, Data>, kind: Kind): map<string, Data>
  {
    map id | id in KindIds(latest, kind) :: ViewAt(latest, kind, id)
  }

  function ViewAt(latest: map<Key, Data>, kind: Kind, id: string): Data
  {
    if Key(kind, id) in latest then latest[Key(kind, id)] else InvalidJson
  }

  method ListAll(records: seq<Record>) returns (view: map<string, Data>)
    ensures view == Listed(map[], records)
  {
    view := map[];
    for i := 0 to |records|
      invariant view == Listed(map[], records[..i])
    {
      assert records[..i + 1][..i] == records[..i];
      view := view[DataId(records[i].data) := records[i].data];
    }
    assert records[..|records|] == records;
  }

  /** The three lists a client keeps, the cursor each was loaded at, and how far it has replayed. */
  class Client {
    var conversations: map<string, Data>
    var outbox: map<string, Data>
    var historyJobs: map<string, Data>
    var conversationCursor: nat
    var outboxCursor: nat
    var historyCursor: nat
    var cursor: nat

    constructor ()
      ensures conversations == map[] && outbox == map[] && historyJobs == map[]
      ensures conversationCursor == 0 && outboxCursor == 0 && historyCursor == 0 && cursor == 0
    {
      conversations, outbox, historyJobs := map[], map[], map[];
      conversationCursor, outboxCursor, historyCursor, cursor := 0, 0, 0, 0;
    }

    function Holds(kind: Kind): (map<string, Data>, nat)
      reads this
    {
      match kind
      case ConversationKind => (conversations, conversationCursor)
      case OutboxKind => (outbox, outboxCursor)
      case HistoryKind => (historyJobs, historyCursor)
      case _ => (map[], 0)
    }

    /** List `kind` is the server's at the later of its own cursor and the replay's. */
    ghost predicate SyncedAt(log: Log, kind: Kind)
      reads this
    {
      var (view, loaded) := Holds(kind);
      && cursor <= |log.events| && loaded <= |log.events|
      && view == View(Fold(log.events[..Max(cursor, loaded)]), kind)
    }

    ghost predicate Synced(log: Log)
      reads this
    {
      SyncedAt(log, ConversationKind) && SyncedAt(log, OutboxKind) && SyncedAt(log, HistoryKind)
    }

    /**
     * Replaces the lists, each from its own read, and rewinds the replay to the earliest
     * of them. When only the jobs could not be read, theirs stay as they were.
     */
    method LoadAll(cs: seq<Record>, cc: nat, os: seq<Record>, oc: nat, hs: Option<seq<Record>>, hc: nat)
      modifies this
      ensures conversations == Listed(map[], cs) && outbox == Listed(map[], os)
      ensures conversationCursor == cc && outboxCursor == oc
      ensures hs.Some? ==> historyJobs == Listed(map[], hs.value) && historyCursor == hc && cursor == Min(Min(cc, oc), hc)
      ensures hs.None? ==> unchanged(`historyJobs, `historyCursor) && cursor == Min(cc, oc)
    {
      conversations := ListAll(cs);
      conversationCursor := cc;
      outbox := ListAll(os);
      outboxCursor := oc;
      if hs.Some? {
        historyJobs := ListAll(hs.value);
        historyCursor := hc;
      }
      cursor := Min(conversationCursor, outboxCursor);
      if hs.Some? { cursor := Min(cursor, historyCursor); }
    }

    method ApplyEvent(e: Event)
      modifies this
      ensures conversations == (if e.key.kind.ConversationKind? && e.id > conversationCursor
                                then old(conversations)[e.key.id := e.data] else old(conversations))
      ensures outbox == (if e.key.kind.OutboxKind? && e.id > outboxCursor
                         then old(outbox)[e.key.id := e.data] else old(outbox))
      ensures historyJobs == (if e.key.kind.HistoryKind? && e.id > historyCursor
                              then old(historyJobs)[e.key.id := e.data] else old(historyJobs))
      ensures cursor == Max(old(cursor), e.id)
      ensures unchanged(`conversationCursor, `outboxCursor, `historyCursor)
    {
      match e.key.kind {
        case ConversationKind =>
          if e.id > conversationCursor { conversations := conversations[e.key.id := e.data]; }
        case OutboxKind =>
          if e.id > outboxCursor { outbox := outbox[e.key.id := e.data]; }
        case HistoryKind =>
          if e.id > historyCursor { historyJobs := historyJobs[e.key.id := e.data]; }
        case _ =>
      }
      if e.id != 0 { cursor := Max(cursor, e.id); }
    }
  }

  lemma ViewMember(latest: map<Key, Data>, kind: Kind, id: string)
    ensures id in View(latest, kind) <==> Key(kind, id) in latest
    ensures Key(kind, id) in latest ==> View(latest, kind)[id] == latest[Key(kind, id)]
  {
    KindIdMember(latest, kind, id);
  }

  /** One more event changes the view of its own kind, at its own record. */
  lemma ViewStep(events: seq<Event>, n: nat, kind: Kind)
    requires n < |events|
    ensures var before, after := View(Fold(events[..n]), kind), View(Fold(events[..n + 1]), kind);
      after == if events[n].key.kind == kind then before[events[n].key.id := events[n].data] else before
  {
    var a, b, e := Fold(events[..n]), Fold(events[..n + 1]), events[n];
    assert events[..n + 1][..n] == events[..n];
    assert b == a[e.key := e.data];
    forall id ensures (id in View(b, kind) <==> id in View(a, kind) || (e.key.kind == kind && id == e.key.id)) {
      ViewMember(a, kind, id);
      ViewMember(b, kind, id);
    }
    forall id | id in View(b, kind)
      ensures View(b, kind)[id] == if e.key.kind == kind && id == e.key.id then e.data else View(a, kind)[id] {
      ViewMember(a, kind, id);
      ViewMember(b, kind, id);
    }
  }

  /** Taking the next event of the log keeps a list in step, whether the list was loaded before or after it. */
  lemma NextEventSyncs(log: Log, kind: Kind, view: map<string, Data>, loaded: nat, cursor: nat)
    requires Contiguous(log.events) && cursor < |log.events| && loaded <= |log.events|
    requires view == View(Fold(log.events[..Max(cursor, loaded)]), kind)
    ensures var e := log.events[cursor];
      && e.id == cursor + 1
      && (if e.key.kind == kind && e.id > loaded then view[e.key.id := e.data] else view)
           == View(Fold(log.events[..Max(cursor + 1, loaded)]), kind)
  {
    IdAt(log.events, cursor);
    if cursor >= loaded { ViewStep(log.events, cursor, kind); }
  }

  /** The client's loop over one batch of events. */
  method Take(client: Client, batch: seq<Event>, ghost log: Log)
    requires Contiguous(log.events) && client.Synced(log)
    requires client.cursor + |batch| <= |log.events| && batch == log.events[client.cursor..client.cursor + |batch|]
    modifies client
    ensures client.Synced(log) && client.cursor == old(client.cursor) + |batch|
  {
    ghost var from := client.cursor;
    var i := 0;
    while i < |batch|
      invariant 0 <= i <= |batch| && client.cursor == from + i
      invariant client.Synced(log)
    {
      assert batch[i] == log.events[client.cursor];
      TakeOne(client, batch[i], log);
      i := i + 1;
    }
  }

  method TakeOne(client: Client, e: Event, ghost log: Log)
    requires Contiguous(log.events) && client.Synced(log)
    requires client.cursor < |log.events| && e == log.events[client.cursor]
    modifies client
    ensures client.Synced(log) && client.cursor == old(client.cursor) + 1
  {
    NextEventSyncs(log, ConversationKind, client.conversations, client.conversationCursor, client.cursor);
    NextEventSyncs(log, OutboxKind, client.outbox, client.outboxCursor, client.cursor);
    NextEventSyncs(log, HistoryKind, client.historyJobs, client.historyCursor, client.cursor);
    client.ApplyEvent(e);
  }

  /** A client that has replayed everything holds exactly the server's records. */
  lemma CaughtUpIsPresent(client: Client, log: Log, kind: Kind)
    requires Logged(log) && client.Synced(log) && client.cursor == |log.events|
    requires kind.ConversationKind? || kind.OutboxKind? || kind.HistoryKind?
    ensures client.Holds(kind).0 == View(log.latest, kind)
  {
    assert log.events[..|log.events|] == log.events;
  }

  // ---- records are filed under the ids they carry ----

  ghost predicate NamedAt(db: DB, id: string)
  {
    RowNamed(db, id) && HistoryJobs.JobNamed(db, id) && Sending.Mirrored(db, id)
  }

  ghost predicate RecordsNamed(db: DB)
  {
    Keyed(db) && forall id :: NamedAt(db, id)
  }

  ghost predicate Legal(t: Txn)
  {
    HistoryJobs.KeepsCursors(t) && Search.Filed(t)
  }

  lemma StepNamedAt(db: DB, t: Txn, id: string)
    requires Keyed(db) && HistoryJobs.JobsNamed(db) && NamedAt(db, id) && Legal(t)
    ensures NamedAt(Step(db, t), id)
  {
    Search.StepNamed(db, t, id);
    HistoryJobs.StepTrack(db, t, id);
    Sending.StepKept(db, t, id);
  }

  lemma StepNamedAll(db: DB, t: Txn, next: DB)
    requires RecordsNamed(db) && Legal(t) && next == Step(db, t)
    ensures RecordsNamed(next)
  {
    Sending.StepKeyed(db, t);
    forall h ensures HistoryJobs.JobNamed(db, h) { assert NamedAt(db, h); }
    forall id ensures NamedAt(next, id) {
      assert NamedAt(db, id);
      StepNamedAt(db, t, id);
    }
  }

  lemma {:induction false} RunNamed(db: DB, ts: seq<Txn>)
    requires RecordsNamed(db) && forall t :: t in ts ==> Legal(t)
    ensures RecordsNamed(Run(db, ts))
    decreases |ts|
  {
    if ts != [] {
      assert Legal(ts[0]);
      StepNamedAll(db, ts[0], Step(db, ts[0]));
      RunNamed(Step(db, ts[0]), ts[1..]);
    }
  }

  predicate Listable(kind: Kind)
  {
    kind.ConversationKind? || kind.OutboxKind? || kind.HistoryKind?
  }

  lemma NamedId(db: DB, kind: Kind, id: string)
    requires RecordsNamed(db) && Listable(kind) && Key(kind, id) in db.log.latest
    ensures DataId(db.log.latest[Key(kind, id)]) == id
  {
    assert NamedAt(db, id);
  }

  lemma {:induction false} ListedAt(view: map<string, Data>, db: DB, kind: Kind, ids: seq<string>, id: string)
    requires Stored(db, kind, ids) && forall x :: x in ids ==> DataId(db.log.latest[Key(kind, x)]) == x
    ensures var r := Listed(view, RecordsOf(db, kind, ids));
      && (id in r <==> id in view || id in ids)
      && (id in r ==> r[id] == if id in ids then db.log.latest[Key(kind, id)] else view[id])
    decreases |ids|
  {
    if ids != [] {
      var n := |ids| - 1;
      assert ids == ids[..n] + [ids[n]] && Stored(db, kind, ids[..n]) && ids[n] in ids;
      assert RecordsOf(db, kind, ids)[..n] == RecordsOf(db, kind, ids[..n]);
      ListedAt(view, db, kind, ids[..n], id);
    }
  }

  /** Filing a snapshot's records one by one gives the server's view of that kind. */
  lemma ListedIsView(db: DB, kind: Kind)
    requires RecordsNamed(db) && Listable(kind)
    ensures var ids := SortedKeys(KindIds(db.log.latest, kind));
      Stored(db, kind, ids) && Listed(map[], RecordsOf(db, kind, ids)) == View(db.log.latest, kind)
  {
    var ids := SortedKeys(KindIds(db.log.latest, kind));
    forall id | id in ids ensures Key(kind, id) in db.log.latest && DataId(db.log.latest[Key(kind, id)]) == id {
      KindIdMember(db.log.latest, kind, id);
      NamedId(db, kind, id);
    }
    var view := Listed(map[], RecordsOf(db, kind, ids));
    forall id ensures (id in view <==> id in View(db.log.latest, kind)) && (id in view ==> view[id] == View(db.log.latest, kind)[id]) {
      ListedAt(map[], db, kind, ids, id);
      ViewMember(db.log.latest, kind, id);
      KindIdMember(db.log.latest, kind, id);
    }
  }

  // ---- a session ----

  /** A state some read saw, no later than the log. */
  ghost predicate ReadBefore(db: DB, log: Log)
  {
    Logged(db.log) && RecordsNamed(db) && db.log.events <= log.events
  }

  /** One list with its cursor, both from one read transaction. */
  method ReadList(db: DB, kind: Kind, ghost log: Log) returns (records: seq<Record>, cursor: nat)
    requires ReadBefore(db, log) && Listable(kind)
    ensures cursor == |db.log.events| <= |log.events| && Listed(map[], records) == View(Fold(log.events[..cursor]), kind)
  {
    ListedIsView(db, kind);
    assert log.events[..db.log.eventSeq] == db.log.events;
    records, cursor := SnapshotCurrent(db, kind);
  }

  /** Three reads at three moments, in any order, leave the client in step with the log. */
  method Reload(client: Client, forConversations: DB, forOutbox: DB, forHistory: DB, ghost log: Log)
    requires ReadBefore(forConversations, log) && ReadBefore(forOutbox, log) && ReadBefore(forHistory, log)
    modifies client
    ensures client.Synced(log)
  {
    var cs, cc := ReadList(forConversations, ConversationKind, log);
    var os, oc := ReadList(forOutbox, OutboxKind, log);
    var hs, hc := ReadList(forHistory, HistoryKind, log);
    client.LoadAll(cs, cc, os, oc, Some(hs), hc);
  }

  ghost predicate Running(db: DB)
  {
    Logged(db.log) && RecordsNamed(db)
  }

  lemma RunRunning(db: DB, ts: seq<Txn>)
    requires Running(db) && forall t :: t in ts ==> Legal(t)
    ensures Running(Run(db, ts)) && db.log.events <= Run(db, ts).log.events
  {
    RunNamed(db, ts);
    RunEvolves(db, ts, Key(UploadKind, ""));
  }

  /** What holds between the client's reads as the server moves on. */
  lemma SyncLasts(client: Client, a: Log, b: Log)
    requires client.Synced(a) && a.events <= b.events
    ensures client.Synced(b)
  {
    forall kind | Listable(kind) ensures client.SyncedAt(b, kind) {
      assert client.SyncedAt(a, kind);
      var n := Max(client.cursor, client.Holds(kind).1);
      assert a.events[..n] == b.events[..n];
    }
    assert client.SyncedAt(b, ConversationKind) && client.SyncedAt(b, OutboxKind) && client.SyncedAt(b, HistoryKind);
  }

  datatype Batch = Batch(meanwhile: seq<Txn>, limit: nat)

  /**
   * A client loads its lists while the server goes on, then replays batch by batch
   * while it still goes on. It is in step after every batch, and once a read comes
   * back empty it holds exactly the server's records.
   */
  method Session(store: Store, client: Client, pauses: seq<seq<Txn>>, batches: seq<Batch>) returns (live: bool)
    requires Running(store.db) && |pauses| == 3
    requires forall i, t :: 0 <= i < 3 && t in pauses[i] ==> Legal(t)
    requires forall i, t :: 0 <= i < |batches| && t in batches[i].meanwhile ==> Legal(t)
    requires forall i :: 0 <= i < |batches| ==> 1 <= batches[i].limit <= EVENT_LIMIT
    modifies store, client
    ensures client.Synced(store.db.log)
    ensures live ==> forall kind :: Listable(kind) ==> client.Holds(kind).0 == View(store.db.log.latest, kind)
  {
    var forConversations := store.db;
    Wait(store, pauses[0]);
    var forOutbox := store.db;
    Wait(store, pauses[1]);
    var forHistory := store.db;
    Wait(store, pauses[2]);
    Reload(client, forConversations, forOutbox, forHistory, store.db.log);
    live := false;
    for i := 0 to |batches|
      invariant Running(store.db) && client.Synced(store.db.log)
      invariant live ==> client.cursor == |store.db.log.events|
    {
      ghost var before := store.db.log;
      Wait(store, batches[i].meanwhile);
      SyncLasts(client, before, store.db.log);
      live := TakeBatch(store, client, batches[i].limit);
    }
    if live {
      forall kind | Listable(kind) ensures client.Holds(kind).0 == View(store.db.log.latest, kind) {
        CaughtUpIsPresent(client, store.db.log, kind);
      }
    }
  }

  method Wait(store: Store, ts: seq<Txn>)
    requires Running(store.db) && forall t :: t in ts ==> Legal(t)
    modifies store
    ensures Running(store.db) && old(store.db).log.events <= store.db.log.events
  {
    RunRunning(store.db, ts);
    store.Interleave(ts);
  }

  method TakeBatch(store: Store, client: Client, limit: nat) returns (live: bool)
    requires Running(store.db) && client.Synced(store.db.log) && 1 <= limit <= EVENT_LIMIT
    modifies client
    ensures client.Synced(store.db.log)
    ensures live ==> client.cursor == |store.db.log.events|
  {
    var found := Events(store.db.log, client.cursor, limit);
    live := found.value == [] && client.cursor != MAX_UINT64;
    Take(client, found.value, store.db.log);
  }

  // ---- when the jobs cannot be read ----

  /** What the last event about a record says, among the events from p up to q. */
  function LastIn(events: seq<Event>, p: nat, q: nat, key: Key): Option<Data>
    requires p <= q <= |events|
    decreases q
  {
    if p == q then None
    else if events[q - 1].key == key then Some(events[q - 1].data)
    else LastIn(events, p, q - 1, key)
  }

  /** Every job that changed between p and q ends up as the view already shows it. */
  ghost predicate NothingMissed(view: map<string, Data>, events: seq<Event>, p: nat, q: nat)
    requires p <= q <= |events|
  {
    forall id :: var last := LastIn(events, p, q, Key(HistoryKind, id));
      last.Some? ==> id in view && view[id] == last.value
  }

  lemma {:induction false} FoldLast(events: seq<Event>, p: nat, q: nat, key: Key)
    requires p <= q <= |events|
    ensures var a, b, last := Fold(events[..p]), Fold(events[..q]), LastIn(events, p, q, key);
      && (key in b <==> key in a || last.Some?)
      && (key in b ==> b[key] == if last.Some? then last.value else a[key])
    decreases q
  {
    if p < q {
      FoldLast(events, p, q - 1, key);
      assert events[..q][..q - 1] == events[..q - 1];
    }
  }

  lemma ViewLast(events: seq<Event>, p: nat, q: nat, id: string)
    requires p <= q <= |events|
    ensures var a, b := View(Fold(events[..p]), HistoryKind), View(Fold(events[..q]), HistoryKind);
      var last := LastIn(events, p, q, Key(HistoryKind, id));
      && (id in b <==> id in a || last.Some?)
      && (id in b ==> b[id] == if last.Some? then last.value else a[id])
  {
    FoldLast(events, p, q, Key(HistoryKind, id));
    ViewMember(Fold(events[..p]), HistoryKind, id);
    ViewMember(Fold(events[..q]), HistoryKind, id);
  }

  /** A list that was in step at p is in step at q if and only if it missed nothing between. */
  lemma SkippedJobsIff(events: seq<Event>, view: map<string, Data>, p: nat, q: nat)
    requires p <= q <= |events| && view == View(Fold(events[..p]), HistoryKind)
    ensures view == View(Fold(events[..q]), HistoryKind) <==> NothingMissed(view, events, p, q)
  {
    var after := View(Fold(events[..q]), HistoryKind);
    if NothingMissed(view, events, p, q) {
      forall id ensures (id in after <==> id in view) && (id in after ==> after[id] == view[id]) {
        ViewLast(events, p, q, id);
        var last := LastIn(events, p, q, Key(HistoryKind, id));
        assert last.Some? ==> id in view && view[id] == last.value;
      }
    } else {
      var id :| var last := LastIn(events, p, q, Key(HistoryKind, id)); last.Some? && !(id in view && view[id] == last.value);
      ViewLast(events, p, q, id);
    }
  }

  /** The guard a caller can check: no job changed between. */
  lemma {:induction false} NoJobEventNothingMissed(events: seq<Event>, view: map<string, Data>, p: nat, q: nat)
    requires p <= q <= |events| && forall i :: p <= i < q ==> !events[i].key.kind.HistoryKind?
    ensures NothingMissed(view, events, p, q)
    decreases q
  {
    if p < q {
      NoJobEventNothingMissed(events, view, p, q - 1);
      forall id ensures LastIn(events, p, q, Key(HistoryKind, id)) == LastIn(events, p, q - 1, Key(HistoryKind, id)) {}
    }
  }

  /**
   * A load whose jobs could not be read: the other two lists are in step, the jobs
   * stay as they were while the replay moves on past whatever happened to them.
   * They are in step with where the replay now stands if and only if they missed nothing.
   */
  method ReloadWithoutJobs(client: Client, forConversations: DB, forOutbox: DB, ghost log: Log)
    requires ReadBefore(forConversations, log) && ReadBefore(forOutbox, log) && client.SyncedAt(log, HistoryKind)
    requires Max(client.cursor, client.historyCursor) <= Min(|forConversations.log.events|, |forOutbox.log.events|)
    modifies client
    ensures client.SyncedAt(log, ConversationKind) && client.SyncedAt(log, OutboxKind)
    ensures unchanged(client`historyJobs, client`historyCursor)
    ensures client.historyCursor <= client.cursor == Min(|forConversations.log.events|, |forOutbox.log.events|) <= |log.events|
    ensures old(Max(client.cursor, client.historyCursor)) <= client.cursor
    ensures client.SyncedAt(log, HistoryKind) <==>
      NothingMissed(client.historyJobs, log.events, old(Max(client.cursor, client.historyCursor)), client.cursor)
  {
    ghost var p, view := Max(client.cursor, client.historyCursor), client.historyJobs;
    ghost var q := Min(|forConversations.log.events|, |forOutbox.log.events|);
    SkippedJobsIff(log.events, view, p, q);
    var cs, cc := ReadList(forConversations, ConversationKind, log);
    var os, oc := ReadList(forOutbox, OutboxKind, log);
    client.LoadAll(cs, cc, os, oc, None, 0);
  }

  // ---- and the client replays on ----

  /** A list of jobs after the events from q up to n. */
  function Overlaid(view: map<string, Data>, events: seq<Event>, q: nat, n: nat): map<string, Data>
    requires q <= n <= |events|
    decreases n
  {
    if q == n then view
    else
      var earlier, e := Overlaid(view, events, q, n - 1), events[n - 1];
      if e.key.kind.HistoryKind? then earlier[e.key.id := e.data] else earlier
  }

  /** The client's loop over a batch, for the jobs alone, in step or not. */
  method TakeJobs(client: Client, batch: seq<Event>, ghost log: Log)
    requires Contiguous(log.events) && client.historyCursor <= client.cursor
    requires client.cursor + |batch| <= |log.events| && batch == log.events[client.cursor..client.cursor + |batch|]
    modifies client
    ensures client.cursor == old(client.cursor) + |batch| && client.historyCursor == old(client.historyCursor)
    ensures client.historyJobs == Overlaid(old(client.historyJobs), log.events, old(client.cursor), client.cursor)
  {
    ghost var from := client.cursor;
    var i := 0;
    while i < |batch|
      invariant 0 <= i <= |batch| && client.cursor == from + i && client.historyCursor == old(client.historyCursor)
      invariant client.historyJobs == Overlaid(old(client.historyJobs), log.events, from, client.cursor)
    {
      assert batch[i] == log.events[client.cursor];
      IdAt(log.events, client.cursor);
      client.ApplyEvent(batch[i]);
      i := i + 1;
    }
  }

  lemma {:induction false} OverlaidLast(view: map<string, Data>, events: seq<Event>, q: nat, n: nat, id: string)
    requires q <= n <= |events|
    ensures var after, last := Overlaid(view, events, q, n), LastIn(events, q, n, Key(HistoryKind, id));
      && (id in after <==> id in view || last.Some?)
      && (id in after ==> after[id] == if last.Some? then last.value else view[id])
    decreases n
  {
    if q < n { OverlaidLast(view, events, q, n - 1, id); }
  }

  /** Every job the list missed changed again after the gap. */
  ghost predicate GapHealed(view: map<string, Data>, events: seq<Event>, p: nat, q: nat)
    requires p <= q <= |events|
  {
    forall id :: var last := LastIn(events, p, q, Key(HistoryKind, id));
      last.Some? && LastIn(events, q, |events|, Key(HistoryKind, id)).None? ==> id in view && view[id] == last.value
  }

  lemma {:induction false} LastSplits(events: seq<Event>, p: nat, q: nat, n: nat, key: Key)
    requires p <= q <= n <= |events|
    ensures LastIn(events, p, n, key) ==
      if LastIn(events, q, n, key).Some? then LastIn(events, q, n, key) else LastIn(events, p, q, key)
    decreases n
  {
    if q < n && events[n - 1].key != key { LastSplits(events, p, q, n - 1, key); }
  }

  /**
   * Replaying to the end after such a load gives the server's jobs if and only if
   * every job that changed in the gap, to something else than the client shows,
   * changed again after it: the client never catches up by replaying alone.
   */
  lemma CaughtUpJobsIff(events: seq<Event>, view: map<string, Data>, p: nat, q: nat)
    requires p <= q <= |events| && view == View(Fold(events[..p]), HistoryKind)
    ensures Overlaid(view, events, q, |events|) == View(Fold(events), HistoryKind) <==> GapHealed(view, events, p, q)
  {
    var n := |events|;
    var mine, theirs := Overlaid(view, events, q, n), View(Fold(events), HistoryKind);
    assert events[..n] == events;
    if GapHealed(view, events, p, q) {
      forall id ensures (id in mine <==> id in theirs) && (id in mine ==> mine[id] == theirs[id]) {
        JobAtEnd(events, view, p, q, id);
        var last := LastIn(events, p, q, Key(HistoryKind, id));
        assert last.Some? && LastIn(events, q, n, Key(HistoryKind, id)).None? ==> id in view && view[id] == last.value;
      }
    } else {
      var id :| var last := LastIn(events, p, q, Key(HistoryKind, id));
        last.Some? && LastIn(events, q, n, Key(HistoryKind, id)).None? && !(id in view && view[id] == last.value);
      JobAtEnd(events, view, p, q, id);
    }
  }

  lemma JobAtEnd(events: seq<Event>, view: map<string, Data>, p: nat, q: nat, id: string)
    requires p <= q <= |events| && view == View(Fold(events[..p]), HistoryKind)
    ensures var mine, theirs := Overlaid(view, events, q, |events|), View(Fold(events[..|events|]), HistoryKind);
      var inGap, since := LastIn(events, p, q, Key(HistoryKind, id)), LastIn(events, q, |events|, Key(HistoryKind, id));
      && (id in mine <==> id in view || since.Some?)
      && (id in mine ==> mine[id] == if since.Some? then since.value else view[id])
      && (id in theirs <==> id in view || inGap.Some? || since.Some?)
      && (id in theirs ==> theirs[id] == if since.Some? then since.value else if inGap.Some? then inGap.value else view[id])
  {
    OverlaidLast(view, events, q, |events|, id);
    ViewLast(events, p, |events|, id);
    LastSplits(events, p, q, |events|, Key(HistoryKind, id));
  }

  /** The same over the class: what is left of the log is replayed after a load that skipped p up to the cursor. */
  method CatchUp(client: Client, rest: seq<Event>, ghost log: Log, ghost p: nat)
    requires Logged(log) && client.historyCursor <= client.cursor && p <= client.cursor <= |log.events|
    requires client.historyJobs == View(Fold(log.events[..p]), HistoryKind) && rest == log.events[client.cursor..]
    modifies client
    ensures client.cursor == |log.events|
    ensures client.historyJobs == View(log.latest, HistoryKind) <==>
      GapHealed(old(client.historyJobs), log.events, p, old(client.cursor))
  {
    CaughtUpJobsIff(log.events, client.historyJobs, p, client.cursor);
    TakeJobs(client, rest, log);
  }

  // ---- a job the client never learns of ----

  const SOME_JOB := HistoryJob(0, 0, SCHEMA, "messages:c", "messages", "c", "", JobQueued, 0, 0, "", 0, 0)

  lemma JobLogged(next: DB)
    requires next == Commit(EMPTY, StoreSpec.QueueHistory(EMPTY, SOME_JOB, false, 1))
    ensures Running(next) && |next.log.events| == 1 && "messages:c" in View(next.log.latest, HistoryKind)
  {
    var t := QueueHistoryTxn(SOME_JOB, false, 1);
    assert HistoryTx(EMPTY, "messages:c") == Missing;
    assert StoreSpec.Requeue(EMPTY, SOME_JOB, false, 1).Done?;
    assert Running(EMPTY);
    RunRunning(EMPTY, [t]);
    RunOne(EMPTY, t);
    ViewMember(next.log.latest, HistoryKind, "messages:c");
  }

  /**
   * An import is queued, a client loads everything but the jobs and replays until
   * a read comes back empty: the job is on the server and not with the client.
   */
  method SkippedJobExample() returns (store: Store, client: Client)
    ensures fresh(store) && fresh(client)
    ensures client.cursor == |store.db.log.events|
    ensures "messages:c" in View(store.db.log.latest, HistoryKind) && "messages:c" !in client.historyJobs
  {
    store := new Store();
    client := new Client();
    var queued := store.QueueHistory(SOME_JOB, false, 1);
    JobLogged(store.db);
    EmptyView(store.db.log);
    ReloadWithoutJobs(client, store.db, store.db, store.db.log);
    var found := Events(store.db.log, client.cursor, EVENT_LIMIT);
    TakeJobs(client, found.value, store.db.log);
  }

  lemma EmptyView(log: Log)
    ensures View(Fold(log.events[..0]), HistoryKind) == map[]
  {
    forall id ensures id !in View(map[], HistoryKind) { ViewMember(map[], HistoryKind, id); }
  }
}
