/**
 * What each store transaction (internal/store) computes, as a function from one
 * committed database value to the next. A transaction either commits or aborts,
 * and an aborted one changes nothing. `now` is the transaction's clock reading.
 */
module StoreSpec {
  import opened Records
  import opened Buckets

  datatype Kind = ConversationKind | MessageKind | OutboxKind | HistoryKind | UploadKind
  datatype Key = Key(kind: Kind, id: string)

  /** A stored JSON document, decoded; Opaque is valid JSON of no known record type. */
  datatype Data =
    | ConversationData(conversation: Conversation)
    | MessageData(message: Message)
    | OutboxData(record: Outbox)
    | HistoryData(job: HistoryJob)
    | Opaque(json: string)
    | InvalidJson

  datatype Event = Event(id: nat, key: Key, time: Time, data: Data)
  datatype Incoming = Incoming(key: Key, data: Data, historical: bool)

  /** A record as a provider hands it over, with what must stay private. */
  datatype Snapshot = Snapshot(event: Incoming, private: map<string, Bytes>)

  datatype Attempt = Attempt(started: Time, expires: Time)
  datatype LatestMessage = LatestMessage(
    messageID: string, time: Time, preview: string, senderID: string, direction: string)

  /** The event log, the latest snapshot of each record, and the messages-by-conversation index. */
  datatype Log = Log(events: seq<Event>, eventSeq: nat, latest: map<Key, Data>, index: set<string>)

  /** When each record was last observed, and the sequence numbering observations. */
  datatype Seen = Seen(versions: map<Key, nat>, versionSeq: nat)

  datatype Sends = Sends(outbox: map<string, Outbox>, outboxTxn: map<string, string>)

  /** Which session each stored record belongs to. */
  datatype Own = Own(epoch: nat, epochs: map<Key, nat>, previousConversations: nat, previousMessages: nat)

  datatype Meta = Meta(
    session: Option<Bytes>, attempt: Option<Attempt>, recovery: Option<PairingRecovery>, contacts: Option<Bytes>)

  /** The buckets of the database file. */
  datatype DB = DB(
    log: Log, seen: Seen, sends: Sends, own: Own, newest: map<string, LatestMessage>,
    private: map<string, Bytes>, pages: map<string, set<Bytes>>, meta: Meta)

  const EMPTY := DB(Log([], 0, map[], {}), Seen(map[], 0), Sends(map[], map[]), Own(0, map[], 0, 0),
                    map[], map[], map[], Meta(None, None, None, None))

  datatype Error =
    | NotFound | Conflict | InvalidEvent | Undecodable
    | InvalidConversationResult | InvalidSendState | InvalidMarker

  datatype Outcome<+T> = Done(db: DB, value: T) | Abort(error: Error)
  {
    predicate IsFailure() { Abort? }
    function PropagateFailure<U>(): Outcome<U> requires Abort? { Abort(error) }
    function Extract(): (DB, T) requires Done? { (db, value) }
  }

  // ---- log, observations, ownership ----

  function IndexKey(conversationID: string, messageID: string): string
  {
    conversationID + "\0" + messageID
  }

  function IndexMessage(index: set<string>, m: Message): set<string>
  {
    if m.id == "" || m.conversationID == "" then index else index + {IndexKey(m.conversationID, m.id)}
  }

  function Appended(db: DB, key: Key, data: Data, now: Time): DB
  {
    var id := db.log.eventSeq + 1;
    var indexed := if key.kind.MessageKind? && data.MessageData? then IndexMessage(db.log.index, data.message) else db.log.index;
    db.(log := Log(db.log.events + [Event(id, key, now, data)], id, db.log.latest[key := data], indexed))
  }

  function AppendTx(db: DB, key: Key, data: Data, now: Time): Outcome<bool>
  {
    if key.id == "" || data.InvalidJson? then Abort(InvalidEvent)
    else if key in db.log.latest && db.log.latest[key] == data then Done(db, false)
    else if key.kind.MessageKind? && !data.MessageData? then Abort(Undecodable)
    else Done(Appended(db, key, data, now), true)
  }

  function ObserveTx(db: DB, key: Key): DB
  {
    db.(seen := db.seen.(versionSeq := db.seen.versionSeq + 1, versions := db.seen.versions[key := db.seen.versionSeq + 1]))
  }

  predicate EntityCurrent(db: DB, key: Key)
  {
    db.own.epoch == 0 || (key in db.own.epochs && db.own.epochs[key] == db.own.epoch)
  }

  predicate Owned(kind: Kind)
  {
    kind.MessageKind? || kind.ConversationKind?
  }

  function PreviousCount(db: DB, kind: Kind): nat
  {
    if kind.ConversationKind? then db.own.previousConversations else db.own.previousMessages
  }

  function WithPreviousCount(db: DB, kind: Kind, count: nat): DB
  {
    if kind.ConversationKind? then db.(own := db.own.(previousConversations := count)) else db.(own := db.own.(previousMessages := count))
  }

  /** The stored count moves down when a record left by an earlier session is claimed by this one. */
  function StampEpoch(db: DB, key: Key): DB
  {
    if !Owned(key.kind) then db
    else
      var claimed := db.own.epoch > 0 && key in db.log.latest && !(key in db.own.epochs && db.own.epochs[key] == db.own.epoch);
      var counted :=
        if claimed && PreviousCount(db, key.kind) > 0
        then WithPreviousCount(db, key.kind, PreviousCount(db, key.kind) - 1)
        else db;
      counted.(own := counted.own.(epochs := counted.own.epochs[key := db.own.epoch]))
  }

  // ---- conversation previews ----

  const UNREAD_WINDOW: nat := 5 * 60 * 1_000_000_000

  function PreviewSource(m: Message): Option<LatestMessage>
  {
    if m.schema != SCHEMA || m.id == "" || m.conversationID == "" || m.time == 0 then None
    else
      var shown := if m.deleted then m.(text := "Message deleted", attachments := []) else m;
      var l := LatestMessage(m.id, m.time, PreviewText(shown), m.senderID, m.direction);
      if l.preview == "" then None else Some(l)
  }

  predicate Contains(s: string, part: string)
  {
    HasPrefix(s, part) || (s != "" && Contains(s[1..], part))
  }

  function UnreadAfter(m: Message, isNew: bool, previousStatus: string, now: Time): Option<bool>
  {
    var displayed := Contains(m.status, "displayed");
    if m.direction == "incoming" && displayed && !Contains(previousStatus, "displayed") then Some(false)
    else if !isNew then None
    else if m.direction == "outgoing" then Some(false)
    else if m.direction == "incoming" && !displayed && now - m.time <= UNREAD_WINDOW then Some(true)
    else None
  }

  /** Folds the newest message into a row; true when a list row changes. */
  function MergeLatest(c: Conversation, l: LatestMessage, unread: Option<bool>): (Conversation, bool)
  {
    if l.time < c.updated then (c, false)
    else
      var moved := c.preview != l.preview || c.previewSenderID != l.senderID
                   || c.previewDirection != l.direction || l.time > c.updated;
      var described := c.(preview := l.preview, previewSenderID := l.senderID,
                          previewDirection := l.direction, updated := l.time);
      var counted :=
        if unread.Some? && c.protocol == "whatsapp"
        then described.(unreadCount := if unread.value then (c.unreadCount + 1) % UINT32 else 0)
        else described;
      var flagged := if unread.Some? then counted.(unread := unread.value) else counted;
      var recounted := unread.Some? && c.protocol == "whatsapp" && (unread.value || c.unreadCount != 0);
      (flagged, moved || recounted || flagged.unread != c.unread)
  }

  function MarkRead(c: Conversation, through: Time): (Conversation, bool)
  {
    if c.updated > through || (!c.unread && c.unreadCount == 0) then (c, false)
    else (c.(unread := false, unreadCount := 0), true)
  }

  datatype Mutation = Merge(latest: LatestMessage, unread: Option<bool>) | ReadThrough(time: Time)

  function Mutate(mutation: Mutation, c: Conversation): (Conversation, bool)
  {
    match mutation
    case Merge(l, unread) => MergeLatest(c, l, unread)
    case ReadThrough(time) => MarkRead(c, time)
  }

  /** A preview derived from a newer message survives an older snapshot of the same row. */
  function CarryOver(c: Conversation, stored: Conversation): Conversation
  {
    if stored.updated > c.updated
    then c.(updated := stored.updated, preview := stored.preview,
            previewSenderID := stored.previewSenderID, previewDirection := stored.previewDirection,
            unread := stored.unread, unreadCount := stored.unreadCount)
    else c
  }

  /** None when the stored row cannot be decoded. */
  function PreviewConversation(db: DB, data: Data): Option<Data>
  {
    if !data.ConversationData? || data.conversation.schema != SCHEMA || data.conversation.id == "" then Some(data)
    else
      var c := data.conversation;
      var key := Key(ConversationKind, c.id);
      if key in db.log.latest && EntityCurrent(db, key) && !db.log.latest[key].ConversationData? then None
      else
        var carried :=
          if key in db.log.latest && EntityCurrent(db, key) then CarryOver(c, db.log.latest[key].conversation) else c;
        var merged := if c.id in db.newest then MergeLatest(carried, db.newest[c.id], None).0 else carried;
        Some(ConversationData(merged))
  }

  function UpdateConversationTx(db: DB, id: string, mutation: Mutation, now: Time): Outcome<bool>
  {
    var key := Key(ConversationKind, id);
    if key !in db.log.latest || !db.log.latest[key].ConversationData? || db.log.latest[key].conversation.schema != SCHEMA
    then Done(db, false)
    else
      var (c, changed) := Mutate(mutation, db.log.latest[key].conversation);
      var observed := ObserveTx(db, key);
      if !changed then Done(observed, false) else AppendTx(observed, key, ConversationData(c), now)
  }

  function ReadConversation(db: DB, id: string, through: Time, now: Time): Outcome<bool>
  {
    UpdateConversationTx(db, id, ReadThrough(through), now)
  }

  /** Whether a remembered message stays ahead of a newly applied one. */
  predicate Ahead(a: LatestMessage, b: LatestMessage)
  {
    a.time > b.time || (a.time == b.time && Less(b.messageID, a.messageID))
  }

  function RefreshConversationTx(db: DB, m: Message, isNew: bool, previousStatus: string, now: Time): Outcome<bool>
  {
    match PreviewSource(m)
    case None => Done(db, false)
    case Some(l) =>
      var c := m.conversationID;
      if c in db.newest && Ahead(db.newest[c], l) then Done(db, false)
      else
        UpdateConversationTx(db.(newest := db.newest[c := l]), c,
                             Merge(l, UnreadAfter(m, isNew, previousStatus, now)), now)
  }

  // ---- outbox ----

  function WriteOutbox(db: DB, o: Outbox, now: Time): Outcome<bool>
  {
    AppendTx(db.(sends := db.sends.(outbox := db.sends.outbox[o.id := o])), Key(OutboxKind, o.id), OutboxData(o), now)
  }

  function WriteAll(db: DB, records: seq<Outbox>, now: Time): (r: Outcome<bool>)
    ensures r.Done? ==> r.value
    decreases |records|
  {
    if records == [] then Done(db, true)
    else
      var (next, _) :- WriteOutbox(db, records[0], now);
      WriteAll(next, records[1..], now)
  }

  /** The three bulk rewrites of the outbox. */
  datatype Rewrite = CancelForPairing | MarkAmbiguous | AssignEpoch(epoch: nat)

  const PAIRING_CHANGED := "Pairing changed; review the recipient and submit again"
  const STOPPED_DURING_SEND := "Service stopped during send; inspect phone before sending again"

  function Rewritten(rewrite: Rewrite, o: Outbox, now: Time): Option<Outbox>
  {
    match rewrite
    case CancelForPairing =>
      if o.state.Queued? then Some(o.(state := Canceled, detail := PAIRING_CHANGED, updated := now)) else None
    case MarkAmbiguous =>
      if o.state.Sending? then Some(o.(state := Ambiguous, detail := STOPPED_DURING_SEND, updated := now)) else None
    case AssignEpoch(e) =>
      if o.sessionEpoch == 0 then Some(o.(sessionEpoch := e)) else None
  }

  function CollectOne(outbox: map<string, Outbox>, id: string, rewrite: Rewrite, now: Time): seq<Outbox>
  {
    if id in outbox && Rewritten(rewrite, outbox[id], now).Some? then [Rewritten(rewrite, outbox[id], now).value] else []
  }

  function Collect(outbox: map<string, Outbox>, ids: seq<string>, rewrite: Rewrite, now: Time): seq<Outbox>
  {
    if ids == [] then []
    else CollectOne(outbox, ids[0], rewrite, now) + Collect(outbox, ids[1..], rewrite, now)
  }

  ghost function RewriteOutbox(db: DB, rewrite: Rewrite, now: Time): Outcome<bool>
  {
    WriteAll(db, Collect(db.sends.outbox, SortedKeys(db.sends.outbox.Keys), rewrite, now), now)
  }

  function Enqueue(db: DB, id: string, transactionID: string, request: SendRequest, now: Time): Outcome<(Outbox, bool)>
  {
    if id in db.sends.outbox then
      if !db.sends.outbox[id].request.Equal(request) then Abort(Conflict) else Done(db, (db.sends.outbox[id], false))
    else
      var o := Outbox("", db.own.epoch, SCHEMA, id, request, transactionID, Queued, "", "", now, now);
      var (next, _) :- WriteOutbox(db.(sends := db.sends.(outboxTxn := db.sends.outboxTxn[transactionID := id])), o, now);
      Done(next, (o, true))
  }

  function ClaimQueued(db: DB, id: string, now: Time): Outcome<Outbox>
  {
    if id !in db.sends.outbox then Abort(NotFound)
    else if !db.sends.outbox[id].state.Queued? then Abort(Conflict)
    else
      var o := db.sends.outbox[id].(state := Sending, updated := now);
      var (next, _) :- WriteOutbox(db, o, now);
      Done(next, o)
  }

  function RejectQueued(db: DB, id: string, detail: string, now: Time): Outcome<bool>
  {
    if id !in db.sends.outbox then Abort(NotFound)
    else if !db.sends.outbox[id].state.Queued? then Abort(Conflict)
    else WriteOutbox(db, db.sends.outbox[id].(state := Rejected, detail := detail, updated := now), now)
  }

  function CancelQueued(db: DB, id: string, now: Time): Outcome<Outbox>
  {
    if id !in db.sends.outbox then Abort(NotFound)
    else if db.sends.outbox[id].state.Canceled? then Done(db, db.sends.outbox[id])
    else if !db.sends.outbox[id].state.Queued? then Abort(Conflict)
    else
      var o := db.sends.outbox[id].(state := Canceled, updated := now);
      var (next, _) :- WriteOutbox(db, o, now);
      Done(next, o)
  }

  /** A matching echo may already have confirmed the record; then nothing happens. */
  function Finish(db: DB, id: string, state: OutboxState, detail: string, now: Time): Outcome<bool>
  {
    if !(state.Accepted? || state.Rejected? || state.Ambiguous?) then Abort(InvalidSendState)
    else if id !in db.sends.outbox then Abort(NotFound)
    else if !db.sends.outbox[id].state.Sending? then Done(db, false)
    else WriteOutbox(db, db.sends.outbox[id].(state := state, detail := detail, updated := now), now)
  }

  function OutboxTransactions(outbox: map<string, Outbox>, ids: seq<string>, known: map<string, string>): map<string, string>
    requires forall id :: id in ids ==> id in outbox
  {
    if ids == [] then known
    else OutboxTransactions(outbox, ids[1..], known[outbox[ids[0]].transactionID := outbox[ids[0]].id])
  }

  /** The transaction index rebuilt from the outbox, over what it held. */
  ghost function Relinked(db: DB): DB
  {
    db.(sends := db.sends.(
      outboxTxn := OutboxTransactions(db.sends.outbox, SortedKeys(db.sends.outbox.Keys), db.sends.outboxTxn)))
  }

  ghost function RecoverSending(db: DB, now: Time): Outcome<bool>
  {
    RewriteOutbox(Relinked(db), MarkAmbiguous, now)
  }

  const OBSERVED := "Observed in Google history; see message status for delivery"

  predicate Confirms(db: DB, o: Outbox, m: Message)
  {
    && o.sessionEpoch == db.own.epoch
    && (o.request.kind == "" || o.request.kind == "message")
    && o.request.conversationID == m.conversationID
    && !o.state.Queued? && !o.state.Canceled? && !o.state.Confirmed?
  }

  function ConfirmSendTx(db: DB, m: Message, now: Time): Outcome<bool>
  {
    if m.transactionID == "" || m.id == "" || m.transactionID !in db.sends.outboxTxn then Done(db, false)
    else
      var id := db.sends.outboxTxn[m.transactionID];
      if id !in db.sends.outbox then Abort(NotFound)
      else
        var o := db.sends.outbox[id];
        if !Confirms(db, o, m) then Done(db, false)
        else
          var (next, _) :- WriteOutbox(db, o.(state := Confirmed, messageID := m.id, detail := OBSERVED, updated := now), now);
          Done(next, true)
  }

  // ---- Apply ----

  predicate Stale(db: DB, key: Key, watermark: Option<nat>)
  {
    watermark.Some? && key in db.seen.versions && db.seen.versions[key] > watermark.value
  }

  predicate StoredMessageReadable(db: DB, key: Key)
  {
    key.kind.MessageKind? && key in db.log.latest ==> db.log.latest[key].MessageData?
  }

  function PreviousStatus(db: DB, key: Key): string
  {
    if key.kind.MessageKind? && key in db.log.latest && db.log.latest[key].MessageData?
    then db.log.latest[key].message.status else ""
  }

  /** Appends a snapshot, notes the observation and keeps its private data. */
  function StoreSnapshot(db: DB, key: Key, data: Data, private: map<string, Bytes>, now: Time): Outcome<bool>
  {
    var (appended, changed) :- AppendTx(db, key, data, now);
    var observed := ObserveTx(appended, key);
    Done(observed.(private := observed.private + private), changed)
  }

  /** Claims the record for the session, then stores the snapshot, with a row's preview carried over. */
  function ClaimAndStore(db: DB, e: Incoming, private: map<string, Bytes>, now: Time): Outcome<bool>
  {
    var preview := if e.key.kind.ConversationKind? then PreviewConversation(db, e.data) else Some(e.data);
    if preview.None? || !StoredMessageReadable(db, e.key) then Abort(Undecodable)
    else StoreSnapshot(StampEpoch(db, e.key), e.key, preview.value, private, now)
  }

  function ApplyFresh(db: DB, e: Incoming, private: map<string, Bytes>, now: Time): Outcome<bool>
  {
    var (kept, changed) :- ClaimAndStore(db, e, private, now);
    if e.key.kind.MessageKind? && e.data.MessageData? then
      var (refreshed, moved) :-
        RefreshConversationTx(kept, e.data.message, e.key !in db.log.latest && !e.historical, PreviousStatus(db, e.key), now);
      Done(refreshed, changed || moved)
    else
      Done(kept, changed)
  }

  function Apply(db: DB, e: Incoming, private: map<string, Bytes>, watermark: Option<nat>, now: Time): Outcome<bool>
  {
    var (applied, changed) :- if Stale(db, e.key, watermark) then Done(db, false) else ApplyFresh(db, e, private, now);
    if e.key.kind.MessageKind? then
      if !e.data.MessageData? then Abort(Undecodable)
      else
        var (confirmed, observed) :- ConfirmSendTx(applied, e.data.message, now);
        Done(confirmed, changed || observed)
    else
      Done(applied, changed)
  }

  const CONVERSATION_READY := "Conversation is ready; no message was sent"

  /** Stores the provider's row as it is, and claims it for the session afterwards. */
  function FinishConversation(
    db: DB, id: string, e: Incoming, private: map<string, Bytes>, watermark: nat, now: Time): Outcome<bool>
  {
    if id !in db.sends.outbox then Abort(NotFound)
    else if !db.sends.outbox[id].state.Sending? || db.sends.outbox[id].request.kind != "conversation" then Abort(Conflict)
    else if !e.key.kind.ConversationKind? || e.key.id == "" then Abort(InvalidConversationResult)
    else
      var (stored, _) :- StoreResult(db, e, private, watermark, now);
      WriteOutbox(StampEpoch(stored, e.key), Finished(db.sends.outbox[id], e.key.id, now), now)
  }

  function StoreResult(db: DB, e: Incoming, private: map<string, Bytes>, watermark: nat, now: Time): Outcome<bool>
  {
    if Stale(db, e.key, Some(watermark)) then Done(db, false) else StoreSnapshot(db, e.key, e.data, private, now)
  }

  function Finished(o: Outbox, conversationID: string, now: Time): Outbox
  {
    o.(state := Accepted, conversationID := conversationID, updated := now, detail := CONVERSATION_READY)
  }

  // ---- history jobs ----

  datatype JobLookup = Missing | Broken | Found(job: HistoryJob)

  function HistoryTx(db: DB, id: string): JobLookup
  {
    var key := Key(HistoryKind, id);
    if key !in db.log.latest then Missing
    else if !db.log.latest[key].HistoryData? then Broken
    else Found(db.log.latest[key].job)
  }

  function WriteHistory(db: DB, job: HistoryJob, now: Time): Outcome<bool>
  {
    AppendTx(db, Key(HistoryKind, job.id), HistoryData(job.(updated := now)), now)
  }

  function CursorKey(id: string): string
  {
    "history:" + id
  }

  function HistoryCursor(db: DB, id: string): Bytes
  {
    if CursorKey(id) in db.private then db.private[CursorKey(id)] else []
  }

  function SeenPages(db: DB, id: string): set<Bytes>
  {
    if id in db.pages then db.pages[id] else {}
  }

  /** A restart forgets the job's cursor and the pages it has seen. */
  function ClearProgress(db: DB, id: string, restart: bool): DB
  {
    if restart then db.(private := db.private - {CursorKey(id)}, pages := db.pages - {id}) else db
  }

  function RequeuedJob(job: HistoryJob, restart: bool, epoch: nat, now: Time): HistoryJob
  {
    var counted := if restart then job.(pages := 0, records := 0) else job;
    counted.(generation := job.generation + 1, sessionEpoch := epoch, updated := now,
             schema := SCHEMA, state := JobQueued, detail := "", retryAt := 0)
  }

  function Requeue(db: DB, job: HistoryJob, restart: bool, now: Time): Outcome<HistoryJob>
  {
    var queued := RequeuedJob(job, restart, db.own.epoch, now);
    var (next, _) :- WriteHistory(ClearProgress(db, job.id, restart), queued, now);
    Done(next, queued)
  }

  function QueueHistory(db: DB, job: HistoryJob, restart: bool, now: Time): Outcome<HistoryJob>
  {
    match HistoryTx(db, job.id)
    case Broken => Abort(Undecodable)
    case Missing => Requeue(db, job, restart, now)
    case Found(known) =>
      if !restart && (known.state.JobComplete? || known.state.JobQueued?) then Done(db, known)
      else Requeue(db, known, restart, now)
  }

  function PauseHistory(db: DB, id: string, now: Time): Outcome<HistoryJob>
  {
    match HistoryTx(db, id)
    case Broken => Abort(Undecodable)
    case Missing => Abort(NotFound)
    case Found(job) =>
      if job.state.JobComplete? then Done(db, job)
      else
        var paused := job.(state := JobPaused, updated := now);
        var (next, _) :- WriteHistory(db, paused, now);
        Done(next, paused)
  }

  const RETRY: nat := 30 * 1_000_000_000
  const REPEATED_CURSOR := "Provider repeated a history cursor; import stopped"

  function CheckpointHistory(
    db: DB, id: string, generation: nat, previous: Bytes, next: Bytes, records: nat, detail: string, now: Time): Outcome<bool>
  {
    match HistoryTx(db, id)
    case Broken => Abort(Undecodable)
    case Missing => Abort(NotFound)
    case Found(job) =>
      if !job.state.JobQueued? || job.generation != generation then Done(db, false)
      else if HistoryCursor(db, id) != previous then Abort(Conflict)
      else if detail != "" then WriteHistory(db, job.(detail := detail, retryAt := now + RETRY), now)
      else
        var seen := SeenPages(db, id) + {previous};
        WriteHistory(TurnPage(db, id, seen, next), Advanced(job, seen, next, records), now)
  }

  function TurnPage(db: DB, id: string, seen: set<Bytes>, next: Bytes): DB
  {
    db.(pages := db.pages[id := seen], private := db.private[CursorKey(id) := next])
  }

  function Advanced(job: HistoryJob, seen: set<Bytes>, next: Bytes, records: nat): HistoryJob
  {
    var counted := job.(detail := "", pages := job.pages + 1, records := job.records + records, retryAt := 0);
    if next == [] then counted.(state := JobComplete)
    else if next in seen then counted.(state := JobFailed, detail := REPEATED_CURSOR)
    else counted
  }

  function FailHistory(db: DB, id: string, generation: nat, detail: string, now: Time): Outcome<bool>
  {
    match HistoryTx(db, id)
    case Broken => Abort(Undecodable)
    case Missing => Abort(NotFound)
    case Found(job) =>
      if !job.state.JobQueued? || job.generation != generation then Done(db, false)
      else WriteHistory(db, job.(state := JobFailed, detail := detail, retryAt := 0), now)
  }

  // ---- pairing and session ownership ----

  function KindIds(latest: map<Key, Data>, kind: Kind): set<string>
  {
    set k | k in latest.Keys && k.kind == kind :: k.id
  }

  predicate JobsReadable(db: DB)
  {
    forall k :: k in db.log.latest.Keys && k.kind.HistoryKind? ==> db.log.latest[k].HistoryData?
  }

  function Jobs(db: DB, ids: seq<string>): seq<HistoryJob>
    requires forall id :: id in ids ==> Key(HistoryKind, id) in db.log.latest && db.log.latest[Key(HistoryKind, id)].HistoryData?
  {
    if ids == [] then [] else [db.log.latest[Key(HistoryKind, ids[0])].job] + Jobs(db, ids[1..])
  }

  function AssignJobEpochs(db: DB, jobs: seq<HistoryJob>, now: Time): (r: Outcome<bool>)
    ensures r.Done? ==> r.value
    decreases |jobs|
  {
    if jobs == [] then Done(db, true)
    else if jobs[0].sessionEpoch != 0 then AssignJobEpochs(db, jobs[1..], now)
    else
      var (next, _) :- WriteHistory(db, jobs[0].(sessionEpoch := db.own.epoch), now);
      AssignJobEpochs(next, jobs[1..], now)
  }

  ghost function UpgradeSessionMetadata(db: DB, now: Time): Outcome<bool>
  {
    if db.own.epoch == 0 then Done(db, true)
    else
      var (owned, _) :- RewriteOutbox(db, AssignEpoch(db.own.epoch), now);
      if !JobsReadable(owned) then Abort(Undecodable)
      else AssignJobEpochs(owned, Jobs(owned, SortedKeys(KindIds(owned.log.latest, HistoryKind))), now)
  }

  ghost function BeginPairingAttempt(db: DB, started: Time, expires: Time, now: Time): Outcome<bool>
  {
    var (canceled, _) :- RewriteOutbox(db, CancelForPairing, now);
    Done(canceled.(meta := canceled.meta.(attempt := Some(Attempt(started, expires)))), true)
  }

  function RecoverPairingAttempt(db: DB): Outcome<bool>
  {
    match db.meta.attempt
    case None => Done(db, false)
    case Some(a) => if a.started == 0 || a.expires == 0 then Abort(InvalidMarker) else Done(db.(meta := db.meta.(attempt := None)), true)
  }

  function OwnedKeys(db: DB): set<Key>
  {
    set k | k in db.log.latest.Keys && Owned(k.kind)
  }

  function AdoptStoredRecords(db: DB): Outcome<nat>
  {
    if db.own.epoch == 0 then Done(db, 0)
    else
      var owned := OwnedKeys(db);
      var stamped := Own(db.own.epoch, StampKeys(db.own.epochs, owned, db.own.epoch), 0, 0);
      Done(db.(own := stamped), |Unstamped(db.own.epochs, owned, db.own.epoch)|)
  }

  const JOB_PAIRING_CHANGED := "Pairing changed; start an import for the paired phone"

  function PausedJob(job: HistoryJob): HistoryJob
  {
    job.(state := JobPaused, detail := JOB_PAIRING_CHANGED, generation := job.generation + 1,
         pages := 0, records := 0, retryAt := 0)
  }

  function PauseJobs(db: DB, jobs: seq<HistoryJob>, now: Time): (r: Outcome<bool>)
    ensures r.Done? ==> r.value
    decreases |jobs|
  {
    if jobs == [] then Done(db, true)
    else
      var (next, _) :- WriteHistory(db.(pages := db.pages - {jobs[0].id}), PausedJob(jobs[0]), now);
      PauseJobs(next, jobs[1..], now)
  }

  function ResetBudget(recovery: Option<PairingRecovery>): Option<PairingRecovery>
  {
    match recovery
    case None => None
    case Some(r) => Some(r.(attempts := 0, paused := false, nextAttempt := 0))
  }

  /** The part of a new phone's pairing before history jobs are paused. */
  function NewEpoch(db: DB): DB
  {
    var left := db.own.(
      previousConversations := |KindIds(db.log.latest, ConversationKind)|,
      previousMessages := |KindIds(db.log.latest, MessageKind)|,
      epoch := db.own.epoch + 1);
    db.(newest := map[], own := left, meta := db.meta.(contacts := None), private := map[])
  }

  /** A refreshed session replaces the stored one and touches nothing else. */
  function SaveSession(db: DB, session: Bytes): DB
  {
    db.(meta := db.meta.(session := Some(session)))
  }

  function PairedSession(db: DB, session: Bytes): DB
  {
    db.(meta := db.meta.(recovery := ResetBudget(db.meta.recovery), session := Some(session), attempt := None))
  }

  ghost function BeginSession(db: DB, now: Time): Outcome<bool>
  {
    if !JobsReadable(db) then Abort(Undecodable)
    else
      var begun := NewEpoch(db);
      PauseJobs(begun, Jobs(begun, SortedKeys(KindIds(begun.log.latest, HistoryKind))), now)
  }

  ghost function SavePairedSession(db: DB, session: Bytes, newPhone: bool, now: Time): Outcome<bool>
  {
    var (canceled, _) :- RewriteOutbox(PairedSession(db, session), CancelForPairing, now);
    if !newPhone then Done(canceled, true) else BeginSession(canceled, now)
  }

  // ---- opening a file ----

  predicate MessagesReadable(db: DB)
  {
    forall k :: k in db.log.latest.Keys && k.kind.MessageKind? ==> db.log.latest[k].MessageData?
  }

  function Messages(db: DB, ids: seq<string>): seq<Message>
    requires forall id :: id in ids ==> Key(MessageKind, id) in db.log.latest && db.log.latest[Key(MessageKind, id)].MessageData?
  {
    if ids == [] then [] else [db.log.latest[Key(MessageKind, ids[0])].message] + Messages(db, ids[1..])
  }

  function IndexFrom(messages: seq<Message>, index: set<string>): set<string>
  {
    if messages == [] then index else IndexFrom(messages[1..], IndexMessage(index, messages[0]))
  }

  function Remember(newest: map<string, LatestMessage>, m: Message): map<string, LatestMessage>
  {
    match PreviewSource(m)
    case None => newest
    case Some(l) =>
      if m.conversationID in newest && Ahead(newest[m.conversationID], l) then newest
      else newest[m.conversationID := l]
  }

  function NewestFrom(messages: seq<Message>, newest: map<string, LatestMessage>): map<string, LatestMessage>
  {
    if messages == [] then newest else NewestFrom(messages[1..], Remember(newest, messages[0]))
  }

  function MergeRows(db: DB, newest: map<string, LatestMessage>, ids: seq<string>, now: Time): (r: Outcome<bool>)
    requires forall id :: id in ids ==> id in newest
    ensures r.Done? ==> r.value
    decreases |ids|
  {
    if ids == [] then Done(db, true)
    else
      var (next, _) :- UpdateConversationTx(db, ids[0], Merge(newest[ids[0]], None), now);
      MergeRows(next, newest, ids[1..], now)
  }

  ghost function EnsureMessageIndex(db: DB): Outcome<bool>
  {
    if !MessagesReadable(db) then Abort(Undecodable)
    else Done(db.(log := db.log.(index := IndexFrom(Messages(db, SortedKeys(KindIds(db.log.latest, MessageKind))), {}))), true)
  }

  ghost function EnsureConversationPreviews(db: DB, now: Time): Outcome<bool>
  {
    if !MessagesReadable(db) then Abort(Undecodable)
    else
      var newest := NewestFrom(Messages(db, SortedKeys(KindIds(db.log.latest, MessageKind))), map[]);
      MergeRows(db.(newest := newest), newest, SortedKeys(newest.Keys), now)
  }

  /** The flags tell whether the file already holds the two derived buckets. */
  ghost function Open(db: DB, hasIndex: bool, hasNewest: bool, now: Time): Outcome<bool>
  {
    var (indexed, _) :- if hasIndex then Done(db, true) else EnsureMessageIndex(db);
    var (previewed, _) :- if hasNewest then Done(indexed, true) else EnsureConversationPreviews(indexed, now);
    var versions := if previewed.seen.versionSeq < previewed.log.eventSeq then previewed.log.eventSeq else previewed.seen.versionSeq;
    Done(previewed.(seen := previewed.seen.(versionSeq := versions)), true)
  }

  // ---- runs ----

  datatype Txn =
    | OpenTxn(now: Time)
    | ApplyTxn(e: Incoming, private: map<string, Bytes>, watermark: Option<nat>, now: Time)
    | ReadTxn(id: string, through: Time, now: Time)
    | FinishConversationTxn(id: string, e: Incoming, private: map<string, Bytes>, mark: nat, now: Time)
    | QueueHistoryTxn(job: HistoryJob, restart: bool, now: Time)
    | PauseHistoryTxn(id: string, now: Time)
    | CheckpointTxn(id: string, generation: nat, previous: Bytes, next: Bytes, records: nat, detail: string, now: Time)
    | FailHistoryTxn(id: string, generation: nat, detail: string, now: Time)
    | EnqueueTxn(id: string, transactionID: string, request: SendRequest, now: Time)
    | ClaimTxn(id: string, now: Time)
    | FinishTxn(id: string, state: OutboxState, detail: string, now: Time)
    | RejectTxn(id: string, detail: string, now: Time)
    | CancelTxn(id: string, now: Time)
    | RecoverSendingTxn(now: Time)
    | UpgradeTxn(now: Time)
    | BeginPairingTxn(started: Time, expires: Time, now: Time)
    | ClearAttemptTxn
    | RecoverAttemptTxn
    | AdoptTxn
    | SavePairedTxn(session: Bytes, newPhone: bool, now: Time)
    | SaveSessionTxn(session: Bytes)
    | PutPrivateTxn(name: string, value: Bytes)

  function Commit<T>(db: DB, outcome: Outcome<T>): DB
  {
    if outcome.Done? then outcome.db else db
  }

  /** The database after a transaction; a crash between transactions changes nothing. */
  ghost function Step(db: DB, t: Txn): DB
  {
    match t
    case OpenTxn(now) => Commit(db, Open(db, true, true, now))
    case ApplyTxn(e, private, watermark, now) => Commit(db, Apply(db, e, private, watermark, now))
    case ReadTxn(id, through, now) => Commit(db, ReadConversation(db, id, through, now))
    case FinishConversationTxn(id, e, private, mark, now) => Commit(db, FinishConversation(db, id, e, private, mark, now))
    case QueueHistoryTxn(job, restart, now) => Commit(db, QueueHistory(db, job, restart, now))
    case PauseHistoryTxn(id, now) => Commit(db, PauseHistory(db, id, now))
    case CheckpointTxn(id, generation, previous, next, records, detail, now) =>
      Commit(db, CheckpointHistory(db, id, generation, previous, next, records, detail, now))
    case FailHistoryTxn(id, generation, detail, now) => Commit(db, FailHistory(db, id, generation, detail, now))
    case EnqueueTxn(id, transactionID, request, now) => Commit(db, Enqueue(db, id, transactionID, request, now))
    case ClaimTxn(id, now) => Commit(db, ClaimQueued(db, id, now))
    case FinishTxn(id, state, detail, now) => Commit(db, Finish(db, id, state, detail, now))
    case RejectTxn(id, detail, now) => Commit(db, RejectQueued(db, id, detail, now))
    case CancelTxn(id, now) => Commit(db, CancelQueued(db, id, now))
    case RecoverSendingTxn(now) => Commit(db, RecoverSending(db, now))
    case UpgradeTxn(now) => Commit(db, UpgradeSessionMetadata(db, now))
    case BeginPairingTxn(started, expires, now) => Commit(db, BeginPairingAttempt(db, started, expires, now))
    case ClearAttemptTxn => db.(meta := db.meta.(attempt := None))
    case RecoverAttemptTxn => Commit(db, RecoverPairingAttempt(db))
    case AdoptTxn => Commit(db, AdoptStoredRecords(db))
    case SavePairedTxn(session, newPhone, now) => Commit(db, SavePairedSession(db, session, newPhone, now))
    case SaveSessionTxn(session) => SaveSession(db, session)
    case PutPrivateTxn(name, value) => db.(private := db.private[name := value])
  }

  ghost function Run(db: DB, ts: seq<Txn>): DB
    decreases |ts|
  {
    if ts == [] then db else Run(Step(db, ts[0]), ts[1..])
  }

  lemma {:induction false} RunSplit(db: DB, a: seq<Txn>, b: seq<Txn>)
    ensures Run(db, a + b) == Run(Run(db, a), b)
    decreases |a|
  {
    if a == [] {
      assert a + b == b;
    } else {
      assert (a + b)[0] == a[0] && (a + b)[1..] == a[1..] + b;
      RunSplit(Step(db, a[0]), a[1..], b);
    }
  }

  lemma RunOne(db: DB, t: Txn)
    ensures Run(db, [t]) == Step(db, t)
  {
    assert [t][1..] == [];
  }
}
