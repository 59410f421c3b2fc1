/**
 * The durable store as the class it is: buckets are fields, and every method is
 * one transaction (or a step of one) proved to compute its StoreSpec function.
 */
module Engine {
  import opened Records
  import opened Buckets
  import Spec = StoreSpec
  import opened StoreSpec

  datatype Result<+T> = Ok(value: T) | Err(error: Error)

  /** A step inside a transaction: an error leaves the buckets to be rolled back. */
  ghost predicate Agrees<T>(outcome: Outcome<T>, after: DB, r: Result<T>)
  {
    match outcome
    case Done(db, value) => after == db && r == Ok(value)
    case Abort(error) => r == Err(error)
  }

  /** A whole transaction: it commits what the function says or changes nothing. */
  ghost predicate Commits<T>(outcome: Outcome<T>, before: DB, after: DB, r: Result<T>)
  {
    Agrees(outcome, after, r) && after == Commit(before, outcome)
  }

  method MergeLatestMessage(c: Conversation, l: LatestMessage, unread: Option<bool>)
    returns (row: Conversation, changed: bool)
    ensures (row, changed) == MergeLatest(c, l, unread)
  {
    row := c;
    if l.time < row.updated { return row, false; }
    changed := row.preview != l.preview || row.previewSenderID != l.senderID
               || row.previewDirection != l.direction || l.time > row.updated;
    row := row.(preview := l.preview, previewSenderID := l.senderID, previewDirection := l.direction);
    if l.time > row.updated { row := row.(updated := l.time); }
    if unread.Some? && row.protocol == "whatsapp" {
      if unread.value {
        row := row.(unreadCount := (row.unreadCount + 1) % UINT32);
        changed := true;
      } else if row.unreadCount != 0 {
        row := row.(unreadCount := 0);
        changed := true;
      }
    }
    if unread.Some? && row.unread != unread.value {
      row := row.(unread := unread.value);
      changed := true;
    }
  }

  method CollectRewritten(outbox: map<string, Outbox>, ids: seq<string>, rewrite: Rewrite, now: Time)
    returns (pending: seq<Outbox>)
    ensures pending == Collect(outbox, ids, rewrite, now)
  {
    pending := [];
    for i := 0 to |ids|
      invariant pending + Collect(outbox, ids[i..], rewrite, now) == Collect(outbox, ids, rewrite, now)
    {
      CollectStep(outbox, ids, i, pending, rewrite, now);
      var changed := CollectOne(outbox, ids[i], rewrite, now);
      pending := pending + changed;
    }
  }

  lemma CollectStep(outbox: map<string, Outbox>, ids: seq<string>, i: nat, pending: seq<Outbox>, rewrite: Rewrite, now: Time)
    requires i < |ids|
    ensures pending + Collect(outbox, ids[i..], rewrite, now)
         == (pending + CollectOne(outbox, ids[i], rewrite, now)) + Collect(outbox, ids[i + 1..], rewrite, now)
  {
    assert ids[i..][0] == ids[i] && ids[i..][1..] == ids[i + 1..];
  }

  method ListTransactions(outbox: map<string, Outbox>, stored: map<string, string>) returns (known: map<string, string>)
    ensures known == OutboxTransactions(outbox, SortedKeys(outbox.Keys), stored)
  {
    var ids := ListKeys(outbox.Keys);
    known := stored;
    for i := 0 to |ids|
      invariant OutboxTransactions(outbox, ids[i..], known) == OutboxTransactions(outbox, ids, stored)
    {
      assert ids[i..][1..] == ids[i + 1..];
      known := known[outbox[ids[i]].transactionID := outbox[ids[i]].id];
    }
  }

  /** Reads the records of one kind in key order; one that does not decode fails the transaction. */
  method ListJobs(db: DB) returns (r: Result<seq<HistoryJob>>)
    ensures if JobsReadable(db)
            then r == Ok(Jobs(db, SortedKeys(KindIds(db.log.latest, HistoryKind))))
            else r == Err(Undecodable)
  {
    var ids := ListKeys(KindIds(db.log.latest, HistoryKind));
    assert forall id :: id in ids ==> Key(HistoryKind, id) in db.log.latest;
    r := ListJobsFrom(db, ids);
    if r.Err? {
      var id :| id in ids && !db.log.latest[Key(HistoryKind, id)].HistoryData?;
      assert Key(HistoryKind, id) in db.log.latest.Keys;
    } else {
      assert forall k :: k in db.log.latest.Keys && k.kind == HistoryKind ==> k.id in ids && k == Key(HistoryKind, k.id);
    }
  }

  method ListJobsFrom(db: DB, ids: seq<string>) returns (r: Result<seq<HistoryJob>>)
    requires forall id :: id in ids ==> Key(HistoryKind, id) in db.log.latest
    ensures r.Ok? <==> forall id :: id in ids ==> db.log.latest[Key(HistoryKind, id)].HistoryData?
    ensures r.Ok? ==> r.value == Jobs(db, ids)
    ensures r.Err? ==> r.error == Undecodable
  {
    if ids == [] { return Ok([]); }
    var data := db.log.latest[Key(HistoryKind, ids[0])];
    if !data.HistoryData? { return Err(Undecodable); }
    var rest := ListJobsFrom(db, ids[1..]);
    if rest.Err? { return rest; }
    return Ok([data.job] + rest.value);
  }

  lemma JobsOfLatest(a: DB, b: DB, ids: seq<string>)
    requires a.log.latest == b.log.latest
    requires forall id :: id in ids ==> Key(HistoryKind, id) in a.log.latest && a.log.latest[Key(HistoryKind, id)].HistoryData?
    ensures Jobs(a, ids) == Jobs(b, ids)
  {
  }

  /** Reads the records of one kind in key order; one that does not decode fails the transaction. */
  method ListMessages(db: DB) returns (r: Result<seq<Message>>)
    ensures if MessagesReadable(db)
            then r == Ok(Messages(db, SortedKeys(KindIds(db.log.latest, MessageKind))))
            else r == Err(Undecodable)
  {
    var ids := ListKeys(KindIds(db.log.latest, MessageKind));
    assert forall id :: id in ids ==> Key(MessageKind, id) in db.log.latest;
    r := ListMessagesFrom(db, ids);
    if r.Err? {
      var id :| id in ids && !db.log.latest[Key(MessageKind, id)].MessageData?;
      assert Key(MessageKind, id) in db.log.latest.Keys;
    } else {
      assert forall k :: k in db.log.latest.Keys && k.kind == MessageKind ==> k.id in ids && k == Key(MessageKind, k.id);
    }
  }

  method ListMessagesFrom(db: DB, ids: seq<string>) returns (r: Result<seq<Message>>)
    requires forall id :: id in ids ==> Key(MessageKind, id) in db.log.latest
    ensures r.Ok? <==> forall id :: id in ids ==> db.log.latest[Key(MessageKind, id)].MessageData?
    ensures r.Ok? ==> r.value == Messages(db, ids)
    ensures r.Err? ==> r.error == Undecodable
  {
    if ids == [] { return Ok([]); }
    var data := db.log.latest[Key(MessageKind, ids[0])];
    if !data.MessageData? { return Err(Undecodable); }
    var rest := ListMessagesFrom(db, ids[1..]);
    if rest.Err? { return rest; }
    return Ok([data.message] + rest.value);
  }

  class Store {
    var db: DB

    constructor ()
      ensures db == EMPTY
    {
      db := EMPTY;
    }

    // ---- steps shared by transactions ----

    method AppendTx(key: Key, data: Data, now: Time) returns (r: Result<bool>)
      modifies this
      ensures Agrees(Spec.AppendTx(old(db), key, data, now), db, r)
    {
      if key.id == "" || data.InvalidJson? { return Err(InvalidEvent); }
      if key in db.log.latest && db.log.latest[key] == data { return Ok(false); }
      db := db.(log := db.log.(eventSeq := db.log.eventSeq + 1));
      db := db.(log := db.log.(events := db.log.events + [Event(db.log.eventSeq, key, now, data)]));
      db := db.(log := db.log.(latest := db.log.latest[key := data]));
      if key.kind.MessageKind? {
        if !data.MessageData? { return Err(Undecodable); }
        if data.message.id != "" && data.message.conversationID != "" {
          db := db.(log := db.log.(index := db.log.index + {IndexKey(data.message.conversationID, data.message.id)}));
        }
      }
      return Ok(true);
    }

    method ObserveTx(key: Key)
      modifies this
      ensures db == Spec.ObserveTx(old(db), key)
    {
      db := db.(seen := db.seen.(versionSeq := db.seen.versionSeq + 1));
      db := db.(seen := db.seen.(versions := db.seen.versions[key := db.seen.versionSeq]));
    }

    method StampEpoch(key: Key)
      modifies this
      ensures db == Spec.StampEpoch(old(db), key)
    {
      if !Owned(key.kind) { return; }
      if db.own.epoch > 0 && key in db.log.latest && (key !in db.own.epochs || db.own.epochs[key] != db.own.epoch) {
        if key.kind.ConversationKind? {
          if db.own.previousConversations > 0 { db := db.(own := db.own.(previousConversations := db.own.previousConversations - 1)); }
        } else if db.own.previousMessages > 0 {
          db := db.(own := db.own.(previousMessages := db.own.previousMessages - 1));
        }
      }
      db := db.(own := db.own.(epochs := db.own.epochs[key := db.own.epoch]));
    }

    method PutPrivate(values: map<string, Bytes>)
      modifies this
      ensures db == old(db).(private := old(db.private) + values)
    {
      var stored := db.private;
      var rest := values.Keys;
      while rest != {}
        invariant rest <= values.Keys
        invariant stored.Keys == db.private.Keys + (values.Keys - rest)
        invariant forall k :: k in stored ==> stored[k] == if k in values.Keys - rest then values[k] else db.private[k]
        decreases rest
      {
        var k :| k in rest;
        stored := stored[k := values[k]];
        rest := rest - {k};
      }
      assert stored == db.private + values;
      db := db.(private := stored);
    }

    method UpdateConversationTx(id: string, mutation: Mutation, now: Time) returns (r: Result<bool>)
      modifies this
      ensures Agrees(Spec.UpdateConversationTx(old(db), id, mutation, now), db, r)
    {
      var key := Key(ConversationKind, id);
      if key !in db.log.latest { return Ok(false); }
      var stored := db.log.latest[key];
      if !stored.ConversationData? || stored.conversation.schema != SCHEMA { return Ok(false); }
      ObserveTx(key);
      var row, changed := stored.conversation, false;
      match mutation {
        case Merge(l, unread) => row, changed := MergeLatestMessage(row, l, unread);
        case ReadThrough(through) =>
          if row.updated <= through && (row.unread || row.unreadCount != 0) {
            row, changed := row.(unread := false, unreadCount := 0), true;
          }
      }
      if !changed { return Ok(false); }
      r := AppendTx(key, ConversationData(row), now);
    }

    method PreviewConversation(data: Data) returns (r: Result<Data>)
      ensures match Spec.PreviewConversation(db, data)
              case Some(d) => r == Ok(d)
              case None => r == Err(Undecodable)
    {
      if !data.ConversationData? || data.conversation.schema != SCHEMA || data.conversation.id == "" { return Ok(data); }
      var c := data.conversation;
      var key := Key(ConversationKind, c.id);
      if key in db.log.latest && EntityCurrent(db, key) {
        if !db.log.latest[key].ConversationData? { return Err(Undecodable); }
        var stored := db.log.latest[key].conversation;
        if stored.updated > c.updated {
          c := c.(updated := stored.updated, preview := stored.preview);
          c := c.(previewSenderID := stored.previewSenderID, previewDirection := stored.previewDirection);
          c := c.(unread := stored.unread, unreadCount := stored.unreadCount);
        }
      }
      if c.id in db.newest {
        var moved;
        c, moved := MergeLatestMessage(c, db.newest[c.id], None);
      }
      return Ok(ConversationData(c));
    }

    method RefreshConversationTx(m: Message, isNew: bool, previousStatus: string, now: Time) returns (r: Result<bool>)
      modifies this
      ensures Agrees(Spec.RefreshConversationTx(old(db), m, isNew, previousStatus, now), db, r)
    {
      var source := PreviewSource(m);
      if source.None? { return Ok(false); }
      var l := source.value;
      if m.conversationID in db.newest && Ahead(db.newest[m.conversationID], l) { return Ok(false); }
      db := db.(newest := db.newest[m.conversationID := l]);
      var unread := UnreadAfter(m, isNew, previousStatus, now);
      r := UpdateConversationTx(m.conversationID, Merge(l, unread), now);
    }

    method WriteOutbox(o: Outbox, now: Time) returns (r: Result<bool>)
      modifies this
      ensures Agrees(Spec.WriteOutbox(old(db), o, now), db, r)
    {
      db := db.(sends := db.sends.(outbox := db.sends.outbox[o.id := o]));
      r := AppendTx(Key(OutboxKind, o.id), OutboxData(o), now);
    }

    method ConfirmSendTx(m: Message, now: Time) returns (r: Result<bool>)
      modifies this
      ensures Agrees(Spec.ConfirmSendTx(old(db), m, now), db, r)
    {
      if m.transactionID == "" || m.id == "" { return Ok(false); }
      if m.transactionID !in db.sends.outboxTxn { return Ok(false); }
      var id := db.sends.outboxTxn[m.transactionID];
      if id !in db.sends.outbox { return Err(NotFound); }
      var o := db.sends.outbox[id];
      if o.sessionEpoch != db.own.epoch || (o.request.kind != "" && o.request.kind != "message")
         || o.request.conversationID != m.conversationID
         || o.state.Queued? || o.state.Canceled? || o.state.Confirmed? { return Ok(false); }
      var written := WriteOutbox(o.(state := Confirmed, messageID := m.id, detail := OBSERVED, updated := now), now);
      return if written.Ok? then Ok(true) else Err(written.error);
    }

    // ---- observations ----

    method Apply(e: Incoming, values: map<string, Bytes>, watermark: Option<nat>, now: Time) returns (r: Result<bool>)
      modifies this
      ensures Commits(Spec.Apply(old(db), e, values, watermark, now), old(db), db, r)
    {
      var before := db;
      r := ApplyTx(e, values, watermark, now);
      if r.Err? { db := before; }
    }

    method ApplyTx(e: Incoming, values: map<string, Bytes>, watermark: Option<nat>, now: Time) returns (r: Result<bool>)
      modifies this
      ensures Agrees(Spec.Apply(old(db), e, values, watermark, now), db, r)
    {
      var changed := false;
      var stale := watermark.Some? && e.key in db.seen.versions && db.seen.versions[e.key] > watermark.value;
      if !stale {
        var stored := ApplyFresh(e, values, now);
        if stored.Err? { return stored; }
        changed := stored.value;
      }
      if e.key.kind.MessageKind? {
        if !e.data.MessageData? { return Err(Undecodable); }
        var observed := ConfirmSendTx(e.data.message, now);
        if observed.Err? { return observed; }
        changed := changed || observed.value;
      }
      return Ok(changed);
    }

    method StoreSnapshot(key: Key, data: Data, values: map<string, Bytes>, now: Time) returns (r: Result<bool>)
      modifies this
      ensures Agrees(Spec.StoreSnapshot(old(db), key, data, values, now), db, r)
    {
      r := AppendTx(key, data, now);
      if r.Err? { return; }
      ObserveTx(key);
      PutPrivate(values);
    }

    method ApplyFresh(e: Incoming, values: map<string, Bytes>, now: Time) returns (r: Result<bool>)
      modifies this
      ensures Agrees(Spec.ApplyFresh(old(db), e, values, now), db, r)
    {
      var applied := e.data;
      if e.key.kind.ConversationKind? {
        var previewed := PreviewConversation(e.data);
        if previewed.Err? { return Err(previewed.error); }
        applied := previewed.value;
      }
      StampEpoch(e.key);
      var isNew := e.key !in db.log.latest;
      var previousStatus := "";
      if e.key.kind.MessageKind? && e.key in db.log.latest {
        if !db.log.latest[e.key].MessageData? { return Err(Undecodable); }
        previousStatus := db.log.latest[e.key].message.status;
      }
      var appended := StoreSnapshot(e.key, applied, values, now);
      if appended.Err? { return appended; }
      var changed := appended.value;
      if e.key.kind.MessageKind? && e.data.MessageData? {
        var refreshed := RefreshConversationTx(e.data.message, isNew && !e.historical, previousStatus, now);
        if refreshed.Err? { return refreshed; }
        changed := changed || refreshed.value;
      }
      return Ok(changed);
    }

    method ReadConversation(id: string, through: Time, now: Time) returns (r: Result<bool>)
      modifies this
      ensures Commits(Spec.ReadConversation(old(db), id, through, now), old(db), db, r)
    {
      var before := db;
      r := UpdateConversationTx(id, ReadThrough(through), now);
      if r.Err? { db := before; }
    }

    method FinishConversation(id: string, e: Incoming, values: map<string, Bytes>, watermark: nat, now: Time)
      returns (r: Result<bool>)
      modifies this
      ensures Commits(Spec.FinishConversation(old(db), id, e, values, watermark, now), old(db), db, r)
    {
      var before := db;
      r := FinishConversationTx(id, e, values, watermark, now);
      if r.Err? { db := before; }
    }

    method FinishConversationTx(id: string, e: Incoming, values: map<string, Bytes>, watermark: nat, now: Time)
      returns (r: Result<bool>)
      modifies this
      ensures Agrees(Spec.FinishConversation(old(db), id, e, values, watermark, now), db, r)
    {
      if id !in db.sends.outbox { return Err(NotFound); }
      var o := db.sends.outbox[id];
      if !o.state.Sending? || o.request.kind != "conversation" { return Err(Conflict); }
      if !e.key.kind.ConversationKind? || e.key.id == "" { return Err(InvalidConversationResult); }
      if e.key !in db.seen.versions || db.seen.versions[e.key] <= watermark {
        var appended := StoreSnapshot(e.key, e.data, values, now);
        if appended.Err? { return appended; }
      }
      StampEpoch(e.key);
      o := o.(state := Accepted, conversationID := e.key.id, updated := now, detail := CONVERSATION_READY);
      r := WriteOutbox(o, now);
    }

    // ---- outbox ----

    method Enqueue(id: string, transactionID: string, request: SendRequest, now: Time) returns (r: Result<(Outbox, bool)>)
      modifies this
      ensures Commits(Spec.Enqueue(old(db), id, transactionID, request, now), old(db), db, r)
    {
      if id in db.sends.outbox {
        if !db.sends.outbox[id].request.Equal(request) { return Err(Conflict); }
        return Ok((db.sends.outbox[id], false));
      }
      var before := db;
      var o := Outbox("", db.own.epoch, SCHEMA, id, request, transactionID, Queued, "", "", now, now);
      db := db.(sends := db.sends.(outboxTxn := db.sends.outboxTxn[transactionID := id]));
      var written := WriteOutbox(o, now);
      if written.Err? {
        db := before;
        return Err(written.error);
      }
      return Ok((o, true));
    }

    method ClaimQueued(id: string, now: Time) returns (r: Result<Outbox>)
      modifies this
      ensures Commits(Spec.ClaimQueued(old(db), id, now), old(db), db, r)
    {
      if id !in db.sends.outbox { return Err(NotFound); }
      if !db.sends.outbox[id].state.Queued? { return Err(Conflict); }
      var before := db;
      var o := db.sends.outbox[id].(state := Sending, updated := now);
      var written := WriteOutbox(o, now);
      if written.Err? {
        db := before;
        return Err(written.error);
      }
      return Ok(o);
    }

    method RejectQueued(id: string, detail: string, now: Time) returns (r: Result<bool>)
      modifies this
      ensures Commits(Spec.RejectQueued(old(db), id, detail, now), old(db), db, r)
    {
      if id !in db.sends.outbox { return Err(NotFound); }
      if !db.sends.outbox[id].state.Queued? { return Err(Conflict); }
      var before := db;
      r := WriteOutbox(db.sends.outbox[id].(state := Rejected, detail := detail, updated := now), now);
      if r.Err? { db := before; }
    }

    method CancelQueued(id: string, now: Time) returns (r: Result<Outbox>)
      modifies this
      ensures Commits(Spec.CancelQueued(old(db), id, now), old(db), db, r)
    {
      if id !in db.sends.outbox { return Err(NotFound); }
      if db.sends.outbox[id].state.Canceled? { return Ok(db.sends.outbox[id]); }
      if !db.sends.outbox[id].state.Queued? { return Err(Conflict); }
      var before := db;
      var o := db.sends.outbox[id].(state := Canceled, updated := now);
      var written := WriteOutbox(o, now);
      if written.Err? {
        db := before;
        return Err(written.error);
      }
      return Ok(o);
    }

    method Finish(id: string, state: OutboxState, detail: string, now: Time) returns (r: Result<bool>)
      modifies this
      ensures Commits(Spec.Finish(old(db), id, state, detail, now), old(db), db, r)
    {
      if !(state.Accepted? || state.Rejected? || state.Ambiguous?) { return Err(InvalidSendState); }
      if id !in db.sends.outbox { return Err(NotFound); }
      if !db.sends.outbox[id].state.Sending? { return Ok(false); }
      var before := db;
      r := WriteOutbox(db.sends.outbox[id].(state := state, detail := detail, updated := now), now);
      if r.Err? { db := before; }
    }

    /** Collects the records a bulk rewrite changes, then writes them one by one. */
    method RewriteOutbox(rewrite: Rewrite, now: Time) returns (r: Result<bool>)
      modifies this
      ensures Agrees(Spec.RewriteOutbox(old(db), rewrite, now), db, r)
    {
      var ids := ListKeys(db.sends.outbox.Keys);
      var pending := CollectRewritten(db.sends.outbox, ids, rewrite, now);
      r := WriteAll(pending, now);
    }

    method WriteAll(records: seq<Outbox>, now: Time) returns (r: Result<bool>)
      modifies this
      ensures Agrees(Spec.WriteAll(old(db), records, now), db, r)
    {
      var i := 0;
      while i < |records|
        invariant 0 <= i <= |records|
        invariant Spec.WriteAll(db, records[i..], now) == Spec.WriteAll(old(db), records, now)
      {
        assert records[i..][0] == records[i] && records[i..][1..] == records[i + 1..];
        var written := WriteOutbox(records[i], now);
        if written.Err? { return written; }
        i := i + 1;
      }
      return Ok(true);
    }

    method RecoverSending(now: Time) returns (r: Result<bool>)
      modifies this
      ensures Commits(Spec.RecoverSending(old(db), now), old(db), db, r)
    {
      var before := db;
      var known := ListTransactions(db.sends.outbox, db.sends.outboxTxn);
      db := db.(sends := db.sends.(outboxTxn := known));
      r := RewriteOutbox(MarkAmbiguous, now);
      if r.Err? { db := before; }
    }

    // ---- history jobs ----

    method WriteHistory(job: HistoryJob, now: Time) returns (r: Result<bool>)
      modifies this
      ensures Agrees(Spec.WriteHistory(old(db), job, now), db, r)
    {
      r := AppendTx(Key(HistoryKind, job.id), HistoryData(job.(updated := now)), now);
    }

    method QueueHistory(wanted: HistoryJob, restart: bool, now: Time) returns (r: Result<HistoryJob>)
      modifies this
      ensures Commits(Spec.QueueHistory(old(db), wanted, restart, now), old(db), db, r)
    {
      var before := db;
      var job := wanted;
      match HistoryTx(db, wanted.id) {
        case Broken => return Err(Undecodable);
        case Missing =>
        case Found(known) =>
          job := known;
          if !restart && (job.state.JobComplete? || job.state.JobQueued?) { return Ok(job); }
      }
      if restart {
        job := job.(pages := 0, records := 0);
        db := db.(private := db.private - {CursorKey(job.id)});
        db := db.(pages := db.pages - {job.id});
      }
      job := job.(generation := job.generation + 1, sessionEpoch := db.own.epoch, updated := now);
      job := job.(schema := SCHEMA, state := JobQueued, detail := "", retryAt := 0);
      var written := WriteHistory(job, now);
      if written.Err? {
        db := before;
        return Err(written.error);
      }
      return Ok(job);
    }

    method PauseHistory(id: string, now: Time) returns (r: Result<HistoryJob>)
      modifies this
      ensures Commits(Spec.PauseHistory(old(db), id, now), old(db), db, r)
    {
      var before := db;
      match HistoryTx(db, id) {
        case Broken => return Err(Undecodable);
        case Missing => return Err(NotFound);
        case Found(known) =>
          if known.state.JobComplete? { return Ok(known); }
          var job := known.(state := JobPaused, updated := now);
          var written := WriteHistory(job, now);
          if written.Err? {
            db := before;
            return Err(written.error);
          }
          return Ok(job);
      }
    }

    method CheckpointHistory(
      id: string, generation: nat, previous: Bytes, next: Bytes, records: nat, detail: string, now: Time)
      returns (r: Result<bool>)
      modifies this
      ensures Commits(Spec.CheckpointHistory(old(db), id, generation, previous, next, records, detail, now),
                      old(db), db, r)
    {
      var before := db;
      r := CheckpointTx(id, generation, previous, next, records, detail, now);
      if r.Err? { db := before; }
    }

    method CheckpointTx(
      id: string, generation: nat, previous: Bytes, next: Bytes, records: nat, detail: string, now: Time)
      returns (r: Result<bool>)
      modifies this
      ensures Agrees(Spec.CheckpointHistory(old(db), id, generation, previous, next, records, detail, now), db, r)
    {
      match HistoryTx(db, id) {
        case Broken => return Err(Undecodable);
        case Missing => return Err(NotFound);
        case Found(known) =>
          var job := known;
          if !job.state.JobQueued? || job.generation != generation { return Ok(false); }
          var current: Bytes := [];
          if CursorKey(id) in db.private { current := db.private[CursorKey(id)]; }
          if current != previous { return Err(Conflict); }
          job := job.(detail := detail);
          if detail != "" {
            job := job.(retryAt := now + RETRY);
          } else {
            var seen := SeenPages(db, id) + {previous};
            job := job.(pages := job.pages + 1, records := job.records + records, retryAt := 0);
            if next == [] {
              job := job.(state := JobComplete);
            } else if next in seen {
              job := job.(state := JobFailed, detail := REPEATED_CURSOR);
            }
            db := db.(pages := db.pages[id := seen], private := db.private[CursorKey(id) := next]);
          }
          r := WriteHistory(job, now);
      }
    }

    method FailHistory(id: string, generation: nat, detail: string, now: Time) returns (r: Result<bool>)
      modifies this
      ensures Commits(Spec.FailHistory(old(db), id, generation, detail, now), old(db), db, r)
    {
      var before := db;
      match HistoryTx(db, id) {
        case Broken => return Err(Undecodable);
        case Missing => return Err(NotFound);
        case Found(job) =>
          if !job.state.JobQueued? || job.generation != generation { return Ok(false); }
          r := WriteHistory(job.(state := JobFailed, detail := detail, retryAt := 0), now);
          if r.Err? { db := before; }
      }
    }

    // ---- pairing and ownership ----

    method UpgradeSessionMetadata(now: Time) returns (r: Result<bool>)
      modifies this
      ensures Commits(Spec.UpgradeSessionMetadata(old(db), now), old(db), db, r)
    {
      if db.own.epoch == 0 { return Ok(true); }
      var before := db;
      r := UpgradeTx(now);
      if r.Err? { db := before; }
    }

    method UpgradeTx(now: Time) returns (r: Result<bool>)
      requires db.own.epoch > 0
      modifies this
      ensures Agrees(Spec.UpgradeSessionMetadata(old(db), now), db, r)
    {
      var rewritten := RewriteOutbox(AssignEpoch(db.own.epoch), now);
      if rewritten.Err? { return rewritten; }
      var listed := ListJobs(db);
      if listed.Err? { return Err(listed.error); }
      r := AssignJobEpochs(listed.value, now);
    }

    method AssignJobEpochs(jobs: seq<HistoryJob>, now: Time) returns (r: Result<bool>)
      modifies this
      ensures Agrees(Spec.AssignJobEpochs(old(db), jobs, now), db, r)
    {
      var i := 0;
      while i < |jobs|
        invariant 0 <= i <= |jobs|
        invariant Spec.AssignJobEpochs(db, jobs[i..], now) == Spec.AssignJobEpochs(old(db), jobs, now)
      {
        assert jobs[i..][0] == jobs[i] && jobs[i..][1..] == jobs[i + 1..];
        if jobs[i].sessionEpoch == 0 {
          var written := WriteHistory(jobs[i].(sessionEpoch := db.own.epoch), now);
          if written.Err? { return written; }
        }
        i := i + 1;
      }
      return Ok(true);
    }

    method BeginPairingAttempt(started: Time, expires: Time, now: Time) returns (r: Result<bool>)
      modifies this
      ensures Commits(Spec.BeginPairingAttempt(old(db), started, expires, now), old(db), db, r)
    {
      var before := db;
      r := RewriteOutbox(CancelForPairing, now);
      if r.Err? {
        db := before;
        return;
      }
      db := db.(meta := db.meta.(attempt := Some(Attempt(started, expires))));
    }

    method ClearPairingAttempt()
      modifies this
      ensures db == Step(old(db), ClearAttemptTxn)
    {
      db := db.(meta := db.meta.(attempt := None));
    }

    method RecoverPairingAttempt() returns (r: Result<bool>)
      modifies this
      ensures Commits(Spec.RecoverPairingAttempt(old(db)), old(db), db, r)
    {
      if db.meta.attempt.None? { return Ok(false); }
      if db.meta.attempt.value.started == 0 || db.meta.attempt.value.expires == 0 { return Err(InvalidMarker); }
      db := db.(meta := db.meta.(attempt := None));
      return Ok(true);
    }

    /** Every stored conversation and message is stamped; the ones that moved are counted. */
    method AdoptStoredRecords() returns (r: Result<nat>)
      modifies this
      ensures Commits(Spec.AdoptStoredRecords(old(db)), old(db), db, r)
    {
      if db.own.epoch == 0 { return Ok(0); }
      var adopted := CountUnstamped(db.own.epochs, OwnedKeys(db), db.own.epoch);
      var epochs := StampAll(db.own.epochs, OwnedKeys(db), db.own.epoch);
      db := db.(own := db.own.(epochs := epochs, previousConversations := 0, previousMessages := 0));
      return Ok(adopted);
    }

    method CountKind(kind: Kind) returns (count: nat)
      ensures count == |KindIds(db.log.latest, kind)|
    {
      var ids := ListKeys(KindIds(db.log.latest, kind));
      count := |ids|;
    }

    method SaveSession(data: Bytes)
      modifies this
      ensures db == Step(old(db), SaveSessionTxn(data))
    {
      db := db.(meta := db.meta.(session := Some(data)));
    }

    method SavePairedSession(data: Bytes, newPhone: bool, now: Time) returns (r: Result<bool>)
      modifies this
      ensures Commits(Spec.SavePairedSession(old(db), data, newPhone, now), old(db), db, r)
    {
      var before := db;
      r := SavePairedTx(data, newPhone, now);
      if r.Err? { db := before; }
    }

    method SavePairedTx(data: Bytes, newPhone: bool, now: Time) returns (r: Result<bool>)
      modifies this
      ensures Agrees(Spec.SavePairedSession(old(db), data, newPhone, now), db, r)
    {
      if db.meta.recovery.Some? {
        db := db.(meta := db.meta.(recovery := Some(db.meta.recovery.value.(attempts := 0, paused := false, nextAttempt := 0))));
      }
      db := db.(meta := db.meta.(session := Some(data)));
      db := db.(meta := db.meta.(attempt := None));
      var canceled := RewriteOutbox(CancelForPairing, now);
      if canceled.Err? || !newPhone { return canceled; }
      r := BeginSession(now);
    }

    /** A new phone: counters, epoch, address book, private data and jobs start over. */
    method BeginSession(now: Time) returns (r: Result<bool>)
      modifies this
      ensures Agrees(Spec.BeginSession(old(db), now), db, r)
    {
      var conversations := CountKind(ConversationKind);
      var messages := CountKind(MessageKind);
      var listed := ListJobs(db);
      if listed.Err? { return Err(listed.error); }
      db := db.(newest := map[], own := db.own.(previousConversations := conversations, previousMessages := messages));
      db := db.(own := db.own.(epoch := db.own.epoch + 1), meta := db.meta.(contacts := None), private := map[]);
      JobsOfLatest(old(db), db, SortedKeys(KindIds(db.log.latest, HistoryKind)));
      r := PauseJobs(listed.value, now);
    }

    method PauseJobs(jobs: seq<HistoryJob>, now: Time) returns (r: Result<bool>)
      modifies this
      ensures Agrees(Spec.PauseJobs(old(db), jobs, now), db, r)
    {
      var i := 0;
      while i < |jobs|
        invariant 0 <= i <= |jobs|
        invariant Spec.PauseJobs(db, jobs[i..], now) == Spec.PauseJobs(old(db), jobs, now)
      {
        assert jobs[i..][0] == jobs[i] && jobs[i..][1..] == jobs[i + 1..];
        var job := jobs[i].(state := JobPaused, detail := JOB_PAIRING_CHANGED);
        job := job.(generation := job.generation + 1, pages := 0, records := 0, retryAt := 0);
        db := db.(pages := db.pages - {job.id});
        var written := WriteHistory(job, now);
        if written.Err? { return written; }
        i := i + 1;
      }
      return Ok(true);
    }

    // ---- opening a file ----

    method EnsureMessageIndex() returns (r: Result<bool>)
      modifies this
      ensures Agrees(Spec.EnsureMessageIndex(old(db)), db, r)
    {
      var listed := ListMessages(db);
      if listed.Err? { return Err(listed.error); }
      var index := {};
      var i := 0;
      while i < |listed.value|
        invariant 0 <= i <= |listed.value|
        invariant IndexFrom(listed.value[i..], index) == IndexFrom(listed.value, {})
      {
        var m := listed.value[i];
        assert listed.value[i..][0] == m && listed.value[i..][1..] == listed.value[i + 1..];
        if m.id != "" && m.conversationID != "" { index := index + {IndexKey(m.conversationID, m.id)}; }
        i := i + 1;
      }
      db := db.(log := db.log.(index := index));
      return Ok(true);
    }

    method EnsureConversationPreviews(now: Time) returns (r: Result<bool>)
      modifies this
      ensures Agrees(Spec.EnsureConversationPreviews(old(db), now), db, r)
    {
      var listed := ListMessages(db);
      if listed.Err? { return Err(listed.error); }
      var newest: map<string, LatestMessage> := map[];
      var i := 0;
      while i < |listed.value|
        invariant 0 <= i <= |listed.value|
        invariant NewestFrom(listed.value[i..], newest) == NewestFrom(listed.value, map[])
      {
        var m := listed.value[i];
        assert listed.value[i..][0] == m && listed.value[i..][1..] == listed.value[i + 1..];
        var source := PreviewSource(m);
        if source.Some? && !(m.conversationID in newest && Ahead(newest[m.conversationID], source.value)) {
          newest := newest[m.conversationID := source.value];
        }
        i := i + 1;
      }
      db := db.(newest := newest);
      r := MergeRows(newest, now);
    }

    method MergeRows(best: map<string, LatestMessage>, now: Time) returns (r: Result<bool>)
      modifies this
      ensures Agrees(Spec.MergeRows(old(db), best, SortedKeys(best.Keys), now), db, r)
    {
      var ids := ListKeys(best.Keys);
      var i := 0;
      while i < |ids|
        invariant 0 <= i <= |ids|
        invariant Spec.MergeRows(db, best, ids[i..], now) == Spec.MergeRows(old(db), best, ids, now)
      {
        assert ids[i..][0] == ids[i] && ids[i..][1..] == ids[i + 1..];
        var merged := UpdateConversationTx(ids[i], Merge(best[ids[i]], None), now);
        if merged.Err? { return merged; }
        i := i + 1;
      }
      return Ok(true);
    }

    method Open(hasIndex: bool, hasNewest: bool, now: Time) returns (r: Result<bool>)
      modifies this
      ensures Commits(Spec.Open(old(db), hasIndex, hasNewest, now), old(db), db, r)
    {
      var before := db;
      r := Ok(true);
      if !hasIndex { r := EnsureMessageIndex(); }
      if r.Ok? && !hasNewest { r := EnsureConversationPreviews(now); }
      if r.Err? {
        db := before;
        return;
      }
      if db.seen.versionSeq < db.log.eventSeq { db := db.(seen := db.seen.(versionSeq := db.log.eventSeq)); }
    }

    // ---- any transaction ----

    /** Runs one transaction, whichever it is. */
    method Perform(t: Txn)
      modifies this
      ensures db == Step(old(db), t)
    {
      if t.QueueHistoryTxn? || t.PauseHistoryTxn? || t.CheckpointTxn? || t.FailHistoryTxn? {
        PerformHistory(t);
      } else if t.EnqueueTxn? || t.ClaimTxn? || t.FinishTxn? || t.RejectTxn? || t.CancelTxn? || t.RecoverSendingTxn? {
        PerformSend(t);
      } else if t.ApplyTxn? || t.ReadTxn? || t.FinishConversationTxn? || t.OpenTxn? || t.PutPrivateTxn? {
        PerformSnapshot(t);
      } else {
        PerformSession(t);
      }
    }

    method PerformHistory(t: Txn)
      requires t.QueueHistoryTxn? || t.PauseHistoryTxn? || t.CheckpointTxn? || t.FailHistoryTxn?
      modifies this
      ensures db == Step(old(db), t)
    {
      match t {
        case QueueHistoryTxn(job, restart, now) => var _ := QueueHistory(job, restart, now);
        case PauseHistoryTxn(id, now) => var _ := PauseHistory(id, now);
        case CheckpointTxn(id, generation, previous, next, records, detail, now) =>
          var _ := CheckpointHistory(id, generation, previous, next, records, detail, now);
        case FailHistoryTxn(id, generation, detail, now) => var _ := FailHistory(id, generation, detail, now);
      }
    }

    method PerformSend(t: Txn)
      requires t.EnqueueTxn? || t.ClaimTxn? || t.FinishTxn? || t.RejectTxn? || t.CancelTxn? || t.RecoverSendingTxn?
      modifies this
      ensures db == Step(old(db), t)
    {
      match t {
        case EnqueueTxn(id, transactionID, request, now) => var _ := Enqueue(id, transactionID, request, now);
        case ClaimTxn(id, now) => var _ := ClaimQueued(id, now);
        case FinishTxn(id, state, detail, now) => var _ := Finish(id, state, detail, now);
        case RejectTxn(id, detail, now) => var _ := RejectQueued(id, detail, now);
        case CancelTxn(id, now) => var _ := CancelQueued(id, now);
        case RecoverSendingTxn(now) => var _ := RecoverSending(now);
      }
    }

    method PerformSnapshot(t: Txn)
      requires t.ApplyTxn? || t.ReadTxn? || t.FinishConversationTxn? || t.OpenTxn? || t.PutPrivateTxn?
      modifies this
      ensures db == Step(old(db), t)
    {
      match t {
        case OpenTxn(now) => var _ := Open(true, true, now);
        case ApplyTxn(e, values, watermark, now) => var _ := Apply(e, values, watermark, now);
        case ReadTxn(id, through, now) => var _ := ReadConversation(id, through, now);
        case FinishConversationTxn(id, e, values, mark, now) => var _ := FinishConversation(id, e, values, mark, now);
        case PutPrivateTxn(name, value) => db := db.(private := db.private[name := value]);
      }
    }

    method PerformSession(t: Txn)
      requires t.UpgradeTxn? || t.BeginPairingTxn? || t.ClearAttemptTxn? || t.RecoverAttemptTxn? || t.AdoptTxn? || t.SavePairedTxn?
            || t.SaveSessionTxn?
      modifies this
      ensures db == Step(old(db), t)
    {
      match t {
        case UpgradeTxn(now) => var _ := UpgradeSessionMetadata(now);
        case BeginPairingTxn(started, expires, now) => var _ := BeginPairingAttempt(started, expires, now);
        case ClearAttemptTxn => ClearPairingAttempt();
        case RecoverAttemptTxn => var _ := RecoverPairingAttempt();
        case AdoptTxn => var _ := AdoptStoredRecords();
        case SavePairedTxn(session, newPhone, now) => var _ := SavePairedSession(session, newPhone, now);
        case SaveSessionTxn(session) => SaveSession(session);
      }
    }

    /** Other actors run while this one waits. */
    method Interleave(ts: seq<Txn>)
      modifies this
      ensures db == Run(old(db), ts)
    {
      var i := 0;
      while i < |ts|
        invariant 0 <= i <= |ts|
        invariant Run(db, ts[i..]) == Run(old(db), ts)
      {
        assert ts[i..][0] == ts[i] && ts[i..][1..] == ts[i + 1..];
        Perform(ts[i]);
        i := i + 1;
      }
    }
  }
}
