/** What each transaction can touch: relations every property's run argument starts from. */
module Frames {
  import opened Records
  import opened Buckets
  import opened StoreSpec

  function Fold(events: seq<Event>): map<Key, Data>
  {
    if events == [] then map[] else Fold(events[..|events| - 1])[Last(events).key := Last(events).data]
  }

  function Last(events: seq<Event>): Event
    requires events != []
  {
    events[|events| - 1]
  }

  ghost predicate Contiguous(events: seq<Event>)
  {
    events != [] ==> Last(events).id == |events| && Contiguous(events[..|events| - 1])
  }

  /** The log holds events 1, 2, 3, ... and `latest` is its fold. */
  ghost predicate Logged(log: Log)
  {
    |log.events| == log.eventSeq && Contiguous(log.events) && log.latest == Fold(log.events)
  }

  ghost predicate Grows(a: Log, b: Log, k: Key)
  {
    a.events <= b.events && (Logged(a) ==> Logged(b)) && (k in a.latest ==> k in b.latest)
  }

  /** No observation is newer than the sequence that numbers them. */
  ghost predicate Numbered(seen: Seen, k: Key)
  {
    k in seen.versions ==> seen.versions[k] <= seen.versionSeq
  }

  ghost predicate Advances(a: Seen, b: Seen, k: Key)
  {
    && a.versionSeq <= b.versionSeq
    && (Numbered(a, k) ==> Numbered(b, k) && (k in a.versions ==> k in b.versions && a.versions[k] <= b.versions[k]))
  }

  /** The log only grows and stays well formed; observations of any one key k only get newer. */
  ghost predicate Evolves(a: DB, b: DB, k: Key)
  {
    Grows(a.log, b.log, k) && Advances(a.seen, b.seen, k)
  }

  lemma EvolvesTransitive(a: DB, b: DB, c: DB, k: Key)
    requires Evolves(a, b, k) && Evolves(b, c, k)
    ensures Evolves(a, c, k)
  {
  }

  // ---- the log and the observations ----

  lemma AppendEvolves(db: DB, key: Key, data: Data, now: Time, k: Key)
    ensures AppendTx(db, key, data, now).Done? ==> Evolves(db, AppendTx(db, key, data, now).db, k)
  {
    var r := AppendTx(db, key, data, now);
    if r.Done? && r.value {
      assert r.db.log.events[..|db.log.events|] == db.log.events;
    }
  }

  lemma RowEvolves(db: DB, id: string, mutation: Mutation, now: Time, k: Key)
    ensures UpdateConversationTx(db, id, mutation, now).Done? ==>
              Evolves(db, UpdateConversationTx(db, id, mutation, now).db, k)
  {
    var key := Key(ConversationKind, id);
    if key in db.log.latest && db.log.latest[key].ConversationData? {
      var (c, _) := Mutate(mutation, db.log.latest[key].conversation);
      AppendEvolves(ObserveTx(db, key), key, ConversationData(c), now, k);
    }
  }

  lemma RefreshEvolves(db: DB, m: Message, isNew: bool, status: string, now: Time, k: Key)
    ensures RefreshConversationTx(db, m, isNew, status, now).Done? ==>
              Evolves(db, RefreshConversationTx(db, m, isNew, status, now).db, k)
  {
    var source := PreviewSource(m);
    if source.Some? {
      RowEvolves(db.(newest := db.newest[m.conversationID := source.value]), m.conversationID,
                 Merge(source.value, UnreadAfter(m, isNew, status, now)), now, k);
    }
  }

  lemma WriteEvolves(db: DB, o: Outbox, now: Time, k: Key)
    ensures WriteOutbox(db, o, now).Done? ==> Evolves(db, WriteOutbox(db, o, now).db, k)
  {
    AppendEvolves(db.(sends := db.sends.(outbox := db.sends.outbox[o.id := o])), Key(OutboxKind, o.id), OutboxData(o), now, k);
  }

  lemma ConfirmEvolves(db: DB, m: Message, now: Time, k: Key)
    ensures ConfirmSendTx(db, m, now).Done? ==> Evolves(db, ConfirmSendTx(db, m, now).db, k)
  {
    if m.transactionID in db.sends.outboxTxn && db.sends.outboxTxn[m.transactionID] in db.sends.outbox {
      var o := db.sends.outbox[db.sends.outboxTxn[m.transactionID]];
      WriteEvolves(db, o.(state := Confirmed, messageID := m.id, detail := OBSERVED, updated := now), now, k);
    }
  }

  lemma SnapshotEvolves(db: DB, key: Key, data: Data, private: map<string, Bytes>, now: Time, k: Key)
    ensures StoreSnapshot(db, key, data, private, now).Done? ==>
              Evolves(db, StoreSnapshot(db, key, data, private, now).db, k)
  {
    AppendEvolves(db, key, data, now, k);
  }

  lemma FreshEvolves(db: DB, e: Incoming, private: map<string, Bytes>, now: Time, k: Key)
    ensures ApplyFresh(db, e, private, now).Done? ==> Evolves(db, ApplyFresh(db, e, private, now).db, k)
  {
    var preview := if e.key.kind.ConversationKind? then PreviewConversation(db, e.data) else Some(e.data);
    if preview.Some? { SnapshotEvolves(StampEpoch(db, e.key), e.key, preview.value, private, now, k); }
    var kept := ClaimAndStore(db, e, private, now);
    if kept.Done? && e.key.kind.MessageKind? && e.data.MessageData? {
      RefreshEvolves(kept.db, e.data.message, e.key !in db.log.latest && !e.historical, PreviousStatus(db, e.key), now, k);
      var r := ApplyFresh(db, e, private, now);
      if r.Done? { EvolvesTransitive(db, kept.db, r.db, k); }
    }
  }

  lemma ApplyEvolves(db: DB, e: Incoming, private: map<string, Bytes>, watermark: Option<nat>, now: Time, k: Key)
    ensures Apply(db, e, private, watermark, now).Done? ==> Evolves(db, Apply(db, e, private, watermark, now).db, k)
  {
    FreshEvolves(db, e, private, now, k);
    var r := if Stale(db, e.key, watermark) then Done(db, false) else ApplyFresh(db, e, private, now);
    if r.Done? && e.data.MessageData? { ConfirmEvolves(r.db, e.data.message, now, k); }
  }

  lemma FinishConversationEvolves(db: DB, id: string, e: Incoming, private: map<string, Bytes>, mark: nat, now: Time, k: Key)
    ensures FinishConversation(db, id, e, private, mark, now).Done? ==>
              Evolves(db, FinishConversation(db, id, e, private, mark, now).db, k)
  {
    SnapshotEvolves(db, e.key, e.data, private, now, k);
    var stored := StoreResult(db, e, private, mark, now);
    if id in db.sends.outbox && stored.Done? {
      WriteEvolves(StampEpoch(stored.db, e.key), Finished(db.sends.outbox[id], e.key.id, now), now, k);
      var r := FinishConversation(db, id, e, private, mark, now);
      if r.Done? { EvolvesTransitive(db, stored.db, r.db, k); }
    }
  }

  lemma {:induction false} WriteAllEvolves(db: DB, records: seq<Outbox>, now: Time, k: Key)
    ensures WriteAll(db, records, now).Done? ==> Evolves(db, WriteAll(db, records, now).db, k)
    decreases |records|
  {
    if records != [] {
      WriteEvolves(db, records[0], now, k);
      var r := WriteOutbox(db, records[0], now);
      if r.Done? { WriteAllEvolves(r.db, records[1..], now, k); }
    }
  }

  lemma {:induction false} AssignJobsEvolves(db: DB, jobs: seq<HistoryJob>, now: Time, k: Key)
    ensures AssignJobEpochs(db, jobs, now).Done? ==> Evolves(db, AssignJobEpochs(db, jobs, now).db, k)
    decreases |jobs|
  {
    if jobs != [] {
      var job := jobs[0].(sessionEpoch := db.own.epoch);
      AppendEvolves(db, Key(HistoryKind, job.id), HistoryData(job.(updated := now)), now, k);
      var r := if jobs[0].sessionEpoch != 0 then Done(db, true) else WriteHistory(db, job, now);
      if r.Done? { AssignJobsEvolves(r.db, jobs[1..], now, k); }
    }
  }

  lemma {:induction false} PauseJobsEvolves(db: DB, jobs: seq<HistoryJob>, now: Time, k: Key)
    ensures PauseJobs(db, jobs, now).Done? ==>
              Evolves(db, PauseJobs(db, jobs, now).db, k)
    decreases |jobs|
  {
    if jobs != [] {
      var cleared := db.(pages := db.pages - {jobs[0].id});
      HistoryEvolves(cleared, PausedJob(jobs[0]), now, k);
      var r := WriteHistory(cleared, PausedJob(jobs[0]), now);
      if r.Done? { PauseJobsEvolves(r.db, jobs[1..], now, k); }
    }
  }

  lemma RewriteEvolves(db: DB, rewrite: Rewrite, now: Time, k: Key)
    ensures RewriteOutbox(db, rewrite, now).Done? ==> Evolves(db, RewriteOutbox(db, rewrite, now).db, k)
  {
    WriteAllEvolves(db, Collect(db.sends.outbox, SortedKeys(db.sends.outbox.Keys), rewrite, now), now, k);
  }

  lemma UpgradeEvolves(db: DB, now: Time, k: Key)
    ensures UpgradeSessionMetadata(db, now).Done? ==> Evolves(db, UpgradeSessionMetadata(db, now).db, k)
  {
    RewriteEvolves(db, AssignEpoch(db.own.epoch), now, k);
    var r := RewriteOutbox(db, AssignEpoch(db.own.epoch), now);
    if r.Done? && JobsReadable(r.db) {
      AssignJobsEvolves(r.db, Jobs(r.db, SortedKeys(KindIds(r.db.log.latest, HistoryKind))), now, k);
    }
  }

  lemma SavePairedEvolves(db: DB, session: Bytes, newPhone: bool, now: Time, k: Key)
    ensures SavePairedSession(db, session, newPhone, now).Done? ==>
              Evolves(db, SavePairedSession(db, session, newPhone, now).db, k)
  {
    var saved := PairedSession(db, session);
    RewriteEvolves(saved, CancelForPairing, now, k);
    var r := RewriteOutbox(saved, CancelForPairing, now);
    if r.Done? && newPhone && JobsReadable(r.db) {
      var begun := NewEpoch(r.db);
      PauseJobsEvolves(begun, Jobs(begun, SortedKeys(KindIds(begun.log.latest, HistoryKind))), now, k);
    }
  }

  lemma HistoryEvolves(db: DB, job: HistoryJob, now: Time, k: Key)
    ensures WriteHistory(db, job, now).Done? ==>
              Evolves(db, WriteHistory(db, job, now).db, k)
  {
    AppendEvolves(db, Key(HistoryKind, job.id), HistoryData(job.(updated := now)), now, k);
  }

  lemma RequeueEvolves(db: DB, job: HistoryJob, restart: bool, now: Time, k: Key)
    ensures Requeue(db, job, restart, now).Done? ==> Evolves(db, Requeue(db, job, restart, now).db, k)
  {
    HistoryEvolves(ClearProgress(db, job.id, restart), RequeuedJob(job, restart, db.own.epoch, now), now, k);
  }

  lemma CheckpointEvolves(db: DB, id: string, generation: nat, previous: Bytes, next: Bytes, records: nat, detail: string, now: Time, k: Key)
    ensures var r := CheckpointHistory(db, id, generation, previous, next, records, detail, now);
      r.Done? ==> Evolves(db, r.db, k)
  {
    var lookup := HistoryTx(db, id);
    if lookup.Found? {
      var seen := SeenPages(db, id) + {previous};
      HistoryEvolves(db, lookup.job.(detail := detail, retryAt := now + RETRY), now, k);
      HistoryEvolves(TurnPage(db, id, seen, next), Advanced(lookup.job, seen, next, records), now, k);
    }
  }

  lemma HistoryTxnEvolves(db: DB, t: Txn, k: Key)
    requires t.QueueHistoryTxn? || t.PauseHistoryTxn? || t.CheckpointTxn? || t.FailHistoryTxn?
    ensures Evolves(db, Step(db, t), k)
  {
    match t
    case QueueHistoryTxn(job, restart, now) =>
      var lookup := HistoryTx(db, job.id);
      RequeueEvolves(db, if lookup.Found? then lookup.job else job, restart, now, k);
    case PauseHistoryTxn(id, now) =>
      var lookup := HistoryTx(db, id);
      if lookup.Found? { HistoryEvolves(db, lookup.job.(state := JobPaused, updated := now), now, k); }
    case CheckpointTxn(id, generation, previous, next, records, detail, now) =>
      CheckpointEvolves(db, id, generation, previous, next, records, detail, now, k);
    case FailHistoryTxn(id, generation, detail, now) =>
      var lookup := HistoryTx(db, id);
      if lookup.Found? { HistoryEvolves(db, lookup.job.(state := JobFailed, detail := detail, retryAt := 0), now, k); }
  }

  lemma OutboxTxnEvolves(db: DB, t: Txn, k: Key)
    requires t.EnqueueTxn? || t.ClaimTxn? || t.FinishTxn? || t.RejectTxn? || t.CancelTxn?
    ensures Evolves(db, Step(db, t), k)
  {
    match t
    case EnqueueTxn(id, transactionID, request, now) =>
      WriteEvolves(db.(sends := db.sends.(outboxTxn := db.sends.outboxTxn[transactionID := id])),
                   Outbox("", db.own.epoch, SCHEMA, id, request, transactionID, Queued, "", "", now, now), now, k);
    case ClaimTxn(id, now) =>
      if id in db.sends.outbox { WriteEvolves(db, db.sends.outbox[id].(state := Sending, updated := now), now, k); }
    case FinishTxn(id, state, detail, now) =>
      if id in db.sends.outbox { WriteEvolves(db, db.sends.outbox[id].(state := state, detail := detail, updated := now), now, k); }
    case RejectTxn(id, detail, now) =>
      if id in db.sends.outbox { WriteEvolves(db, db.sends.outbox[id].(state := Rejected, detail := detail, updated := now), now, k); }
    case CancelTxn(id, now) =>
      if id in db.sends.outbox { WriteEvolves(db, db.sends.outbox[id].(state := Canceled, updated := now), now, k); }
  }

  lemma SessionTxnEvolves(db: DB, t: Txn, k: Key)
    requires t.RecoverSendingTxn? || t.UpgradeTxn? || t.BeginPairingTxn? || t.SavePairedTxn?
    ensures Evolves(db, Step(db, t), k)
  {
    match t
    case RecoverSendingTxn(now) =>
      RewriteEvolves(Relinked(db), MarkAmbiguous, now, k);
    case UpgradeTxn(now) => UpgradeEvolves(db, now, k);
    case BeginPairingTxn(started, expires, now) => RewriteEvolves(db, CancelForPairing, now, k);
    case SavePairedTxn(session, newPhone, now) => SavePairedEvolves(db, session, newPhone, now, k);
  }

  lemma SnapshotTxnEvolves(db: DB, t: Txn, k: Key)
    requires t.ApplyTxn? || t.ReadTxn? || t.FinishConversationTxn?
    ensures Evolves(db, Step(db, t), k)
  {
    match t
    case ApplyTxn(e, private, watermark, now) => ApplyEvolves(db, e, private, watermark, now, k);
    case ReadTxn(id, through, now) => RowEvolves(db, id, ReadThrough(through), now, k);
    case FinishConversationTxn(id, e, private, mark, now) => FinishConversationEvolves(db, id, e, private, mark, now, k);
  }

  /** The log only grows, `latest` stays its fold, and observation numbers only rise: every transaction, any state. */
  lemma StepEvolves(db: DB, t: Txn, k: Key)
    ensures Evolves(db, Step(db, t), k)
  {
    if t.ApplyTxn? || t.ReadTxn? || t.FinishConversationTxn? {
      SnapshotTxnEvolves(db, t, k);
    } else if t.RecoverSendingTxn? || t.UpgradeTxn? || t.BeginPairingTxn? || t.SavePairedTxn? {
      SessionTxnEvolves(db, t, k);
    } else if t.QueueHistoryTxn? || t.PauseHistoryTxn? || t.CheckpointTxn? || t.FailHistoryTxn? {
      HistoryTxnEvolves(db, t, k);
    } else if t.EnqueueTxn? || t.ClaimTxn? || t.FinishTxn? || t.RejectTxn? || t.CancelTxn? {
      OutboxTxnEvolves(db, t, k);
    }
  }

  lemma {:induction false} RunEvolves(db: DB, ts: seq<Txn>, k: Key)
    ensures Evolves(db, Run(db, ts), k)
    decreases |ts|
  {
    if ts != [] {
      StepEvolves(db, ts[0], k);
      RunEvolves(Step(db, ts[0]), ts[1..], k);
      EvolvesTransitive(db, Step(db, ts[0]), Run(db, ts), k);
    }
  }

  // ---- what each step leaves alone ----

  /** Outbox records are stored under their own ids. */
  ghost predicate Keyed(db: DB)
  {
    forall id :: id in db.sends.outbox ==> db.sends.outbox[id].id == id
  }

  ghost predicate SameAt(a: Log, b: Log, k: Key)
  {
    (k in a.latest <==> k in b.latest) && (k in a.latest ==> a.latest[k] == b.latest[k])
  }

  /** A stored conversation row the newest-message path maintains. */
  predicate IsRow(db: DB, k: Key)
  {
    k in db.log.latest && db.log.latest[k].ConversationData? && db.log.latest[k].conversation.schema == SCHEMA
  }

  lemma AppendFrame(db: DB, key: Key, data: Data, now: Time, k: Key)
    requires AppendTx(db, key, data, now).Done?
    ensures var r := AppendTx(db, key, data, now).db;
      && r == db.(log := r.log)
      && key in r.log.latest && r.log.latest[key] == data
      && (k != key ==> SameAt(db.log, r.log, k))
      && (!key.kind.MessageKind? ==> r.log.index == db.log.index)
  {
  }

  lemma RowFrame(db: DB, id: string, mutation: Mutation, now: Time, k: Key)
    requires UpdateConversationTx(db, id, mutation, now).Done?
    ensures var r := UpdateConversationTx(db, id, mutation, now).db;
      && r == db.(log := r.log, seen := r.seen)
      && (k in r.log.latest <==> k in db.log.latest)
      && (k != Key(ConversationKind, id) ==> SameAt(db.log, r.log, k))
      && r.log.index == db.log.index
  {
  }

  lemma RefreshFrame(db: DB, m: Message, isNew: bool, status: string, now: Time, k: Key)
    requires RefreshConversationTx(db, m, isNew, status, now).Done?
    ensures var r := RefreshConversationTx(db, m, isNew, status, now).db;
      && r == db.(log := r.log, seen := r.seen, newest := r.newest)
      && (k in r.log.latest <==> k in db.log.latest)
      && (k != Key(ConversationKind, m.conversationID) ==> SameAt(db.log, r.log, k))
      && r.log.index == db.log.index
  {
    var source := PreviewSource(m);
    if source.Some? && !(m.conversationID in db.newest && Ahead(db.newest[m.conversationID], source.value)) {
      RowFrame(db.(newest := db.newest[m.conversationID := source.value]), m.conversationID,
               Merge(source.value, UnreadAfter(m, isNew, status, now)), now, k);
    }
  }

  lemma WriteFrame(db: DB, o: Outbox, now: Time, k: Key)
    requires WriteOutbox(db, o, now).Done?
    ensures var r := WriteOutbox(db, o, now).db;
      && r == db.(log := r.log, sends := db.sends.(outbox := db.sends.outbox[o.id := o]))
      && Key(OutboxKind, o.id) in r.log.latest && r.log.latest[Key(OutboxKind, o.id)] == OutboxData(o)
      && (k != Key(OutboxKind, o.id) ==> SameAt(db.log, r.log, k))
      && r.log.index == db.log.index
  {
  }

  lemma ConfirmFrame(db: DB, m: Message, now: Time, k: Key)
    requires ConfirmSendTx(db, m, now).Done?
    ensures var r := ConfirmSendTx(db, m, now).db;
      && r == db.(log := r.log, sends := r.sends)
      && (k.kind != OutboxKind ==> SameAt(db.log, r.log, k))
      && r.log.index == db.log.index
  {
  }

  lemma SnapshotFrame(db: DB, key: Key, data: Data, private: map<string, Bytes>, now: Time, k: Key)
    requires StoreSnapshot(db, key, data, private, now).Done?
    ensures var r := StoreSnapshot(db, key, data, private, now).db;
      && r == db.(log := r.log, seen := ObserveTx(db, key).seen, private := db.private + private)
      && key in r.log.latest && r.log.latest[key] == data
      && (k != key ==> SameAt(db.log, r.log, k))
      && (!key.kind.MessageKind? ==> r.log.index == db.log.index)
  {
  }

  lemma ClaimFrame(db: DB, e: Incoming, private: map<string, Bytes>, now: Time, k: Key)
    requires ClaimAndStore(db, e, private, now).Done?
    ensures var r := ClaimAndStore(db, e, private, now).db;
      && r == db.(log := r.log, seen := ObserveTx(db, e.key).seen, private := db.private + private, own := StampEpoch(db, e.key).own)
      && e.key in r.log.latest
      && (!e.key.kind.ConversationKind? ==> r.log.latest[e.key] == e.data)
      && (e.key.kind.ConversationKind? ==> PreviewConversation(db, e.data) == Some(r.log.latest[e.key]))
      && (k != e.key ==> SameAt(db.log, r.log, k))
      && (!e.key.kind.MessageKind? ==> r.log.index == db.log.index)
  {
    var preview := if e.key.kind.ConversationKind? then PreviewConversation(db, e.data) else Some(e.data);
    SnapshotFrame(StampEpoch(db, e.key), e.key, preview.value, private, now, k);
  }

  lemma FreshFrame(db: DB, e: Incoming, private: map<string, Bytes>, now: Time, k: Key)
    requires ApplyFresh(db, e, private, now).Done?
    ensures var r := ApplyFresh(db, e, private, now).db;
      && r == db.(log := r.log, seen := r.seen, private := db.private + private, own := StampEpoch(db, e.key).own, newest := r.newest)
      && (k in db.log.latest || k == e.key <==> k in r.log.latest)
      && (k != e.key && k.kind != ConversationKind ==> SameAt(db.log, r.log, k))
      && (e.key.kind.MessageKind? ==> e.key in r.log.latest && r.log.latest[e.key] == e.data)
  {
    ClaimFrame(db, e, private, now, k);
    var kept := ClaimAndStore(db, e, private, now);
    if e.key.kind.MessageKind? && e.data.MessageData? {
      var isNew, status := e.key !in db.log.latest && !e.historical, PreviousStatus(db, e.key);
      RefreshFrame(kept.db, e.data.message, isNew, status, now, k);
      RefreshFrame(kept.db, e.data.message, isNew, status, now, e.key);
    }
  }

  lemma ResultFrame(db: DB, e: Incoming, private: map<string, Bytes>, mark: nat, now: Time, k: Key)
    requires e.key.kind.ConversationKind? && StoreResult(db, e, private, mark, now).Done?
    ensures var r := StoreResult(db, e, private, mark, now).db;
      && r == db.(log := r.log, seen := r.seen, private := r.private)
      && r.log.index == db.log.index
      && (k != e.key ==> SameAt(db.log, r.log, k))
      && (!Stale(db, e.key, Some(mark)) ==> e.key in r.log.latest && r.log.latest[e.key] == e.data)
  {
    if !Stale(db, e.key, Some(mark)) { SnapshotFrame(db, e.key, e.data, private, now, k); }
  }

  /** The row is stored unless it is stale; the record is finished and the row claimed either way. */
  lemma FinishConversationFrame(db: DB, id: string, e: Incoming, private: map<string, Bytes>, mark: nat, now: Time, k: Key)
    requires FinishConversation(db, id, e, private, mark, now).Done?
    ensures var r := FinishConversation(db, id, e, private, mark, now).db;
      var stored := StoreResult(db, e, private, mark, now);
      var o := Finished(db.sends.outbox[id], e.key.id, now);
      && r == db.(log := r.log, seen := r.seen, private := r.private,
                  own := StampEpoch(stored.db, e.key).own, sends := db.sends.(outbox := db.sends.outbox[o.id := o]))
      && r.log.index == db.log.index
      && (k != Key(OutboxKind, o.id) && k != e.key ==> SameAt(db.log, r.log, k))
      && (!Stale(db, e.key, Some(mark)) ==> e.key in r.log.latest && r.log.latest[e.key] == e.data)
      && (Stale(db, e.key, Some(mark)) ==> SameAt(db.log, r.log, e.key))
      && Key(OutboxKind, o.id) in r.log.latest && r.log.latest[Key(OutboxKind, o.id)] == OutboxData(o)
  {
    ResultFrame(db, e, private, mark, now, k);
    var stored := StoreResult(db, e, private, mark, now).db;
    var o := Finished(db.sends.outbox[id], e.key.id, now);
    WriteFrame(StampEpoch(stored, e.key), o, now, k);
    WriteFrame(StampEpoch(stored, e.key), o, now, e.key);
  }

  lemma {:induction false} WriteAllFrame(db: DB, records: seq<Outbox>, now: Time, k: Key)
    requires WriteAll(db, records, now).Done?
    ensures var r := WriteAll(db, records, now).db;
      && r == db.(log := r.log, sends := db.sends.(outbox := r.sends.outbox))
      && (k.kind != OutboxKind ==> SameAt(db.log, r.log, k))
      && r.log.index == db.log.index
    decreases |records|
  {
    if records != [] {
      WriteFrame(db, records[0], now, k);
      WriteAllFrame(WriteOutbox(db, records[0], now).db, records[1..], now, k);
    }
  }

  /** Rewriting jobs leaves everything but job records, their log entries and page sets alone. */
  ghost predicate OnlyJobs(a: DB, b: DB, k: Key)
  {
    b == a.(log := b.log, pages := b.pages) && b.log.index == a.log.index && (k.kind != HistoryKind ==> SameAt(a.log, b.log, k))
  }

  lemma {:induction false} AssignJobsFrame(db: DB, jobs: seq<HistoryJob>, now: Time, k: Key)
    requires AssignJobEpochs(db, jobs, now).Done?
    ensures OnlyJobs(db, AssignJobEpochs(db, jobs, now).db, k)
    decreases |jobs|
  {
    if jobs != [] {
      var r := if jobs[0].sessionEpoch != 0 then Done(db, true)
               else WriteHistory(db, jobs[0].(sessionEpoch := db.own.epoch), now);
      AssignJobsFrame(r.db, jobs[1..], now, k);
    }
  }

  lemma {:induction false} PauseJobsFrame(db: DB, jobs: seq<HistoryJob>, now: Time, k: Key)
    requires PauseJobs(db, jobs, now).Done?
    ensures OnlyJobs(db, PauseJobs(db, jobs, now).db, k)
    decreases |jobs|
  {
    if jobs != [] {
      var r := WriteHistory(db.(pages := db.pages - {jobs[0].id}), PausedJob(jobs[0]), now);
      PauseJobsFrame(r.db, jobs[1..], now, k);
    }
  }

  /** History transactions touch job records, cursors and page sets only. */
  ghost predicate OnlyHistory(a: DB, b: DB, k: Key)
  {
    && b == a.(log := b.log, private := b.private, pages := b.pages)
    && b.log.index == a.log.index
    && (k.kind != HistoryKind ==> SameAt(a.log, b.log, k))
  }

  lemma HistoryWriteFrame(db: DB, job: HistoryJob, now: Time, k: Key)
    ensures OnlyHistory(db, Commit(db, WriteHistory(db, job, now)), k)
  {
  }

  lemma CheckpointFrame(db: DB, id: string, generation: nat, previous: Bytes, next: Bytes, records: nat, detail: string, now: Time, k: Key)
    ensures OnlyHistory(db, Commit(db, CheckpointHistory(db, id, generation, previous, next, records, detail, now)), k)
  {
    var lookup := HistoryTx(db, id);
    if lookup.Found? {
      var seen := SeenPages(db, id) + {previous};
      HistoryWriteFrame(db, lookup.job.(detail := detail, retryAt := now + RETRY), now, k);
      HistoryWriteFrame(TurnPage(db, id, seen, next), Advanced(lookup.job, seen, next, records), now, k);
    }
  }

  lemma RequeueFrame(db: DB, job: HistoryJob, restart: bool, now: Time, k: Key)
    ensures OnlyHistory(db, Commit(db, Requeue(db, job, restart, now)), k)
  {
    HistoryWriteFrame(ClearProgress(db, job.id, restart), RequeuedJob(job, restart, db.own.epoch, now), now, k);
  }

  lemma HistoryFrame(db: DB, t: Txn, k: Key)
    requires t.QueueHistoryTxn? || t.PauseHistoryTxn? || t.CheckpointTxn? || t.FailHistoryTxn?
    ensures OnlyHistory(db, Step(db, t), k)
  {
    match t
    case QueueHistoryTxn(job, restart, now) =>
      var lookup := HistoryTx(db, job.id);
      RequeueFrame(db, if lookup.Found? then lookup.job else job, restart, now, k);
    case PauseHistoryTxn(id, now) =>
      var lookup := HistoryTx(db, id);
      if lookup.Found? { HistoryWriteFrame(db, lookup.job.(state := JobPaused, updated := now), now, k); }
    case CheckpointTxn(id, generation, previous, next, records, detail, now) =>
      CheckpointFrame(db, id, generation, previous, next, records, detail, now, k);
    case FailHistoryTxn(id, generation, detail, now) =>
      var lookup := HistoryTx(db, id);
      if lookup.Found? { HistoryWriteFrame(db, lookup.job.(state := JobFailed, detail := detail, retryAt := 0), now, k); }
  }

  /** Outbox transactions touch the outbox and its log entries only. */
  ghost predicate OnlySends(a: DB, b: DB, k: Key)
  {
    && b == a.(log := b.log, sends := b.sends)
    && b.log.index == a.log.index
    && (k.kind != OutboxKind ==> SameAt(a.log, b.log, k))
  }

  lemma OutboxFrame(db: DB, t: Txn, k: Key)
    requires t.EnqueueTxn? || t.ClaimTxn? || t.FinishTxn? || t.RejectTxn? || t.CancelTxn?
    ensures OnlySends(db, Step(db, t), k)
  {
    match t
    case EnqueueTxn(id, transactionID, request, now) =>
      if id !in db.sends.outbox && Enqueue(db, id, transactionID, request, now).Done? {
        WriteFrame(db.(sends := db.sends.(outboxTxn := db.sends.outboxTxn[transactionID := id])),
                   Outbox("", db.own.epoch, SCHEMA, id, request, transactionID, Queued, "", "", now, now), now, k);
      }
    case ClaimTxn(id, now) =>
      if ClaimQueued(db, id, now).Done? { WriteFrame(db, db.sends.outbox[id].(state := Sending, updated := now), now, k); }
    case FinishTxn(id, state, detail, now) =>
      if Finish(db, id, state, detail, now).Done? && db.sends.outbox[id].state.Sending? {
        WriteFrame(db, db.sends.outbox[id].(state := state, detail := detail, updated := now), now, k);
      }
    case RejectTxn(id, detail, now) =>
      if RejectQueued(db, id, detail, now).Done? {
        WriteFrame(db, db.sends.outbox[id].(state := Rejected, detail := detail, updated := now), now, k);
      }
    case CancelTxn(id, now) =>
      if CancelQueued(db, id, now).Done? && db.sends.outbox[id].state.Queued? {
        WriteFrame(db, db.sends.outbox[id].(state := Canceled, updated := now), now, k);
      }
  }

  lemma RewriteFrame(db: DB, rewrite: Rewrite, now: Time, k: Key)
    requires RewriteOutbox(db, rewrite, now).Done?
    ensures var r := RewriteOutbox(db, rewrite, now).db;
      && r == db.(log := r.log, sends := db.sends.(outbox := r.sends.outbox))
      && (k.kind != OutboxKind ==> SameAt(db.log, r.log, k))
      && r.log.index == db.log.index
  {
    WriteAllFrame(db, Collect(db.sends.outbox, SortedKeys(db.sends.outbox.Keys), rewrite, now), now, k);
  }

  lemma UpgradeFrame(db: DB, now: Time, k: Key)
    ensures var r := Step(db, UpgradeTxn(now));
      && r == db.(log := r.log, sends := db.sends.(outbox := r.sends.outbox), pages := r.pages)
      && (k.kind != OutboxKind && k.kind != HistoryKind ==> SameAt(db.log, r.log, k))
      && r.log.index == db.log.index
  {
    var owned := RewriteOutbox(db, AssignEpoch(db.own.epoch), now);
    if UpgradeSessionMetadata(db, now).Done? && db.own.epoch != 0 {
      RewriteFrame(db, AssignEpoch(db.own.epoch), now, k);
      AssignJobsFrame(owned.db, Jobs(owned.db, SortedKeys(KindIds(owned.db.log.latest, HistoryKind))), now, k);
    }
  }

  lemma SavePairedFrame(db: DB, session: Bytes, newPhone: bool, now: Time, k: Key)
    requires SavePairedSession(db, session, newPhone, now).Done?
    ensures var r := SavePairedSession(db, session, newPhone, now).db;
      && r.seen == db.seen && r.sends == db.sends.(outbox := r.sends.outbox)
      && r.own == (if newPhone then NewEpoch(db).own else db.own)
      && r.newest == (if newPhone then map[] else db.newest)
      && r.private == (if newPhone then map[] else db.private)
      && r.log.index == db.log.index
      && r.meta == (if newPhone then PairedSession(db, session).meta.(contacts := None) else PairedSession(db, session).meta)
      && (k.kind != OutboxKind && k.kind != HistoryKind ==> SameAt(db.log, r.log, k))
  {
    var saved := PairedSession(db, session);
    RewriteFrame(saved, CancelForPairing, now, k);
    var canceled := RewriteOutbox(saved, CancelForPairing, now).db;
    if newPhone {
      forall x: Key | Owned(x.kind) ensures SameAt(db.log, canceled.log, x) { RewriteFrame(saved, CancelForPairing, now, x); }
      SameCounts(db, canceled);
      var begun := NewEpoch(canceled);
      PauseJobsFrame(begun, Jobs(begun, SortedKeys(KindIds(begun.log.latest, HistoryKind))), now, k);
    }
  }

  lemma SameCounts(a: DB, b: DB)
    requires forall x: Key :: Owned(x.kind) ==> SameAt(a.log, b.log, x)
    ensures KindIds(a.log.latest, ConversationKind) == KindIds(b.log.latest, ConversationKind)
    ensures KindIds(a.log.latest, MessageKind) == KindIds(b.log.latest, MessageKind)
  {
    forall id ensures (id in KindIds(a.log.latest, ConversationKind) <==> id in KindIds(b.log.latest, ConversationKind))
                   && (id in KindIds(a.log.latest, MessageKind) <==> id in KindIds(b.log.latest, MessageKind)) {
      KindIdMember(a.log.latest, ConversationKind, id);
      KindIdMember(b.log.latest, ConversationKind, id);
      KindIdMember(a.log.latest, MessageKind, id);
      KindIdMember(b.log.latest, MessageKind, id);
      assert SameAt(a.log, b.log, Key(ConversationKind, id)) && SameAt(a.log, b.log, Key(MessageKind, id));
    }
  }

  lemma KindIdMember(latest: map<Key, Data>, kind: Kind, id: string)
    ensures id in KindIds(latest, kind) <==> Key(kind, id) in latest
  {
    if Key(kind, id) in latest { assert Key(kind, id) in latest.Keys; }
  }

  /** Transactions that neither apply a record nor touch a conversation row. */
  ghost predicate Bookkeeping(t: Txn)
  {
    !t.ApplyTxn? && !t.ReadTxn? && !t.FinishConversationTxn?
  }

  ghost predicate Untouched(db: DB, t: Txn, r: DB, k: Key)
  {
    && SameAt(db.log, r.log, k) && r.log.index == db.log.index
    && (!t.AdoptTxn? && !t.SavePairedTxn? ==> r.own == db.own)
    && (!t.SavePairedTxn? ==> r.newest == db.newest)
  }

  lemma RewritingFrame(db: DB, t: Txn, k: Key)
    requires k.kind != OutboxKind && k.kind != HistoryKind
    requires t.RecoverSendingTxn? || t.UpgradeTxn? || t.BeginPairingTxn? || t.SavePairedTxn?
    ensures Untouched(db, t, Step(db, t), k)
  {
    match t
    case RecoverSendingTxn(now) =>
      var known := Relinked(db);
      if RecoverSending(db, now).Done? { RewriteFrame(known, MarkAmbiguous, now, k); }
    case UpgradeTxn(now) => UpgradeFrame(db, now, k);
    case BeginPairingTxn(started, expires, now) =>
      if BeginPairingAttempt(db, started, expires, now).Done? { RewriteFrame(db, CancelForPairing, now, k); }
    case SavePairedTxn(session, newPhone, now) =>
      if SavePairedSession(db, session, newPhone, now).Done? { SavePairedFrame(db, session, newPhone, now, k); }
  }

  lemma WritingFrame(db: DB, t: Txn, k: Key)
    requires k.kind != OutboxKind && k.kind != HistoryKind
    requires t.QueueHistoryTxn? || t.PauseHistoryTxn? || t.CheckpointTxn? || t.FailHistoryTxn?
          || t.EnqueueTxn? || t.ClaimTxn? || t.FinishTxn? || t.RejectTxn? || t.CancelTxn?
    ensures Untouched(db, t, Step(db, t), k)
  {
    if t.QueueHistoryTxn? || t.PauseHistoryTxn? || t.CheckpointTxn? || t.FailHistoryTxn? {
      HistoryFrame(db, t, k);
    } else {
      OutboxFrame(db, t, k);
    }
  }

  /** Bookkeeping leaves every conversation and message, and the message index, alone. */
  lemma StepFrame(db: DB, t: Txn, k: Key)
    requires Bookkeeping(t) && k.kind != OutboxKind && k.kind != HistoryKind
    ensures Untouched(db, t, Step(db, t), k)
  {
    if t.RecoverSendingTxn? || t.UpgradeTxn? || t.BeginPairingTxn? || t.SavePairedTxn? {
      RewritingFrame(db, t, k);
    } else if !t.OpenTxn? && !t.ClearAttemptTxn? && !t.RecoverAttemptTxn? && !t.AdoptTxn? && !t.SaveSessionTxn? && !t.PutPrivateTxn? {
      WritingFrame(db, t, k);
    }
  }

  /** Transactions on the session, the pairing marker or the re-pairing budget. */
  ghost predicate SessionTxn(t: Txn)
  {
    t.SavePairedTxn? || t.SaveSessionTxn? || t.BeginPairingTxn? || t.ClearAttemptTxn? || t.RecoverAttemptTxn?
  }

  /** No other transaction touches them. */
  lemma MetaStays(db: DB, t: Txn)
    requires !SessionTxn(t)
    ensures Step(db, t).meta == db.meta
  {
    var k := Key(UploadKind, "");
    match t
    case ApplyTxn(e, private, watermark, now) =>
      if Apply(db, e, private, watermark, now).Done? {
        var applied := if Stale(db, e.key, watermark) then Done(db, false) else ApplyFresh(db, e, private, now);
        if !Stale(db, e.key, watermark) { FreshFrame(db, e, private, now, k); }
        if e.key.kind.MessageKind? { ConfirmFrame(applied.db, e.data.message, now, k); }
      }
    case ReadTxn(id, through, now) =>
      if ReadConversation(db, id, through, now).Done? { RowFrame(db, id, ReadThrough(through), now, k); }
    case FinishConversationTxn(id, e, private, mark, now) =>
      if FinishConversation(db, id, e, private, mark, now).Done? { FinishConversationFrame(db, id, e, private, mark, now, k); }
    case UpgradeTxn(now) => UpgradeFrame(db, now, k);
    case RecoverSendingTxn(now) => RecoverKeepsMeta(db, now);
    case QueueHistoryTxn(_, _, _) => HistoryFrame(db, t, k);
    case PauseHistoryTxn(_, _) => HistoryFrame(db, t, k);
    case CheckpointTxn(_, _, _, _, _, _, _) => HistoryFrame(db, t, k);
    case FailHistoryTxn(_, _, _, _) => HistoryFrame(db, t, k);
    case EnqueueTxn(_, _, _, _) => OutboxFrame(db, t, k);
    case ClaimTxn(_, _) => OutboxFrame(db, t, k);
    case FinishTxn(_, _, _, _) => OutboxFrame(db, t, k);
    case RejectTxn(_, _, _) => OutboxFrame(db, t, k);
    case CancelTxn(_, _) => OutboxFrame(db, t, k);
    case _ =>
  }

  lemma RecoverKeepsMeta(db: DB, now: Time)
    ensures Commit(db, RecoverSending(db, now)).meta == db.meta
  {
    if RecoverSending(db, now).Done? { RewriteFrame(Relinked(db), MarkAmbiguous, now, Key(UploadKind, "")); }
  }
}
