/** The life of an outbox record over whole runs: claimed at most once, confirmed by its own echo, never undone. */
module Sending {
  import opened Records
  import opened Buckets
  import opened StoreSpec
  import opened Frames

  /** One transaction's effect on a record's state. */
  predicate Next(a: OutboxState, b: OutboxState)
  {
    || a == b
    || (a.Queued? && (b.Sending? || b.Canceled? || b.Rejected?))
    || (a.Sending? && (b.Accepted? || b.Rejected? || b.Ambiguous? || b.Confirmed?))
    || ((a.Accepted? || a.Rejected? || a.Ambiguous?) && b.Confirmed?)
  }

  /** Everything a run can do: queued is never entered again, canceled and confirmed are final. */
  predicate Reaches(a: OutboxState, b: OutboxState)
  {
    || a == b
    || a.Queued?
    || (a.Sending? && !b.Queued? && !b.Canceled?)
    || ((a.Accepted? || a.Rejected? || a.Ambiguous?) && b.Confirmed?)
  }

  /** The request a record was created for never changes; only an unowned record's session does. */
  predicate SameRequest(a: Outbox, b: Outbox, epoch: nat)
  {
    && a.id == b.id && a.request == b.request && a.transactionID == b.transactionID
    && a.created == b.created && a.schema == b.schema
    && (a.sessionEpoch == b.sessionEpoch || (a.sessionEpoch == 0 && b.sessionEpoch == epoch))
  }

  predicate EndsSending(t: Txn)
  {
    t.FinishTxn? || t.FinishConversationTxn? || t.RecoverSendingTxn?
  }

  /** Only a claim starts sending, only the sender or a restart ends it, and only the record's own echo confirms it. */
  ghost predicate Justified(db: DB, t: Txn, a: Outbox, b: Outbox)
  {
    && (a.state.Sending? && !b.state.Sending? && !b.state.Confirmed? ==> EndsSending(t))
    && (b.state.Sending? && !a.state.Sending? ==> t.ClaimTxn? && t.id == a.id)
    && (b.state.Confirmed? && !a.state.Confirmed? ==>
          t.ApplyTxn? && t.e.data.MessageData? && Confirms(db, a, t.e.data.message)
          && t.e.data.message.transactionID in db.sends.outboxTxn
          && db.sends.outboxTxn[t.e.data.message.transactionID] == a.id
          && b.messageID == t.e.data.message.id)
  }

  /** What one transaction does to record id. */
  ghost predicate SendMoves(db: DB, t: Txn, next: DB, id: string)
  {
    if id in db.sends.outbox then
      && id in next.sends.outbox
      && Next(db.sends.outbox[id].state, next.sends.outbox[id].state)
      && SameRequest(db.sends.outbox[id], next.sends.outbox[id], db.own.epoch)
      && Justified(db, t, db.sends.outbox[id], next.sends.outbox[id])
    else
      id in next.sends.outbox ==>
        t.EnqueueTxn? && t.id == id
        && next.sends.outbox[id] == Outbox("", db.own.epoch, SCHEMA, id, t.request, t.transactionID, Queued, "", "", t.now, t.now)
  }

  // ---- bulk rewrites ----

  function RewrittenOr(rewrite: Rewrite, o: Outbox, now: Time): Outbox
  {
    if Rewritten(rewrite, o, now).Some? then Rewritten(rewrite, o, now).value else o
  }

  lemma CollectFirst(base: map<string, Outbox>, ids: seq<string>, rewrite: Rewrite, now: Time)
    requires ids != [] && ids[0] in base
    ensures var rest := Collect(base, ids[1..], rewrite, now);
      Collect(base, ids, rewrite, now) ==
        if Rewritten(rewrite, base[ids[0]], now).Some? then [RewrittenOr(rewrite, base[ids[0]], now)] + rest else rest
  {
    assert [] + Collect(base, ids[1..], rewrite, now) == Collect(base, ids[1..], rewrite, now);
  }

  /** latest["outbox:"+id] is the outbox record. */
  ghost predicate Mirrored(db: DB, id: string)
  {
    var key := Key(OutboxKind, id);
    && (id in db.sends.outbox <==> key in db.log.latest)
    && (id in db.sends.outbox ==> db.log.latest[key] == OutboxData(db.sends.outbox[id]))
  }

  /** Writing the collected records rewrites exactly the listed ones that needed it. */
  lemma {:induction false} RewriteAt(base: map<string, Outbox>, db: DB, ids: seq<string>, rewrite: Rewrite, now: Time, id: string)
    requires forall x :: x in base ==> base[x].id == x
    requires forall x :: x in ids ==> x in base
    requires db.sends.outbox.Keys == base.Keys
    requires WriteAll(db, Collect(base, ids, rewrite, now), now).Done?
    ensures var r := WriteAll(db, Collect(base, ids, rewrite, now), now).db;
      && r.sends.outbox.Keys == base.Keys && r.sends.outboxTxn == db.sends.outboxTxn && (Mirrored(db, id) ==> Mirrored(r, id))
      && (id in base ==> r.sends.outbox[id] == if id in ids && Rewritten(rewrite, base[id], now).Some?
                               then RewrittenOr(rewrite, base[id], now) else db.sends.outbox[id])
    decreases |ids|
  {
    if ids != [] {
      CollectFirst(base, ids, rewrite, now);
      var o := RewrittenOr(rewrite, base[ids[0]], now);
      var next := if Rewritten(rewrite, base[ids[0]], now).Some? then WriteOutbox(db, o, now).db else db;
      if Rewritten(rewrite, base[ids[0]], now).Some? {
        WriteFrame(db, o, now, Key(OutboxKind, id));
        assert Collect(base, ids, rewrite, now)[1..] == Collect(base, ids[1..], rewrite, now);
      }
      RewriteAt(base, next, ids[1..], rewrite, now, id);
    }
  }

  /** A bulk rewrite applies to every record of the outbox. */
  lemma RewriteEvery(db: DB, rewrite: Rewrite, now: Time, id: string)
    requires Keyed(db) && RewriteOutbox(db, rewrite, now).Done?
    ensures var r := RewriteOutbox(db, rewrite, now).db;
      r.sends.outbox.Keys == db.sends.outbox.Keys && r.sends.outboxTxn == db.sends.outboxTxn && (Mirrored(db, id) ==> Mirrored(r, id))
      && (id in db.sends.outbox ==> r.sends.outbox[id] == RewrittenOr(rewrite, db.sends.outbox[id], now))
  {
    RewriteAt(db.sends.outbox, db, SortedKeys(db.sends.outbox.Keys), rewrite, now, id);
  }

  // ---- one transaction ----

  /** Transactions that leave the outbox alone. */
  ghost predicate LeavesOutbox(t: Txn)
  {
    || t.OpenTxn? || t.ReadTxn? || t.ClearAttemptTxn? || t.RecoverAttemptTxn? || t.AdoptTxn? || t.SaveSessionTxn? || t.PutPrivateTxn?
    || t.QueueHistoryTxn? || t.PauseHistoryTxn? || t.CheckpointTxn? || t.FailHistoryTxn?
  }

  lemma LeavesOutboxFrame(db: DB, t: Txn, id: string)
    requires LeavesOutbox(t)
    ensures Step(db, t).sends == db.sends && SameAt(db.log, Step(db, t).log, Key(OutboxKind, id))
  {
    var k := Key(OutboxKind, id);
    match t
    case ReadTxn(c, through, now) =>
      if ReadConversation(db, c, through, now).Done? { RowFrame(db, c, ReadThrough(through), now, k); }
    case QueueHistoryTxn(_, _, _) => HistoryFrame(db, t, k);
    case PauseHistoryTxn(_, _) => HistoryFrame(db, t, k);
    case CheckpointTxn(_, _, _, _, _, _, _) => HistoryFrame(db, t, k);
    case FailHistoryTxn(_, _, _, _) => HistoryFrame(db, t, k);
    case _ =>
  }

  lemma ApplyWrites(db: DB, e: Incoming, private: map<string, Bytes>, watermark: Option<nat>, now: Time, id: string)
    requires Keyed(db) && Apply(db, e, private, watermark, now).Done?
    ensures var r := Apply(db, e, private, watermark, now).db;
      && r.sends.outboxTxn == db.sends.outboxTxn
      && (r.sends.outbox == db.sends.outbox || ConfirmedBy(db, r, e))
      && (e.key.kind != OutboxKind && Mirrored(db, id) ==> Mirrored(r, id))
  {
    var k := Key(OutboxKind, id);
    var applied := if Stale(db, e.key, watermark) then Done(db, false) else ApplyFresh(db, e, private, now);
    if !Stale(db, e.key, watermark) { FreshFrame(db, e, private, now, k); }
    if e.key.kind.MessageKind? { ConfirmWrites(applied.db, e.data.message, now, id); }
  }

  ghost predicate ConfirmedBy(a: DB, b: DB, e: Incoming)
  {
    && e.data.MessageData?
    && var m := e.data.message;
    && m.transactionID in a.sends.outboxTxn && a.sends.outboxTxn[m.transactionID] in a.sends.outbox
    && var o := a.sends.outbox[a.sends.outboxTxn[m.transactionID]];
    && Confirms(a, o, m)
    && exists now :: b.sends.outbox == a.sends.outbox[o.id := ConfirmedRecord(o, m, now)]
  }

  function ConfirmedRecord(o: Outbox, m: Message, now: Time): Outbox
  {
    o.(state := Confirmed, messageID := m.id, detail := OBSERVED, updated := now)
  }

  lemma ConfirmWrites(db: DB, m: Message, now: Time, id: string)
    requires Keyed(db) && ConfirmSendTx(db, m, now).Done?
    ensures var r := ConfirmSendTx(db, m, now);
      && r.db.sends.outboxTxn == db.sends.outboxTxn
      && (if r.value
          then m.transactionID in db.sends.outboxTxn && db.sends.outboxTxn[m.transactionID] in db.sends.outbox
            && var o := db.sends.outbox[db.sends.outboxTxn[m.transactionID]];
            Confirms(db, o, m) && r.db.sends.outbox == db.sends.outbox[o.id := ConfirmedRecord(o, m, now)]
          else r.db == db)
      && (Mirrored(db, id) ==> Mirrored(r.db, id))
  {
    var r := ConfirmSendTx(db, m, now);
    if r.value {
      var o := db.sends.outbox[db.sends.outboxTxn[m.transactionID]];
      WriteFrame(db, ConfirmedRecord(o, m, now), now, Key(OutboxKind, id));
    }
  }

  /** Applied snapshots are conversations and messages; the bridge applies nothing else. */
  ghost predicate AppliesOwned(t: Txn)
  {
    t.ApplyTxn? ==> Owned(t.e.key.kind)
  }

  /** One record's move, and its log entry following it. */
  ghost predicate Kept(db: DB, t: Txn, next: DB, id: string)
  {
    && SendMoves(db, t, next, id) && (AppliesOwned(t) && Mirrored(db, id) ==> Mirrored(next, id))
    && (t.RecoverSendingTxn? || t.EnqueueTxn? || next.sends.outboxTxn == db.sends.outboxTxn)
  }

  lemma ApplyKept(db: DB, t: Txn, next: DB, id: string)
    requires Keyed(db) && t.ApplyTxn? && next == Commit(db, Apply(db, t.e, t.private, t.watermark, t.now))
    ensures Kept(db, t, next, id)
  {
    if Apply(db, t.e, t.private, t.watermark, t.now).Done? {
      ApplyWrites(db, t.e, t.private, t.watermark, t.now, id);
    }
  }

  lemma FinishConversationKept(db: DB, t: Txn, next: DB, id: string)
    requires Keyed(db) && t.FinishConversationTxn?
    requires next == Commit(db, FinishConversation(db, t.id, t.e, t.private, t.mark, t.now))
    ensures Kept(db, t, next, id)
  {
    if FinishConversation(db, t.id, t.e, t.private, t.mark, t.now).Done? {
      FinishConversationFrame(db, t.id, t.e, t.private, t.mark, t.now, Key(OutboxKind, id));
    }
  }

  lemma EnqueueKept(db: DB, t: Txn, next: DB, id: string)
    requires Keyed(db) && t.EnqueueTxn? && next == Commit(db, Enqueue(db, t.id, t.transactionID, t.request, t.now))
    ensures Kept(db, t, next, id)
  {
    if t.id !in db.sends.outbox && Enqueue(db, t.id, t.transactionID, t.request, t.now).Done? {
      WriteFrame(db.(sends := db.sends.(outboxTxn := db.sends.outboxTxn[t.transactionID := t.id])),
                 Outbox("", db.own.epoch, SCHEMA, t.id, t.request, t.transactionID, Queued, "", "", t.now, t.now), t.now,
                 Key(OutboxKind, id));
    }
  }

  lemma WriteKept(db: DB, t: Txn, o: Outbox, now: Time, id: string)
    requires Keyed(db) && o.id in db.sends.outbox && WriteOutbox(db, o, now).Done?
    requires Next(db.sends.outbox[o.id].state, o.state) && SameRequest(db.sends.outbox[o.id], o, db.own.epoch)
    requires Justified(db, t, db.sends.outbox[o.id], o)
    ensures Kept(db, t, WriteOutbox(db, o, now).db, id)
  {
    WriteFrame(db, o, now, Key(OutboxKind, id));
  }

  lemma ClaimKept(db: DB, t: Txn, next: DB, id: string)
    requires Keyed(db) && t.ClaimTxn? && next == Commit(db, ClaimQueued(db, t.id, t.now))
    ensures Kept(db, t, next, id)
  {
    if ClaimQueued(db, t.id, t.now).Done? {
      WriteKept(db, t, db.sends.outbox[t.id].(state := Sending, updated := t.now), t.now, id);
    }
  }

  lemma FinishKept(db: DB, t: Txn, next: DB, id: string)
    requires Keyed(db) && t.FinishTxn? && next == Commit(db, Finish(db, t.id, t.state, t.detail, t.now))
    ensures Kept(db, t, next, id)
  {
    if Finish(db, t.id, t.state, t.detail, t.now).Done? && db.sends.outbox[t.id].state.Sending? {
      WriteKept(db, t, db.sends.outbox[t.id].(state := t.state, detail := t.detail, updated := t.now), t.now, id);
    }
  }

  lemma RejectKept(db: DB, t: Txn, next: DB, id: string)
    requires Keyed(db) && t.RejectTxn? && next == Commit(db, RejectQueued(db, t.id, t.detail, t.now))
    ensures Kept(db, t, next, id)
  {
    if RejectQueued(db, t.id, t.detail, t.now).Done? {
      WriteKept(db, t, db.sends.outbox[t.id].(state := Rejected, detail := t.detail, updated := t.now), t.now, id);
    }
  }

  lemma CancelKept(db: DB, t: Txn, next: DB, id: string)
    requires Keyed(db) && t.CancelTxn? && next == Commit(db, CancelQueued(db, t.id, t.now))
    ensures Kept(db, t, next, id)
  {
    if CancelQueued(db, t.id, t.now).Done? && db.sends.outbox[t.id].state.Queued? {
      WriteKept(db, t, db.sends.outbox[t.id].(state := Canceled, updated := t.now), t.now, id);
    }
  }

  /** The four transactions that rewrite the outbox in bulk. */
  ghost predicate Bulk(t: Txn)
  {
    t.RecoverSendingTxn? || t.UpgradeTxn? || t.BeginPairingTxn? || t.SavePairedTxn?
  }

  function BulkRewrite(db: DB, t: Txn): Rewrite
  {
    if t.RecoverSendingTxn? then MarkAmbiguous else if t.UpgradeTxn? then AssignEpoch(db.own.epoch) else CancelForPairing
  }

  /** A bulk transaction commits and rewrites every record of the outbox, or changes nothing. */
  ghost predicate Rewrites(db: DB, next: DB, rewrite: Rewrite, now: Time, id: string)
  {
    && next.sends.outbox.Keys == db.sends.outbox.Keys
    && (rewrite == MarkAmbiguous || next.sends.outboxTxn == db.sends.outboxTxn)
    && (Mirrored(db, id) ==> Mirrored(next, id))
    && (next == db || (id in db.sends.outbox ==> next.sends.outbox[id] == RewrittenOr(rewrite, db.sends.outbox[id], now)))
  }

  lemma RecoverRewrites(db: DB, now: Time, id: string)
    requires Keyed(db)
    ensures Rewrites(db, Commit(db, RecoverSending(db, now)), MarkAmbiguous, now, id)
  {
    var known := Relinked(db);
    if RecoverSending(db, now).Done? { RewriteEvery(known, MarkAmbiguous, now, id); }
  }

  lemma UpgradeRewrites(db: DB, now: Time, id: string)
    requires Keyed(db)
    ensures Rewrites(db, Commit(db, UpgradeSessionMetadata(db, now)), AssignEpoch(db.own.epoch), now, id)
  {
    if UpgradeSessionMetadata(db, now).Done? && db.own.epoch != 0 {
      RewriteEvery(db, AssignEpoch(db.own.epoch), now, id);
      var owned := RewriteOutbox(db, AssignEpoch(db.own.epoch), now).db;
      AssignJobsFrame(owned, Jobs(owned, SortedKeys(KindIds(owned.log.latest, HistoryKind))), now, Key(OutboxKind, id));
    }
  }

  lemma SavePairedRewrites(db: DB, session: Bytes, newPhone: bool, now: Time, id: string)
    requires Keyed(db)
    ensures Rewrites(db, Commit(db, SavePairedSession(db, session, newPhone, now)), CancelForPairing, now, id)
  {
    if SavePairedSession(db, session, newPhone, now).Done? {
      RewriteEvery(PairedSession(db, session), CancelForPairing, now, id);
      var canceled := RewriteOutbox(PairedSession(db, session), CancelForPairing, now).db;
      if newPhone {
        var begun := NewEpoch(canceled);
        PauseJobsFrame(begun, Jobs(begun, SortedKeys(KindIds(begun.log.latest, HistoryKind))), now, Key(OutboxKind, id));
      }
    }
  }

  lemma BeginRewrites(db: DB, started: Time, expires: Time, now: Time, id: string)
    requires Keyed(db)
    ensures Rewrites(db, Commit(db, BeginPairingAttempt(db, started, expires, now)), CancelForPairing, now, id)
  {
    if BeginPairingAttempt(db, started, expires, now).Done? { RewriteEvery(db, CancelForPairing, now, id); }
  }

  lemma BulkRewrites(db: DB, t: Txn, id: string)
    requires Keyed(db) && Bulk(t)
    ensures Rewrites(db, Step(db, t), BulkRewrite(db, t), t.now, id)
  {
    match t
    case RecoverSendingTxn(now) => RecoverRewrites(db, now, id);
    case UpgradeTxn(now) => UpgradeRewrites(db, now, id);
    case BeginPairingTxn(started, expires, now) => BeginRewrites(db, started, expires, now, id);
    case SavePairedTxn(session, newPhone, now) => SavePairedRewrites(db, session, newPhone, now, id);
  }

  lemma BulkKept(db: DB, t: Txn, next: DB, id: string)
    requires Keyed(db) && Bulk(t) && Rewrites(db, next, BulkRewrite(db, t), t.now, id)
    ensures Kept(db, t, next, id)
  {
  }

  lemma UnrelatedKept(db: DB, t: Txn, next: DB, id: string)
    requires LeavesOutbox(t) && next.sends == db.sends && SameAt(db.log, next.log, Key(OutboxKind, id))
    ensures Kept(db, t, next, id)
  {
  }

  lemma StepKept(db: DB, t: Txn, id: string)
    requires Keyed(db)
    ensures Kept(db, t, Step(db, t), id)
  {
    var next := Step(db, t);
    if t.ApplyTxn? { ApplyKept(db, t, next, id); }
    else if t.FinishConversationTxn? { FinishConversationKept(db, t, next, id); }
    else if t.EnqueueTxn? { EnqueueKept(db, t, next, id); }
    else if t.ClaimTxn? { ClaimKept(db, t, next, id); }
    else if t.FinishTxn? { FinishKept(db, t, next, id); }
    else if t.RejectTxn? { RejectKept(db, t, next, id); }
    else if t.CancelTxn? { CancelKept(db, t, next, id); }
    else if Bulk(t) { BulkRewrites(db, t, id); BulkKept(db, t, next, id); }
    else { LeavesOutboxFrame(db, t, id); UnrelatedKept(db, t, next, id); }
  }

  lemma StepKeyed(db: DB, t: Txn)
    requires Keyed(db)
    ensures Keyed(Step(db, t))
  {
    var next := Step(db, t);
    forall id | id in next.sends.outbox ensures next.sends.outbox[id].id == id { StepKept(db, t, id); }
  }

  // ---- whole runs ----

  lemma {:induction false} RunKeyed(db: DB, ts: seq<Txn>)
    requires Keyed(db)
    ensures Keyed(Run(db, ts))
    decreases |ts|
  {
    if ts != [] {
      StepKeyed(db, ts[0]);
      RunKeyed(Step(db, ts[0]), ts[1..]);
    }
  }

  /** From any point of any run a record keeps its request, and its state only moves forward. */
  lemma {:induction false} RunReaches(db: DB, ts: seq<Txn>, id: string)
    requires Keyed(db) && id in db.sends.outbox
    ensures var end := Run(db, ts).sends.outbox;
      && id in end && Reaches(db.sends.outbox[id].state, end[id].state)
      && end[id].request == db.sends.outbox[id].request && end[id].created == db.sends.outbox[id].created && end[id].transactionID == db.sends.outbox[id].transactionID
      && (db.sends.outbox[id].sessionEpoch != 0 ==> end[id].sessionEpoch == db.sends.outbox[id].sessionEpoch)
    decreases |ts|
  {
    if ts != [] {
      StepKept(db, ts[0], id);
      StepKeyed(db, ts[0]);
      RunReaches(Step(db, ts[0]), ts[1..], id);
    }
  }

  /** Waiting in the queue. */
  predicate Held(db: DB, id: string)
  {
    id in db.sends.outbox && db.sends.outbox[id].state.Queued?
  }

  predicate IsSending(outbox: map<string, Outbox>, id: string)
  {
    id in outbox && outbox[id].state.Sending?
  }

  /** How often record id becomes `sending` during a run. */
  ghost function Dispatches(db: DB, ts: seq<Txn>, id: string): nat
    decreases |ts|
  {
    if ts == [] then 0
    else
      var next := Step(db, ts[0]);
      Dispatches(next, ts[1..], id)
        + if !IsSending(db.sends.outbox, id) && IsSending(next.sends.outbox, id) then 1 else 0
  }

  /** How many claims of record id succeed during a run: each is one permission to call the provider. */
  ghost function Claims(db: DB, ts: seq<Txn>, id: string): nat
    decreases |ts|
  {
    if ts == [] then 0
    else
      Claims(Step(db, ts[0]), ts[1..], id)
        + if ts[0].ClaimTxn? && ts[0].id == id && ClaimQueued(db, id, ts[0].now).Done? then 1 else 0
  }

  /** A claim succeeds exactly when it makes the record `sending`, durably and before it returns. */
  lemma ClaimIsDispatch(db: DB, t: Txn, id: string)
    requires Keyed(db)
    ensures t.ClaimTxn? && t.id == id && ClaimQueued(db, id, t.now).Done?
       <==> !IsSending(db.sends.outbox, id) && IsSending(Step(db, t).sends.outbox, id)
  {
    StepKept(db, t, id);
  }

  /** At most once: over any run, with crashes anywhere, a record is claimed for sending at most one time, and never after it left the queue. */
  lemma {:induction false} AtMostOnce(db: DB, ts: seq<Txn>, id: string)
    requires Keyed(db)
    ensures Claims(db, ts, id) == Dispatches(db, ts, id)
    ensures Claims(db, ts, id) <= if id in db.sends.outbox && !db.sends.outbox[id].state.Queued? then 0 else 1
    decreases |ts|
  {
    if ts != [] {
      StepKept(db, ts[0], id);
      StepKeyed(db, ts[0]);
      ClaimIsDispatch(db, ts[0], id);
      AtMostOnce(Step(db, ts[0]), ts[1..], id);
    }
  }

  /** However late, the result of a send cannot undo an observed confirmation, and no bulk rewrite touches it. */
  lemma ConfirmationStands(db: DB, ts: seq<Txn>, id: string, state: OutboxState, detail: string, now: Time)
    requires Keyed(db) && id in db.sends.outbox && db.sends.outbox[id].state.Confirmed?
    ensures var later := Run(db, ts);
      id in later.sends.outbox && later.sends.outbox[id].state.Confirmed?
      && Step(later, FinishTxn(id, state, detail, now)) == later
  {
    RunReaches(db, ts, id);
  }

  /** latest["outbox:"+id] equals the outbox record after every legal run. */
  lemma {:induction false} RunMirrored(db: DB, ts: seq<Txn>, id: string)
    requires Keyed(db) && Mirrored(db, id)
    requires forall t :: t in ts ==> AppliesOwned(t)
    ensures Mirrored(Run(db, ts), id)
    decreases |ts|
  {
    if ts != [] {
      assert AppliesOwned(ts[0]);
      StepKept(db, ts[0], id);
      StepKeyed(db, ts[0]);
      RunMirrored(Step(db, ts[0]), ts[1..], id);
    }
  }

  /** Beginning or committing a pairing leaves nothing queued. */
  lemma PairingEmptiesQueue(db: DB, t: Txn, id: string)
    requires Keyed(db) && Step(db, t) != db
    requires t.BeginPairingTxn? || t.SavePairedTxn?
    ensures id in Step(db, t).sends.outbox ==> !Step(db, t).sends.outbox[id].state.Queued?
  {
    BulkRewrites(db, t, id);
  }

  // ---- transaction ids ----

  /** Each known transaction id names an outbox record created for it. */
  ghost predicate TransactionKnown(db: DB, tid: string)
  {
    tid in db.sends.outboxTxn ==>
      var id := db.sends.outboxTxn[tid]; id in db.sends.outbox && db.sends.outbox[id].transactionID == tid
  }

  lemma {:induction false} TransactionsLink(outbox: map<string, Outbox>, ids: seq<string>, known: map<string, string>, tid: string)
    requires forall id :: id in ids ==> id in outbox
    requires forall id :: id in outbox ==> outbox[id].id == id
    requires tid in known ==> known[tid] in outbox && outbox[known[tid]].transactionID == tid
    ensures var all := OutboxTransactions(outbox, ids, known);
      tid in all ==> all[tid] in outbox && outbox[all[tid]].transactionID == tid
  {
    if ids != [] {
      TransactionsLink(outbox, ids[1..], known[outbox[ids[0]].transactionID := outbox[ids[0]].id], tid);
    }
  }

  lemma RecoverLinks(db: DB, now: Time, tid: string)
    requires Keyed(db) && TransactionKnown(db, tid) && RecoverSending(db, now).Done?
    ensures TransactionKnown(RecoverSending(db, now).db, tid)
  {
    var ids := SortedKeys(db.sends.outbox.Keys);
    TransactionsLink(db.sends.outbox, ids, db.sends.outboxTxn, tid);
    var known := Relinked(db);
    RewriteEvery(known, MarkAmbiguous, now, if tid in known.sends.outboxTxn then known.sends.outboxTxn[tid] else "");
  }

  /** Restarts rebuild the transaction index without losing or misdirecting an id. */
  lemma StepLinked(db: DB, t: Txn, tid: string)
    requires Keyed(db) && TransactionKnown(db, tid)
    ensures TransactionKnown(Step(db, t), tid)
  {
    if t.RecoverSendingTxn? {
      if RecoverSending(db, t.now).Done? { RecoverLinks(db, t.now, tid); }
    } else if !t.EnqueueTxn? {
      StepKept(db, t, if tid in db.sends.outboxTxn then db.sends.outboxTxn[tid] else "");
    }
  }

  lemma {:induction false} RunLinked(db: DB, ts: seq<Txn>, tid: string)
    requires Keyed(db) && TransactionKnown(db, tid)
    ensures TransactionKnown(Run(db, ts), tid)
    decreases |ts|
  {
    if ts != [] {
      StepLinked(db, ts[0], tid);
      StepKeyed(db, ts[0]);
      RunLinked(Step(db, ts[0]), ts[1..], tid);
    }
  }

  /** In every run from an empty file a record is confirmed only by an echo of its own transaction, conversation and session. */
  lemma ConfirmedByOwnEcho(ts: seq<Txn>, t: Txn, id: string)
    requires var db := Run(EMPTY, ts);
      && id in db.sends.outbox && !db.sends.outbox[id].state.Confirmed?
      && id in Step(db, t).sends.outbox && Step(db, t).sends.outbox[id].state.Confirmed?
    ensures var o := Run(EMPTY, ts).sends.outbox[id];
      && t.ApplyTxn? && t.e.data.MessageData? && t.e.data.message.transactionID == o.transactionID
      && t.e.data.message.conversationID == o.request.conversationID && Run(EMPTY, ts).own.epoch == o.sessionEpoch
      && Step(Run(EMPTY, ts), t).sends.outbox[id].messageID == t.e.data.message.id
  {
    var db := Run(EMPTY, ts);
    RunKeyed(EMPTY, ts);
    StepKept(db, t, id);
    RunLinked(EMPTY, ts, t.e.data.message.transactionID);
  }
}
