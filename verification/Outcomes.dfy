/** What every committed transaction makes of an outbox record, and what a record's state says about the run behind it. */
module Outcomes {
  import opened Records
  import opened Buckets
  import opened StoreSpec
  import opened Frames
  import opened Sending
  import opened Committed

  /** The applied message is the record's own: its transaction, its conversation, its session. */
  predicate Echoes(db: DB, t: Txn, o: Outbox)
  {
    && t.ApplyTxn? && t.e.key.kind.MessageKind? && t.e.data.MessageData?
    && var m := t.e.data.message;
    && m.id != "" && m.transactionID != ""
    && m.transactionID in db.sends.outboxTxn && db.sends.outboxTxn[m.transactionID] == o.id
    && OwnMessage(db, o, m)
  }

  predicate OwnMessage(db: DB, o: Outbox, m: Message)
  {
    && o.sessionEpoch == db.own.epoch && o.request.conversationID == m.conversationID
    && (o.request.kind == "" || o.request.kind == "message")
  }

  /** Handed to the provider at some time, and not yet seen to arrive. */
  predicate Dispatched(s: OutboxState)
  {
    s.Sending? || s.Accepted? || s.Rejected? || s.Ambiguous?
  }

  /** The record after a committed transaction, by what it was before. */
  ghost predicate Takes(db: DB, t: Txn, a: Outbox, b: Outbox)
  {
    match t
    case ClaimTxn(id, now) =>
      if id == a.id then a.state.Queued? && b == a.(state := OutboxState.Sending, updated := now) else b == a
    case RejectTxn(id, detail, now) =>
      if id == a.id then a.state.Queued? && b == a.(state := Rejected, detail := detail, updated := now) else b == a
    case CancelTxn(id, now) =>
      if id == a.id && !a.state.Canceled? then a.state.Queued? && b == a.(state := Canceled, updated := now) else b == a
    case FinishTxn(id, state, detail, now) =>
      if id == a.id && a.state.Sending? then b == a.(state := state, detail := detail, updated := now) else b == a
    case FinishConversationTxn(id, e, _, _, now) =>
      if id == a.id
      then a.state.Sending? && b == a.(state := Accepted, conversationID := e.key.id, detail := CONVERSATION_READY, updated := now)
      else b == a
    case RecoverSendingTxn(now) =>
      if a.state.Sending? then b == a.(state := Ambiguous, detail := STOPPED_DURING_SEND, updated := now) else b == a
    case BeginPairingTxn(_, _, now) => CanceledIfQueued(a, b, now)
    case SavePairedTxn(_, _, now) => CanceledIfQueued(a, b, now)
    case UpgradeTxn(_) => b == a.(sessionEpoch := if a.sessionEpoch == 0 then db.own.epoch else a.sessionEpoch)
    case ApplyTxn(e, _, _, now) =>
      if Echoes(db, t, a) && Dispatched(a.state)
      then b == a.(state := Confirmed, messageID := e.data.message.id, detail := OBSERVED, updated := now)
      else b == a
    case _ => b == a
  }

  predicate CanceledIfQueued(a: Outbox, b: Outbox, now: Time)
  {
    if a.state.Queued? then b == a.(state := Canceled, detail := PAIRING_CHANGED, updated := now) else b == a
  }

  // ---- one transaction ----

  lemma ApplyTakes(db: DB, t: Txn, id: string)
    requires Keyed(db) && id in db.sends.outbox && t.ApplyTxn? && Apply(db, t.e, t.private, t.watermark, t.now).Done?
    ensures var r := Apply(db, t.e, t.private, t.watermark, t.now).db;
      id in r.sends.outbox && Takes(db, t, db.sends.outbox[id], r.sends.outbox[id])
  {
    var k := Key(OutboxKind, id);
    var applied := if Stale(db, t.e.key, t.watermark) then Done(db, false) else ApplyFresh(db, t.e, t.private, t.now);
    if !Stale(db, t.e.key, t.watermark) { FreshFrame(db, t.e, t.private, t.now, k); }
    if t.e.key.kind.MessageKind? { ConfirmTakes(applied.db, t.e.data.message, t.now, id); }
  }

  lemma ConfirmTakes(db: DB, m: Message, now: Time, id: string)
    requires Keyed(db) && id in db.sends.outbox && ConfirmSendTx(db, m, now).Done?
    ensures var a, r := db.sends.outbox[id], ConfirmSendTx(db, m, now).db;
      && id in r.sends.outbox
      && r.sends.outbox[id] ==
           if m.id != "" && m.transactionID != "" && m.transactionID in db.sends.outboxTxn
              && db.sends.outboxTxn[m.transactionID] == id && OwnMessage(db, a, m) && Dispatched(a.state)
           then a.(state := Confirmed, messageID := m.id, detail := OBSERVED, updated := now) else a
  {
    ConfirmWrites(db, m, now, id);
  }

  lemma RecoveredTakes(db: DB, now: Time, id: string)
    requires Keyed(db) && id in db.sends.outbox && RecoverSending(db, now).Done?
    ensures var a, r := db.sends.outbox[id], RecoverSending(db, now).db;
      && id in r.sends.outbox
      && r.sends.outbox[id] == if a.state.Sending? then a.(state := Ambiguous, detail := STOPPED_DURING_SEND, updated := now) else a
  {
    RewriteEvery(Relinked(db), MarkAmbiguous, now, id);
  }

  lemma UpgradedTakes(db: DB, now: Time, id: string)
    requires Keyed(db) && id in db.sends.outbox && UpgradeSessionMetadata(db, now).Done?
    ensures var a, r := db.sends.outbox[id], UpgradeSessionMetadata(db, now).db;
      && id in r.sends.outbox
      && r.sends.outbox[id] == a.(sessionEpoch := if a.sessionEpoch == 0 then db.own.epoch else a.sessionEpoch)
  {
    if db.own.epoch != 0 {
      RewriteEvery(db, AssignEpoch(db.own.epoch), now, id);
      var owned := RewriteOutbox(db, AssignEpoch(db.own.epoch), now).db;
      AssignJobsFrame(owned, Jobs(owned, SortedKeys(KindIds(owned.log.latest, HistoryKind))), now, Key(OutboxKind, id));
    }
  }

  lemma BegunTakes(db: DB, started: Time, expires: Time, now: Time, id: string)
    requires Keyed(db) && id in db.sends.outbox && BeginPairingAttempt(db, started, expires, now).Done?
    ensures var r := BeginPairingAttempt(db, started, expires, now).db;
      id in r.sends.outbox && CanceledIfQueued(db.sends.outbox[id], r.sends.outbox[id], now)
  {
    RewriteEvery(db, CancelForPairing, now, id);
  }

  lemma SavedTakes(db: DB, session: Bytes, newPhone: bool, now: Time, id: string)
    requires Keyed(db) && id in db.sends.outbox && SavePairedSession(db, session, newPhone, now).Done?
    ensures var r := SavePairedSession(db, session, newPhone, now).db;
      id in r.sends.outbox && CanceledIfQueued(db.sends.outbox[id], r.sends.outbox[id], now)
  {
    RewriteEvery(PairedSession(db, session), CancelForPairing, now, id);
    if newPhone {
      var begun := NewEpoch(RewriteOutbox(PairedSession(db, session), CancelForPairing, now).db);
      PauseJobsFrame(begun, Jobs(begun, SortedKeys(KindIds(begun.log.latest, HistoryKind))), now, Key(OutboxKind, id));
    }
  }

  lemma BulkTakes(db: DB, t: Txn, id: string)
    requires Keyed(db) && id in db.sends.outbox && Bulk(t) && GoesThrough(db, t)
    ensures id in Step(db, t).sends.outbox && Takes(db, t, db.sends.outbox[id], Step(db, t).sends.outbox[id])
  {
    match t
    case RecoverSendingTxn(now) => RecoveredTakes(db, now, id);
    case UpgradeTxn(now) => UpgradedTakes(db, now, id);
    case BeginPairingTxn(started, expires, now) => BegunTakes(db, started, expires, now, id);
    case SavePairedTxn(session, newPhone, now) => SavedTakes(db, session, newPhone, now, id);
  }

  /** The record a transaction writes, if it writes one: by its id. */
  lemma WrittenTakes(db: DB, o: Outbox, now: Time, id: string)
    requires id in db.sends.outbox && WriteOutbox(db, o, now).Done?
    ensures var r := WriteOutbox(db, o, now).db;
      id in r.sends.outbox && r.sends.outbox[id] == if id == o.id then o else db.sends.outbox[id]
  {
    WriteFrame(db, o, now, Key(OutboxKind, id));
  }

  lemma EndTakes(db: DB, t: Txn, id: string)
    requires Keyed(db) && id in db.sends.outbox && (t.FinishTxn? || t.FinishConversationTxn?) && GoesThrough(db, t)
    ensures id in Step(db, t).sends.outbox && Takes(db, t, db.sends.outbox[id], Step(db, t).sends.outbox[id])
  {
    if t.FinishConversationTxn? {
      FinishConversationFrame(db, t.id, t.e, t.private, t.mark, t.now, Key(OutboxKind, id));
    } else if db.sends.outbox[t.id].state.Sending? {
      WrittenTakes(db, db.sends.outbox[t.id].(state := t.state, detail := t.detail, updated := t.now), t.now, id);
    }
  }

  lemma QueueTakes(db: DB, t: Txn, id: string)
    requires Keyed(db) && id in db.sends.outbox && (t.ClaimTxn? || t.RejectTxn? || t.CancelTxn?) && GoesThrough(db, t)
    ensures id in Step(db, t).sends.outbox && Takes(db, t, db.sends.outbox[id], Step(db, t).sends.outbox[id])
  {
    var o := db.sends.outbox[t.id];
    match t
    case ClaimTxn(_, now) => WrittenTakes(db, o.(state := OutboxState.Sending, updated := now), now, id);
    case RejectTxn(_, detail, now) => WrittenTakes(db, o.(state := Rejected, detail := detail, updated := now), now, id);
    case CancelTxn(_, now) => if !o.state.Canceled? { WrittenTakes(db, o.(state := Canceled, updated := now), now, id); }
  }

  lemma EnqueueKeepsOthers(db: DB, t: Txn, id: string)
    requires id in db.sends.outbox && t.EnqueueTxn? && GoesThrough(db, t)
    ensures id in Step(db, t).sends.outbox && Step(db, t).sends.outbox[id] == db.sends.outbox[id]
  {
    if t.id !in db.sends.outbox {
      var o := Outbox("", db.own.epoch, SCHEMA, t.id, t.request, t.transactionID, Queued, "", "", t.now, t.now);
      WrittenTakes(db.(sends := db.sends.(outboxTxn := db.sends.outboxTxn[t.transactionID := t.id])), o, t.now, id);
    }
  }

  /** Every committed transaction makes of every record exactly this; one that aborts makes nothing of it. */
  lemma StepTakes(db: DB, t: Txn, id: string)
    requires Keyed(db) && id in db.sends.outbox
    ensures id in Step(db, t).sends.outbox
    ensures var a, b := db.sends.outbox[id], Step(db, t).sends.outbox[id];
      if GoesThrough(db, t) then Takes(db, t, a, b) else b == a
  {
    if !GoesThrough(db, t) { AbortChangesNothing(db, t); }
    else if t.ApplyTxn? { ApplyTakes(db, t, id); }
    else if Bulk(t) { BulkTakes(db, t, id); }
    else if t.FinishTxn? || t.FinishConversationTxn? { EndTakes(db, t, id); }
    else if t.ClaimTxn? || t.RejectTxn? || t.CancelTxn? { QueueTakes(db, t, id); }
    else if t.EnqueueTxn? { EnqueueKeepsOthers(db, t, id); }
    else { LeavesOutboxFrame(db, t, id); }
  }

  /** A restart leaves no record `sending`: each that was is ambiguous, and says so; every other is as it was. */
  lemma RestartEndsSending(db: DB, now: Time, id: string)
    requires Keyed(db) && GoesThrough(db, RecoverSendingTxn(now)) && id in db.sends.outbox
    ensures var a := db.sends.outbox[id];
      var after := Step(db, RecoverSendingTxn(now)).sends.outbox;
      && id in after && !after[id].state.Sending?
      && (if a.state.Sending? then after[id].state.Ambiguous? && after[id].detail == STOPPED_DURING_SEND else after[id] == a)
  {
    StepTakes(db, RecoverSendingTxn(now), id);
  }

  // ---- when a transaction goes through ----

  /** No record has the empty id. */
  predicate NoBlankId(db: DB)
  {
    "" !in db.sends.outbox
  }

  lemma {:induction false} AllWritten(db: DB, records: seq<Outbox>, now: Time)
    requires forall o :: o in records ==> o.id != ""
    ensures WriteAll(db, records, now).Done?
    decreases |records|
  {
    if records != [] { AllWritten(WriteOutbox(db, records[0], now).db, records[1..], now); }
  }

  lemma {:induction false} CollectedIds(outbox: map<string, Outbox>, ids: seq<string>, rewrite: Rewrite, now: Time, o: Outbox)
    requires (forall id :: id in outbox ==> outbox[id].id == id) && o in Collect(outbox, ids, rewrite, now)
    ensures o.id in outbox
  {
    if ids != [] {
      if o in Collect(outbox, ids[1..], rewrite, now) { CollectedIds(outbox, ids[1..], rewrite, now, o); }
    }
  }

  lemma RewriteGoesThrough(db: DB, rewrite: Rewrite, now: Time)
    requires Keyed(db) && NoBlankId(db)
    ensures RewriteOutbox(db, rewrite, now).Done?
  {
    var records := Collect(db.sends.outbox, SortedKeys(db.sends.outbox.Keys), rewrite, now);
    forall o | o in records ensures o.id != "" { CollectedIds(db.sends.outbox, SortedKeys(db.sends.outbox.Keys), rewrite, now, o); }
    AllWritten(db, records, now);
  }

  /** Exactly when the store takes a transaction on the outbox. */
  ghost predicate Takable(db: DB, t: Txn)
  {
    match t
    case EnqueueTxn(id, _, request, _) => if id in db.sends.outbox then db.sends.outbox[id].request == request else id != ""
    case ClaimTxn(id, _) => Held(db, id)
    case RejectTxn(id, _, _) => Held(db, id)
    case CancelTxn(id, _) => id in db.sends.outbox && (db.sends.outbox[id].state.Queued? || db.sends.outbox[id].state.Canceled?)
    case FinishTxn(id, state, _, _) => id in db.sends.outbox && (state.Accepted? || state.Rejected? || state.Ambiguous?)
    case FinishConversationTxn(id, e, _, mark, _) =>
      && id in db.sends.outbox && db.sends.outbox[id].state.Sending? && db.sends.outbox[id].request.kind == "conversation"
      && e.key.kind.ConversationKind? && e.key.id != "" && (Stale(db, e.key, Some(mark)) || !e.data.InvalidJson?)
    case RecoverSendingTxn(_) => true
    case BeginPairingTxn(_, _, _) => true
    case _ => GoesThrough(db, t)
  }

  /** In a file without a blank id, which every run keeps to, a transaction on the outbox goes through if and only if it should. */
  lemma GoesThroughIff(db: DB, t: Txn)
    requires Keyed(db) && NoBlankId(db)
    ensures GoesThrough(db, t) <==> Takable(db, t)
  {
    if t.RecoverSendingTxn? {
      RewriteGoesThrough(Relinked(db), MarkAmbiguous, t.now);
    } else if t.BeginPairingTxn? {
      RewriteGoesThrough(db, CancelForPairing, t.now);
    } else if t.EnqueueTxn? && t.id in db.sends.outbox {
      EqualIsIdentity(db.sends.outbox[t.id].request, t.request);
    } else if t.FinishConversationTxn? && Takable(db, t) {
      FinishGoesThrough(db, t);
    }
  }

  lemma FinishGoesThrough(db: DB, t: Txn)
    requires Keyed(db) && NoBlankId(db) && t.FinishConversationTxn? && Takable(db, t)
    ensures GoesThrough(db, t)
  {
    var stored := StoreResult(db, t.e, t.private, t.mark, t.now);
    assert stored.Done?;
    assert WriteOutbox(StampEpoch(stored.db, t.e.key), Finished(db.sends.outbox[t.id], t.e.key.id, t.now), t.now).Done?;
  }

  lemma StepNoBlankId(db: DB, t: Txn)
    requires Keyed(db) && NoBlankId(db)
    ensures NoBlankId(Step(db, t))
  {
    StepKept(db, t, "");
    if "" in Step(db, t).sends.outbox { GoesThroughIff(db, t); }
  }

  lemma {:induction false} RunNoBlankId(db: DB, ts: seq<Txn>)
    requires Keyed(db) && NoBlankId(db)
    ensures Keyed(Run(db, ts)) && NoBlankId(Run(db, ts))
    decreases |ts|
  {
    if ts != [] {
      StepNoBlankId(db, ts[0]);
      StepKeyed(db, ts[0]);
      RunNoBlankId(Step(db, ts[0]), ts[1..]);
    }
  }

  /** The same of every run from an empty file. */
  lemma RunGoesThroughIff(ts: seq<Txn>, t: Txn)
    ensures GoesThrough(Run(EMPTY, ts), t) <==> Takable(Run(EMPTY, ts), t)
  {
    RunNoBlankId(EMPTY, ts);
    GoesThroughIff(Run(EMPTY, ts), t);
  }

  // ---- queueing ----

  /** A new id is queued, for this session, with the request it came with. */
  lemma EnqueueTakes(db: DB, id: string, transactionID: string, request: SendRequest, now: Time)
    requires id !in db.sends.outbox && GoesThrough(db, EnqueueTxn(id, transactionID, request, now))
    ensures var next := Step(db, EnqueueTxn(id, transactionID, request, now)).sends;
      && id in next.outbox && next.outbox[id].state.Queued? && next.outbox[id].request == request
      && next.outbox[id].sessionEpoch == db.own.epoch && next.outbox[id].created == now
      && next.outbox[id].transactionID == transactionID
      && transactionID in next.outboxTxn && next.outboxTxn[transactionID] == id
  {
    var o := Outbox("", db.own.epoch, SCHEMA, id, request, transactionID, Queued, "", "", now, now);
    WriteFrame(db.(sends := db.sends.(outboxTxn := db.sends.outboxTxn[transactionID := id])), o, now, Key(OutboxKind, id));
  }

  /**
   * An idempotency key works for good: however late, the same request under the same
   * id gives back the record it made, whatever became of that, and changes nothing;
   * any other request under it is refused.
   */
  lemma EnqueueIsIdempotent(db: DB, ts: seq<Txn>, id: string, transactionID: string, request: SendRequest, now: Time)
    requires Keyed(db) && id in db.sends.outbox
    ensures var later := Run(db, ts);
      id in later.sends.outbox &&
      Enqueue(later, id, transactionID, request, now) ==
        if request == db.sends.outbox[id].request then Done(later, (later.sends.outbox[id], false)) else Abort(Conflict)
  {
    RunReaches(db, ts, id);
    EqualIsIdentity(Run(db, ts).sends.outbox[id].request, request);
  }

  // ---- every run ----

  /** Why a committed transaction leaves a record in state s, from another. */
  predicate Reason(db: DB, t: Txn, a: Outbox, s: OutboxState)
  {
    match s
    case Queued => false
    case Sending => a.state.Queued? && t.ClaimTxn? && t.id == a.id
    case Accepted => a.state.Sending? && ((t.FinishTxn? && t.id == a.id && t.state == s) || (t.FinishConversationTxn? && t.id == a.id))
    case Rejected =>
      (a.state.Sending? && t.FinishTxn? && t.id == a.id && t.state == s) || (a.state.Queued? && t.RejectTxn? && t.id == a.id)
    case Ambiguous => a.state.Sending? && ((t.FinishTxn? && t.id == a.id && t.state == s) || t.RecoverSendingTxn?)
    case Confirmed => Dispatched(a.state) && Echoes(db, t, a)
    case Canceled => a.state.Queued? && ((t.CancelTxn? && t.id == a.id) || t.BeginPairingTxn? || t.SavePairedTxn?)
  }

  lemma TakesForReason(db: DB, t: Txn, a: Outbox, b: Outbox)
    requires GoesThrough(db, t) && Takes(db, t, a, b) && b.state != a.state
    ensures Reason(db, t, a, b.state)
  {
  }

  /** The i-th transaction went through, and brought the record from another state into s. */
  ghost predicate ReasonAt(db: DB, ts: seq<Txn>, id: string, s: OutboxState, i: int)
  {
    0 <= i < |ts| && var at := Run(db, ts[..i]);
      && id in at.sends.outbox && GoesThrough(at, ts[i]) && Reason(at, ts[i], at.sends.outbox[id], s)
      && id in Run(db, ts[..i + 1]).sends.outbox && Run(db, ts[..i + 1]).sends.outbox[id].state == s
  }

  lemma RunLast(db: DB, ts: seq<Txn>, n: nat)
    requires n < |ts|
    ensures Run(db, ts[..n + 1]) == Step(Run(db, ts[..n]), ts[n])
  {
    assert ts[..n + 1] == ts[..n] + [ts[n]];
    RunSplit(db, ts[..n], [ts[n]]);
    RunOne(Run(db, ts[..n]), ts[n]);
  }

  /** At any point of any run from an empty file, a record's state has its reason in a transaction that went through and put it there. */
  lemma {:induction false} EveryStateHasItsReason(ts: seq<Txn>, n: nat, id: string)
    requires n <= |ts| && id in Run(EMPTY, ts[..n]).sends.outbox
    ensures var s := Run(EMPTY, ts[..n]).sends.outbox[id].state;
      s.Queued? || exists i :: i < n && ReasonAt(EMPTY, ts, id, s, i)
    decreases n
  {
    assert ts[..0] == [];
    if n > 0 {
      var before, t := Run(EMPTY, ts[..n - 1]), ts[n - 1];
      RunKeyed(EMPTY, ts[..n - 1]);
      RunLast(EMPTY, ts, n - 1);
      StepKept(before, t, id);
      if id in before.sends.outbox {
        StepTakes(before, t, id);
        var a, b := before.sends.outbox[id], Step(before, t).sends.outbox[id];
        if a.state == b.state {
          EveryStateHasItsReason(ts, n - 1, id);
        } else {
          TakesForReason(before, t, a, b);
          assert ReasonAt(EMPTY, ts, id, b.state, n - 1);
        }
      }
    }
  }

  // ---- while a send is under way ----

  /** A confirmed record stays as it is: confirmed, for its request, by its message. */
  lemma {:induction false} ConfirmedKeeps(db: DB, ts: seq<Txn>, id: string)
    requires Keyed(db) && id in db.sends.outbox && db.sends.outbox[id].state.Confirmed?
    ensures var a, end := db.sends.outbox[id], Run(db, ts).sends.outbox;
      id in end && end[id].state.Confirmed? && end[id].messageID == a.messageID && end[id].request == a.request
    decreases |ts|
  {
    if ts != [] {
      StepTakes(db, ts[0], id);
      StepKeyed(db, ts[0]);
      ConfirmedKeeps(Step(db, ts[0]), ts[1..], id);
    }
  }

  /** One of the transactions applies a message of the request's conversation, under the id the record was confirmed with. */
  ghost predicate EchoedIn(ts: seq<Txn>, o: Outbox)
  {
    && (o.request.kind == "" || o.request.kind == "message")
    && exists t :: t in ts && t.ApplyTxn? && t.e.data.MessageData?
         && t.e.data.message.id == o.messageID && t.e.data.message.conversationID == o.request.conversationID
  }

  /** As long as nobody ends it, a send goes on until its own echo confirms it. */
  lemma {:induction false} SendGoesOn(db: DB, ts: seq<Txn>, id: string)
    requires Keyed(db) && id in db.sends.outbox && db.sends.outbox[id].state.Sending?
    requires forall t :: t in ts ==> !EndsSending(t)
    ensures var a, end := db.sends.outbox[id], Run(db, ts).sends.outbox;
      && id in end && end[id].request == a.request
      && (end[id].state.Sending? || (end[id].state.Confirmed? && EchoedIn(ts, end[id])))
    decreases |ts|
  {
    if ts != [] {
      var next, t := Step(db, ts[0]), ts[0];
      assert !EndsSending(t);
      StepTakes(db, t, id);
      StepKeyed(db, t);
      if next.sends.outbox[id].state.Sending? {
        SendGoesOn(next, ts[1..], id);
      } else {
        ConfirmedKeeps(next, ts[1..], id);
        assert t in ts;
      }
    }
  }

  // ---- echoes ----

  /** The record's transaction id leads to it. */
  ghost predicate Linked(db: DB, id: string)
  {
    id in db.sends.outbox ==>
      var tid := db.sends.outbox[id].transactionID; tid in db.sends.outboxTxn && db.sends.outboxTxn[tid] == id
  }

  ghost predicate AllLinked(db: DB)
  {
    Keyed(db) && forall id :: Linked(db, id)
  }

  /** New records come with transaction ids never used before. */
  predicate FreshId(db: DB, t: Txn)
  {
    t.EnqueueTxn? && t.id !in db.sends.outbox ==> t.transactionID !in db.sends.outboxTxn
  }

  /** Rebuilding an index that leads to every record gives the same index. */
  lemma {:induction false} RelinkingAgrees(outbox: map<string, Outbox>, ids: seq<string>, known: map<string, string>)
    requires forall id :: id in ids ==> id in outbox && outbox[id].id == id
    requires forall id :: id in ids ==> outbox[id].transactionID in known && known[outbox[id].transactionID] == id
    ensures OutboxTransactions(outbox, ids, known) == known
  {
    if ids != [] {
      assert known[outbox[ids[0]].transactionID := outbox[ids[0]].id] == known;
      RelinkingAgrees(outbox, ids[1..], known);
    }
  }

  lemma {:induction false} RelinkingKnows(outbox: map<string, Outbox>, ids: seq<string>, known: map<string, string>, tid: string)
    requires forall id :: id in ids ==> id in outbox
    requires tid in known || exists id :: id in ids && outbox[id].transactionID == tid
    ensures tid in OutboxTransactions(outbox, ids, known)
  {
    if ids != [] {
      RelinkingKnows(outbox, ids[1..], known[outbox[ids[0]].transactionID := outbox[ids[0]].id], tid);
    }
  }

  /** A restart makes every record's transaction id known, even in a file that never had the index. */
  lemma RestartRelinks(db: DB, now: Time, id: string)
    requires Keyed(db) && GoesThrough(db, RecoverSendingTxn(now)) && id in db.sends.outbox
    ensures db.sends.outbox[id].transactionID in Step(db, RecoverSendingTxn(now)).sends.outboxTxn
  {
    var ids := SortedKeys(db.sends.outbox.Keys);
    assert id in ids;
    RelinkingKnows(db.sends.outbox, ids, db.sends.outboxTxn, db.sends.outbox[id].transactionID);
    RewriteEvery(Relinked(db), MarkAmbiguous, now, id);
  }

  lemma StepAllLinked(db: DB, t: Txn)
    requires AllLinked(db) && FreshId(db, t)
    ensures AllLinked(Step(db, t))
  {
    var next := Step(db, t);
    StepKeyed(db, t);
    if t.RecoverSendingTxn? && GoesThrough(db, t) {
      forall id | id in db.sends.outbox ensures Linked(db, id) {}
      RelinkingAgrees(db.sends.outbox, SortedKeys(db.sends.outbox.Keys), db.sends.outboxTxn);
      RewriteEvery(Relinked(db), MarkAmbiguous, t.now, "");
    }
    forall id ensures Linked(next, id) {
      assert Linked(db, id);
      StepKept(db, t, id);
      if t.EnqueueTxn? && t.id !in db.sends.outbox && GoesThrough(db, t) {
        EnqueueTakes(db, t.id, t.transactionID, t.request, t.now);
      }
    }
  }

  ghost predicate AllFreshIds(db: DB, ts: seq<Txn>)
    decreases |ts|
  {
    ts == [] || (FreshId(db, ts[0]) && AllFreshIds(Step(db, ts[0]), ts[1..]))
  }

  lemma {:induction false} RunAllLinked(db: DB, ts: seq<Txn>)
    requires AllLinked(db) && AllFreshIds(db, ts)
    ensures AllLinked(Run(db, ts))
    decreases |ts|
  {
    if ts != [] {
      StepAllLinked(db, ts[0]);
      RunAllLinked(Step(db, ts[0]), ts[1..]);
    }
  }

  /**
   * Over every run in which records get fresh transaction ids, restarts included: an
   * applied message confirms a record if and only if it carries that record's
   * transaction id, is of its conversation and session, and the record was handed
   * to the provider and not confirmed yet.
   */
  lemma OwnEchoConfirmsIff(ts: seq<Txn>, e: Incoming, private: map<string, Bytes>, watermark: Option<nat>, now: Time, id: string)
    requires AllFreshIds(EMPTY, ts) && id in Run(EMPTY, ts).sends.outbox && e.key.kind.MessageKind? && e.data.MessageData?
    requires GoesThrough(Run(EMPTY, ts), ApplyTxn(e, private, watermark, now))
    ensures var db := Run(EMPTY, ts);
      var a, m := db.sends.outbox[id], e.data.message;
      var after := Step(db, ApplyTxn(e, private, watermark, now)).sends.outbox;
      && id in after
      && (after[id].state.Confirmed? && !a.state.Confirmed? <==>
            && m.transactionID == a.transactionID && m.transactionID != "" && m.id != ""
            && OwnMessage(db, a, m) && Dispatched(a.state))
      && (after[id].state.Confirmed? && !a.state.Confirmed? ==> after[id].messageID == m.id)
  {
    var db := Run(EMPTY, ts);
    RunAllLinked(EMPTY, ts);
    RunKeyed(EMPTY, ts);
    assert Linked(db, id);
    RunLinked(EMPTY, ts, e.data.message.transactionID);
    StepTakes(db, ApplyTxn(e, private, watermark, now), id);
  }
}
