/** The stored counts of records left by earlier sessions, and exactly when they are right. */
module Counters {
  import opened Records
  import opened Buckets
  import opened StoreSpec
  import opened Frames

  function StoredKeys(latest: map<Key, Data>, kind: Kind): set<Key>
  {
    set k | k in latest.Keys && k.kind == kind
  }

  /** The records of one kind that carry no stamp of the current session. */
  function Left(db: DB, kind: Kind): set<Key>
  {
    Unstamped(db.own.epochs, StoredKeys(db.log.latest, kind), db.own.epoch)
  }

  lemma LeftMember(db: DB, kind: Kind, k: Key)
    ensures k in Left(db, kind) <==>
              k in db.log.latest && k.kind == kind && !(k in db.own.epochs && db.own.epochs[k] == db.own.epoch)
  {
    assert k in StoredKeys(db.log.latest, kind) <==> k in db.log.latest.Keys && k.kind == kind;
  }

  /** From the first pairing on, the stored count is the number of records left behind. */
  ghost predicate Exact(db: DB, kind: Kind)
  {
    db.own.epoch > 0 ==> PreviousCount(db, kind) == |Left(db, kind)|
  }

  /** No stamp is from a session yet to come. */
  ghost predicate Stamped(own: Own)
  {
    forall k :: k in own.epochs ==> own.epochs[k] <= own.epoch
  }

  // ---- stamping one record ----

  lemma StampLeaves(db: DB, key: Key, kind: Kind)
    requires Owned(kind) && Owned(key.kind)
    ensures Left(StampEpoch(db, key), kind) == Left(db, kind) - {key}
  {
    forall k ensures k in Left(StampEpoch(db, key), kind) <==> k in Left(db, kind) - {key} {
      LeftMember(db, kind, k);
      LeftMember(StampEpoch(db, key), kind, k);
    }
  }

  /** The guard against going below zero never hides a record that was counted. */
  lemma GuardNeverMasks(db: DB, key: Key)
    requires Owned(key.kind) && db.own.epoch > 0 && Exact(db, key.kind) && key in Left(db, key.kind)
    ensures PreviousCount(db, key.kind) > 0
    ensures PreviousCount(StampEpoch(db, key), key.kind) == PreviousCount(db, key.kind) - 1
  {
    LeftMember(db, key.kind, key);
  }

  /** Stamping keeps the count exact, provided the stamp comes before the record is stored. */
  lemma StampExact(db: DB, key: Key, kind: Kind)
    requires Owned(kind) && Exact(db, kind)
    ensures Exact(StampEpoch(db, key), kind)
  {
    if Owned(key.kind) {
      StampLeaves(db, key, kind);
      LeftMember(db, kind, key);
      if db.own.epoch > 0 && key in Left(db, kind) { GuardNeverMasks(db, key); }
    }
  }

  // ---- records that stay where they are ----

  /** Storing records that are stamped, or already stored, leaves nothing more behind. */
  lemma SameLeft(a: DB, b: DB, kind: Kind, key: Key)
    requires Owned(kind) && b.own == a.own
    requires forall k: Key :: k.kind == kind ==> (k in b.log.latest <==> k in a.log.latest || k == key)
    requires key.kind == kind ==> key in a.log.latest || (key in a.own.epochs && a.own.epochs[key] == a.own.epoch)
    ensures Left(b, kind) == Left(a, kind)
  {
    forall k ensures k in Left(a, kind) <==> k in Left(b, kind) {
      LeftMember(a, kind, k);
      LeftMember(b, kind, k);
    }
  }

  lemma ApplyExact(db: DB, e: Incoming, private: map<string, Bytes>, watermark: Option<nat>, now: Time, kind: Kind)
    requires Owned(kind) && Exact(db, kind) && Apply(db, e, private, watermark, now).Done?
    ensures Exact(Apply(db, e, private, watermark, now).db, kind)
  {
    var applied := if Stale(db, e.key, watermark) then Done(db, false) else ApplyFresh(db, e, private, now);
    if !Stale(db, e.key, watermark) {
      var stamped := StampEpoch(db, e.key);
      StampExact(db, e.key, kind);
      forall k: Key | k.kind == kind ensures k in applied.db.log.latest <==> k in stamped.log.latest || k == e.key {
        FreshFrame(db, e, private, now, k);
      }
      FreshFrame(db, e, private, now, e.key);
      SameLeft(stamped, applied.db.(own := stamped.own), kind, e.key);
    }
    if e.key.kind.MessageKind? { ConfirmExact(applied.db, e.data.message, now, kind); }
  }

  lemma ConfirmExact(db: DB, m: Message, now: Time, kind: Kind)
    requires Owned(kind) && Exact(db, kind) && ConfirmSendTx(db, m, now).Done?
    ensures Exact(ConfirmSendTx(db, m, now).db, kind)
  {
    forall k: Key | Owned(k.kind) ensures SameAt(db.log, ConfirmSendTx(db, m, now).db.log, k) { ConfirmFrame(db, m, now, k); }
    ConfirmFrame(db, m, now, Key(kind, ""));
    SameRecords(db, ConfirmSendTx(db, m, now).db, kind);
  }

  lemma SameRecords(a: DB, b: DB, kind: Kind)
    requires Owned(kind) && b.own == a.own
    requires forall k: Key :: Owned(k.kind) ==> SameAt(a.log, b.log, k)
    ensures Left(b, kind) == Left(a, kind)
  {
    forall k ensures k in Left(a, kind) <==> k in Left(b, kind) {
      LeftMember(a, kind, k);
      LeftMember(b, kind, k);
      if Owned(k.kind) { assert SameAt(a.log, b.log, k); }
    }
  }

  lemma RowExact(db: DB, id: string, mutation: Mutation, now: Time, kind: Kind)
    requires Owned(kind) && Exact(db, kind) && UpdateConversationTx(db, id, mutation, now).Done?
    ensures Exact(UpdateConversationTx(db, id, mutation, now).db, kind)
  {
    var r := UpdateConversationTx(db, id, mutation, now).db;
    RowFrame(db, id, mutation, now, Key(ConversationKind, id));
    forall k ensures k in Left(db, kind) <==> k in Left(r, kind) {
      LeftMember(db, kind, k);
      LeftMember(r, kind, k);
      RowFrame(db, id, mutation, now, k);
    }
    assert Left(db, kind) == Left(r, kind);
  }

  // ---- FinishConversation stamps after it stores ----

  /** The row is already stored, already the session's, fenced off, or there is nothing left to miscount. */
  ghost predicate CountsRight(db: DB, e: Incoming, mark: nat)
  {
    || e.key in db.log.latest
    || (e.key in db.own.epochs && db.own.epochs[e.key] == db.own.epoch)
    || Stale(db, e.key, Some(mark))
    || db.own.previousConversations == 0
    || db.own.epoch == 0
  }

  lemma FinishLeft(db: DB, id: string, e: Incoming, private: map<string, Bytes>, mark: nat, now: Time)
    requires FinishConversation(db, id, e, private, mark, now).Done?
    ensures Left(FinishConversation(db, id, e, private, mark, now).db, ConversationKind) == Left(db, ConversationKind) - {e.key}
  {
    var stored := StoreResult(db, e, private, mark, now).db;
    var r := FinishConversation(db, id, e, private, mark, now).db;
    forall k ensures k in Left(r, ConversationKind) <==> k in Left(db, ConversationKind) - {e.key} {
      LeftMember(db, ConversationKind, k);
      LeftMember(r, ConversationKind, k);
      FinishConversationFrame(db, id, e, private, mark, now, k);
      ResultFrame(db, e, private, mark, now, k);
    }
  }

  /**
   * FinishConversation stores the row before it stamps it, so a conversation the
   * store has never seen is taken off the count it was never on. The count stays
   * exact if and only if the row was known, or nothing could be taken off.
   */
  lemma FinishExactIff(db: DB, id: string, e: Incoming, private: map<string, Bytes>, mark: nat, now: Time)
    requires Exact(db, ConversationKind) && FinishConversation(db, id, e, private, mark, now).Done?
    ensures Exact(FinishConversation(db, id, e, private, mark, now).db, ConversationKind) <==> CountsRight(db, e, mark)
  {
    var stored := StoreResult(db, e, private, mark, now).db;
    FinishConversationFrame(db, id, e, private, mark, now, e.key);
    FinishLeft(db, id, e, private, mark, now);
    LeftMember(db, ConversationKind, e.key);
    ResultFrame(db, e, private, mark, now, e.key);
    if db.own.epoch > 0 && e.key in Left(db, ConversationKind) { GuardNeverMasks(db, e.key); }
  }

  lemma FinishMessageLeft(db: DB, id: string, e: Incoming, private: map<string, Bytes>, mark: nat, now: Time, k: Key)
    requires FinishConversation(db, id, e, private, mark, now).Done?
    ensures var r := FinishConversation(db, id, e, private, mark, now).db;
      && (k in Left(r, MessageKind) <==> k in Left(db, MessageKind))
      && r.own.epoch == db.own.epoch && r.own.previousMessages == db.own.previousMessages
  {
    LeftMember(db, MessageKind, k);
    LeftMember(FinishConversation(db, id, e, private, mark, now).db, MessageKind, k);
    FinishConversationFrame(db, id, e, private, mark, now, k);
    ResultFrame(db, e, private, mark, now, k);
  }

  lemma FinishMessagesExact(db: DB, id: string, e: Incoming, private: map<string, Bytes>, mark: nat, now: Time)
    requires Exact(db, MessageKind) && FinishConversation(db, id, e, private, mark, now).Done?
    ensures Exact(FinishConversation(db, id, e, private, mark, now).db, MessageKind)
  {
    var r := FinishConversation(db, id, e, private, mark, now).db;
    forall k ensures k in Left(r, MessageKind) <==> k in Left(db, MessageKind) {
      FinishMessageLeft(db, id, e, private, mark, now, k);
    }
    FinishMessageLeft(db, id, e, private, mark, now, e.key);
    assert Left(r, MessageKind) == Left(db, MessageKind);
  }

  // ---- a new session and adoption ----

  lemma {:induction false} SameSize(ids: set<string>, keys: set<Key>, kind: Kind)
    requires forall k :: k in keys <==> k.kind == kind && k.id in ids
    ensures |ids| == |keys|
    decreases ids
  {
    if ids == {} {
      assert keys == {};
    } else {
      var id :| id in ids;
      var key := Key(kind, id);
      assert key in keys;
      SameSize(ids - {id}, keys - {key}, kind);
    }
  }

  lemma StoredCount(latest: map<Key, Data>, kind: Kind)
    ensures |KindIds(latest, kind)| == |StoredKeys(latest, kind)|
  {
    forall k ensures k in StoredKeys(latest, kind) <==> k.kind == kind && k.id in KindIds(latest, kind) {
      KindIdMember(latest, kind, k.id);
      assert k in StoredKeys(latest, kind) <==> k in latest.Keys && k.kind == kind;
    }
    SameSize(KindIds(latest, kind), StoredKeys(latest, kind), kind);
  }

  /** A new phone leaves every stored record behind; the same phone leaves what was left. */
  lemma SavePairedExact(db: DB, session: Bytes, newPhone: bool, now: Time, kind: Kind)
    requires Owned(kind) && Exact(db, kind) && Stamped(db.own) && SavePairedSession(db, session, newPhone, now).Done?
    ensures Exact(SavePairedSession(db, session, newPhone, now).db, kind)
  {
    var r := SavePairedSession(db, session, newPhone, now).db;
    SavePairedFrame(db, session, newPhone, now, Key(kind, ""));
    forall k: Key | Owned(k.kind) ensures SameAt(db.log, r.log, k) { SavePairedFrame(db, session, newPhone, now, k); }
    if newPhone {
      forall k ensures k in Left(r, kind) <==> k in StoredKeys(db.log.latest, kind) {
        LeftMember(r, kind, k);
        if Owned(k.kind) { assert SameAt(db.log, r.log, k); }
        assert k in StoredKeys(db.log.latest, kind) <==> k in db.log.latest.Keys && k.kind == kind;
      }
      assert Left(r, kind) == StoredKeys(db.log.latest, kind);
      StoredCount(db.log.latest, kind);
    } else {
      SameRecords(db, r, kind);
    }
  }

  lemma AdoptExact(db: DB, kind: Kind)
    requires Owned(kind)
    ensures Exact(AdoptStoredRecords(db).db, kind)
    ensures db.own.epoch > 0 ==> Left(AdoptStoredRecords(db).db, kind) == {}
  {
    var r := AdoptStoredRecords(db).db;
    if db.own.epoch > 0 {
      forall k ensures k !in Left(r, kind) {
        LeftMember(r, kind, k);
        assert k in OwnedKeys(db) <==> k in db.log.latest.Keys && Owned(k.kind);
      }
    }
  }

  /** Adoption reports exactly what the two counters promised. */
  lemma AdoptReportsCounters(db: DB)
    requires db.own.epoch > 0 && Exact(db, ConversationKind) && Exact(db, MessageKind)
    ensures AdoptStoredRecords(db).value == db.own.previousConversations + db.own.previousMessages
  {
    var all := Unstamped(db.own.epochs, OwnedKeys(db), db.own.epoch);
    forall k ensures k in all <==> k in Left(db, ConversationKind) + Left(db, MessageKind) {
      LeftMember(db, ConversationKind, k);
      LeftMember(db, MessageKind, k);
      assert k in OwnedKeys(db) <==> k in db.log.latest.Keys && Owned(k.kind);
    }
    assert all == Left(db, ConversationKind) + Left(db, MessageKind);
    forall k ensures !(k in Left(db, ConversationKind) && k in Left(db, MessageKind)) {
      LeftMember(db, ConversationKind, k);
      LeftMember(db, MessageKind, k);
    }
    assert Left(db, ConversationKind) !! Left(db, MessageKind);
  }

  // ---- every transaction, every run ----

  /** The counters are exact and no stamp is ahead of its time. */
  ghost predicate Counted(db: DB)
  {
    Exact(db, ConversationKind) && Exact(db, MessageKind) && Stamped(db.own)
  }

  /** The one transaction that can miscount does not. */
  ghost predicate Accountable(db: DB, t: Txn)
  {
    t.FinishConversationTxn? && FinishConversation(db, t.id, t.e, t.private, t.mark, t.now).Done? ==> CountsRight(db, t.e, t.mark)
  }

  lemma StampKeepsStamped(db: DB, key: Key)
    requires Stamped(db.own)
    ensures Stamped(StampEpoch(db, key).own)
  {
  }

  lemma StepStamped(db: DB, t: Txn)
    requires Stamped(db.own)
    ensures Stamped(Step(db, t).own)
  {
    var k := Key(ConversationKind, "");
    match t
    case ApplyTxn(e, private, watermark, now) =>
      if Apply(db, e, private, watermark, now).Done? {
        var applied := if Stale(db, e.key, watermark) then Done(db, false) else ApplyFresh(db, e, private, now);
        if !Stale(db, e.key, watermark) { FreshFrame(db, e, private, now, k); }
        StampKeepsStamped(db, e.key);
        if e.key.kind.MessageKind? { ConfirmFrame(applied.db, e.data.message, now, k); }
      }
    case ReadTxn(id, through, now) =>
      if ReadConversation(db, id, through, now).Done? { RowFrame(db, id, ReadThrough(through), now, k); }
    case FinishConversationTxn(id, e, private, mark, now) =>
      if FinishConversation(db, id, e, private, mark, now).Done? {
        FinishConversationFrame(db, id, e, private, mark, now, k);
        ResultFrame(db, e, private, mark, now, k);
        StampKeepsStamped(StoreResult(db, e, private, mark, now).db, e.key);
      }
    case SavePairedTxn(session, newPhone, now) =>
      if SavePairedSession(db, session, newPhone, now).Done? { SavePairedFrame(db, session, newPhone, now, k); }
    case AdoptTxn =>
    case _ => StepFrame(db, t, k);
  }

  lemma StepExact(db: DB, t: Txn, kind: Kind)
    requires Owned(kind) && Exact(db, kind) && Stamped(db.own) && Accountable(db, t)
    ensures Exact(Step(db, t), kind)
  {
    match t
    case ApplyTxn(e, private, watermark, now) =>
      if Apply(db, e, private, watermark, now).Done? { ApplyExact(db, e, private, watermark, now, kind); }
    case ReadTxn(id, through, now) =>
      if ReadConversation(db, id, through, now).Done? { RowExact(db, id, ReadThrough(through), now, kind); }
    case FinishConversationTxn(id, e, private, mark, now) =>
      if FinishConversation(db, id, e, private, mark, now).Done? {
        if kind.MessageKind? { FinishMessagesExact(db, id, e, private, mark, now); }
        else { FinishExactIff(db, id, e, private, mark, now); }
      }
    case SavePairedTxn(session, newPhone, now) =>
      if SavePairedSession(db, session, newPhone, now).Done? { SavePairedExact(db, session, newPhone, now, kind); }
    case AdoptTxn => AdoptExact(db, kind);
    case _ =>
      forall k: Key | Owned(k.kind) ensures SameAt(db.log, Step(db, t).log, k) { StepFrame(db, t, k); }
      StepFrame(db, t, Key(kind, ""));
      SameRecords(db, Step(db, t), kind);
  }

  ghost predicate AllAccountable(db: DB, ts: seq<Txn>)
    decreases |ts|
  {
    ts == [] || (Accountable(db, ts[0]) && AllAccountable(Step(db, ts[0]), ts[1..]))
  }

  /** Over every run in which finished conversations were already known, both counters stay exact. */
  lemma {:induction false} RunCounted(db: DB, ts: seq<Txn>)
    requires Counted(db) && AllAccountable(db, ts)
    ensures Counted(Run(db, ts))
    decreases |ts|
  {
    if ts != [] {
      StepExact(db, ts[0], ConversationKind);
      StepExact(db, ts[0], MessageKind);
      StepStamped(db, ts[0]);
      RunCounted(Step(db, ts[0]), ts[1..]);
    }
  }
}
