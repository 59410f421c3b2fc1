/** Applying the same live event again changes nothing but the observation number. */
module Redelivery {
  import opened Records
  import opened Buckets
  import opened StoreSpec
  import opened Frames
  import Sending

  lemma MergeUnchanged(c: Conversation, l: LatestMessage, unread: Option<bool>)
    ensures !MergeLatest(c, l, unread).1 ==> MergeLatest(c, l, unread).0 == c
  {
  }

  /** A merged row has nothing left to take from the same message. */
  lemma MergeSettles(c: Conversation, l: LatestMessage, unread: Option<bool>)
    ensures var row := MergeLatest(c, l, unread).0; MergeLatest(row, l, None) == (row, false)
  {
  }

  lemma CarrySettles(c: Conversation, carried: Conversation)
    requires carried == c || exists stored :: carried == CarryOver(c, stored)
    ensures carried.updated >= c.updated && CarryOver(c, carried) == carried
  {
  }

  lemma CarryMergeSettles(c: Conversation, carried: Conversation, l: LatestMessage)
    requires carried == c || exists stored :: carried == CarryOver(c, stored)
    ensures var row := MergeLatest(carried, l, None).0;
      MergeLatest(CarryOver(c, row), l, None).0 == row
  {
    var row := MergeLatest(carried, l, None).0;
    MergeSettles(carried, l, None);
    if row.updated > c.updated {
      assert CarryOver(c, row) == row;
    } else {
      assert carried.updated == c.updated && carried == c;
    }
  }

  /** A message already stored with its own status cannot move the unread badge. */
  lemma StoredMessageKeepsBadge(m: Message, now: Time)
    ensures UnreadAfter(m, false, m.status, now) == None
  {
  }

  lemma StampSettles(db: DB, key: Key)
    requires Owned(key.kind) ==> key in db.own.epochs && db.own.epochs[key] == db.own.epoch
    ensures StampEpoch(db, key) == db
  {
    if Owned(key.kind) { assert db.own.epochs[key := db.own.epoch] == db.own.epochs; }
  }

  /** What a committed Apply leaves behind about its own record. */
  ghost predicate Settled(db: DB, e: Incoming, private: map<string, Bytes>)
  {
    && e.key.id != ""
    && (Owned(e.key.kind) ==> e.key in db.own.epochs && db.own.epochs[e.key] == db.own.epoch)
    && db.private + private == db.private
    && e.key in db.log.latest && !db.log.latest[e.key].InvalidJson?
    && (e.key.kind.ConversationKind? ==> PreviewConversation(db, e.data) == Some(db.log.latest[e.key]))
    && (!e.key.kind.ConversationKind? ==> db.log.latest[e.key] == e.data)
  }

  lemma PreviewSettles(db: DB, after: DB, e: Incoming)
    requires e.key.kind.ConversationKind?
    requires PreviewConversation(db, e.data).Some?
    requires after.log.latest == db.log.latest[e.key := PreviewConversation(db, e.data).value]
    requires after.newest == db.newest && after.own.epoch == db.own.epoch
    requires after.own.epochs == db.own.epochs[e.key := db.own.epoch]
    ensures PreviewConversation(after, e.data) == PreviewConversation(db, e.data)
  {
    if e.data.ConversationData? && e.data.conversation.schema == SCHEMA && e.data.conversation.id != "" {
      var c := e.data.conversation;
      var key := Key(ConversationKind, c.id);
      if key == e.key {
        var carried := if key in db.log.latest && EntityCurrent(db, key) then CarryOver(c, db.log.latest[key].conversation) else c;
        CarrySettles(c, carried);
        if c.id in db.newest { CarryMergeSettles(c, carried, db.newest[c.id]); }
      }
    }
  }

  lemma StoreSettles(db: DB, e: Incoming, private: map<string, Bytes>, now: Time)
    requires ClaimAndStore(db, e, private, now).Done?
    ensures Settled(ClaimAndStore(db, e, private, now).db, e, private)
  {
    var preview := if e.key.kind.ConversationKind? then PreviewConversation(db, e.data) else Some(e.data);
    var stamped := StampEpoch(db, e.key);
    var r := StoreSnapshot(stamped, e.key, preview.value, private, now);
    assert r == ClaimAndStore(db, e, private, now);
    assert r.db.log.latest == db.log.latest[e.key := preview.value];
    if e.key.kind.ConversationKind? { PreviewSettles(db, r.db, e); }
  }

  /** Storing a settled record again only numbers one more observation. */
  lemma StoreAgain(db: DB, e: Incoming, private: map<string, Bytes>, now: Time)
    requires Settled(db, e, private) && StoredMessageReadable(db, e.key)
    ensures ClaimAndStore(db, e, private, now) == Done(db.(seen := ObserveTx(db, e.key).seen), false)
  {
    StampSettles(db, e.key);
  }

  /** The row and newest-message cache after a message has been folded in. */
  ghost predicate Folded(db: DB, m: Message)
  {
    match PreviewSource(m)
    case None => true
    case Some(l) =>
      var key := Key(ConversationKind, m.conversationID);
      m.conversationID in db.newest &&
      (Ahead(db.newest[m.conversationID], l) ||
       (db.newest[m.conversationID] == l &&
        (key in db.log.latest && db.log.latest[key].ConversationData? && db.log.latest[key].conversation.schema == SCHEMA ==>
           MergeLatest(db.log.latest[key].conversation, l, None) == (db.log.latest[key].conversation, false))))
  }

  lemma RefreshFolds(db: DB, m: Message, isNew: bool, status: string, now: Time)
    requires RefreshConversationTx(db, m, isNew, status, now).Done?
    ensures Folded(RefreshConversationTx(db, m, isNew, status, now).db, m)
  {
    var source := PreviewSource(m);
    if source.Some? {
      var l, c := source.value, m.conversationID;
      var key := Key(ConversationKind, c);
      if !(c in db.newest && Ahead(db.newest[c], l)) && key in db.log.latest && db.log.latest[key].ConversationData? {
        var row, unread := db.log.latest[key].conversation, UnreadAfter(m, isNew, status, now);
        MergeUnchanged(row, l, unread);
        MergeSettles(row, l, unread);
      }
    }
  }

  lemma RefreshAgain(db: DB, m: Message, now: Time)
    requires Folded(db, m)
    ensures var r := RefreshConversationTx(db, m, false, m.status, now);
      r.Done? && !r.value && r.db == db.(seen := r.db.seen)
  {
    StoredMessageKeepsBadge(m, now);
    var source := PreviewSource(m);
    if source.Some? {
      LessTotal(source.value.messageID, source.value.messageID);
      if db.newest[m.conversationID] == source.value {
        assert db.newest[m.conversationID := source.value] == db.newest;
      }
    }
  }

  lemma RefreshKeepsRecord(db: DB, m: Message, isNew: bool, status: string, now: Time, e: Incoming, private: map<string, Bytes>)
    requires e.key.kind.MessageKind? && Settled(db, e, private)
    requires RefreshConversationTx(db, m, isNew, status, now).Done?
    ensures Settled(RefreshConversationTx(db, m, isNew, status, now).db, e, private)
  {
  }

  lemma ConfirmKeeps(db: DB, m: Message, now: Time, e: Incoming, private: map<string, Bytes>)
    requires e.key.kind.MessageKind? && Settled(db, e, private) && Folded(db, m)
    requires ConfirmSendTx(db, m, now).Done?
    ensures var r := ConfirmSendTx(db, m, now); Settled(r.db, e, private) && Folded(r.db, m)
  {
  }

  /** An observed send stays observed: the same echo finds nothing to confirm. */
  lemma ConfirmAgain(db: DB, m: Message, now: Time, later: Time)
    requires Keyed(db) && ConfirmSendTx(db, m, now).Done?
    ensures var once := ConfirmSendTx(db, m, now).db; ConfirmSendTx(once, m, later) == Done(once, false)
  {
  }

  lemma ConfirmIgnoresSeen(db: DB, m: Message, now: Time, seen: Seen)
    requires ConfirmSendTx(db, m, now) == Done(db, false)
    ensures ConfirmSendTx(db.(seen := seen), m, now) == Done(db.(seen := seen), false)
  {
  }

  lemma MessageAgain(db: DB, e: Incoming, private: map<string, Bytes>, now: Time)
    requires e.key.kind.MessageKind? && e.data.MessageData?
    requires Settled(db, e, private) && Folded(db, e.data.message)
    requires ConfirmSendTx(db, e.data.message, now) == Done(db, false)
    ensures var r := Apply(db, e, private, None, now); r.Done? && !r.value && r.db == db.(seen := r.db.seen)
  {
    StoreAgain(db, e, private, now);
    var kept := db.(seen := ObserveTx(db, e.key).seen);
    RefreshAgain(kept, e.data.message, now);
    var refreshed := RefreshConversationTx(kept, e.data.message, false, e.data.message.status, now);
    ConfirmIgnoresSeen(db, e.data.message, now, refreshed.db.seen);
  }

  /** From any state: a live event that commits, applied again at any later time, is a reported no-op. */
  lemma RedeliveryIsIdempotent(db: DB, e: Incoming, private: map<string, Bytes>, now: Time, later: Time)
    requires Keyed(db) && Apply(db, e, private, None, now).Done?
    ensures var once := Apply(db, e, private, None, now).db;
      var twice := Apply(once, e, private, None, later);
      twice.Done? && !twice.value && twice.db == once.(seen := twice.db.seen)
  {
    var kept := ClaimAndStore(db, e, private, now);
    StoreSettles(db, e, private, now);
    var once := Apply(db, e, private, None, now).db;
    if e.key.kind.MessageKind? {
      var m := e.data.message;
      var isNew, status := e.key !in db.log.latest && !e.historical, PreviousStatus(db, e.key);
      var refreshed := RefreshConversationTx(kept.db, m, isNew, status, now);
      FreshFrame(db, e, private, now, e.key);
      RefreshFolds(kept.db, m, isNew, status, now);
      RefreshKeepsRecord(kept.db, m, isNew, status, now, e, private);
      ConfirmKeeps(refreshed.db, m, now, e, private);
      ConfirmAgain(refreshed.db, m, now, later);
      MessageAgain(once, e, private, later);
    } else {
      StoreAgain(once, e, private, later);
    }
  }

  /** The same from every state a run of transactions and crashes can leave on disk. */
  lemma ReachableRedelivery(ts: seq<Txn>, e: Incoming, private: map<string, Bytes>, now: Time, later: Time)
    requires Apply(Run(EMPTY, ts), e, private, None, now).Done?
    ensures var once := Step(Run(EMPTY, ts), ApplyTxn(e, private, None, now));
      var twice := Step(once, ApplyTxn(e, private, None, later));
      twice == once.(seen := twice.seen)
  {
    Sending.RunKeyed(EMPTY, ts);
    RedeliveryIsIdempotent(Run(EMPTY, ts), e, private, now, later);
  }
}
