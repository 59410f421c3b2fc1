/** A conversation row is never earlier than the messages it summarises. */
module Rows {
  import opened Records
  import opened Buckets
  import opened StoreSpec
  import opened Frames
  import opened Newest
  import Counters

  predicate IsConversation(db: DB, c: string)
  {
    IsRow(db, Key(ConversationKind, c))
  }

  function RowOf(db: DB, c: string): Conversation
    requires IsConversation(db, c)
  {
    db.log.latest[Key(ConversationKind, c)].conversation
  }

  /** A session message of c, with something to show. */
  predicate Shown(db: DB, c: string, id: string)
  {
    IsCurrent(db, id)
    && var m := db.log.latest[Key(MessageKind, id)].message; m.conversationID == c && PreviewSource(m).Some?
  }

  function TimeOf(db: DB, id: string): Time
    requires IsCurrent(db, id)
  {
    db.log.latest[Key(MessageKind, id)].message.time
  }

  predicate InCache(db: DB, c: string, time: Time)
  {
    c in db.newest && db.newest[c].time >= time
  }

  /** The session's own row of c is no earlier. */
  predicate InRow(db: DB, c: string, time: Time)
  {
    IsConversation(db, c) && EntityCurrent(db, Key(ConversationKind, c)) && RowOf(db, c).updated >= time
  }

  /** No session message of c is later than both the cached one and the session's row. */
  ghost predicate MessageFloor(db: DB, c: string)
  {
    forall id :: Shown(db, c, id) ==> InCache(db, c, TimeOf(db, id)) || InRow(db, c, TimeOf(db, id))
  }

  ghost predicate RowFloor(db: DB, c: string)
  {
    IsConversation(db, c) && c in db.newest ==> RowOf(db, c).updated >= db.newest[c].time
  }

  /** Rows are stored under their own ids. */
  predicate WellFormed(e: Incoming)
  {
    && WellNamed(e)
    && (e.key.kind.ConversationKind? ==>
          e.data.ConversationData? && e.data.conversation.id == e.key.id && e.data.conversation.schema == SCHEMA)
  }

  ghost predicate Floors(db: DB, c: string)
  {
    MessageFloor(db, c) && RowFloor(db, c)
  }

  // ---- folding a message into its row ----

  lemma MergeReaches(row: Conversation, l: LatestMessage, unread: Option<bool>)
    ensures var merged := MergeLatest(row, l, unread).0;
      merged.updated >= l.time && merged.updated >= row.updated && merged.schema == row.schema
      && (!MergeLatest(row, l, unread).1 ==> row.updated >= l.time)
  {
  }

  lemma UpdateReaches(db: DB, id: string, mutation: Mutation, now: Time, c: string)
    requires UpdateConversationTx(db, id, mutation, now).Done?
    ensures var r := UpdateConversationTx(db, id, mutation, now).db;
      && (IsConversation(r, c) <==> IsConversation(db, c))
      && (IsConversation(db, c) ==> RowOf(r, c).updated >= RowOf(db, c).updated)
      && (IsConversation(db, c) && c == id && mutation.Merge? ==> RowOf(r, c).updated >= mutation.latest.time)
  {
    if c == id && IsConversation(db, c) && mutation.Merge? { MergeReaches(RowOf(db, c), mutation.latest, mutation.unread); }
    RowFrame(db, id, mutation, now, Key(ConversationKind, c));
  }

  lemma RefreshReaches(db: DB, m: Message, isNew: bool, status: string, now: Time, c: string)
    requires RefreshConversationTx(db, m, isNew, status, now).Done? && RowFloor(db, c)
    ensures var r := RefreshConversationTx(db, m, isNew, status, now).db;
      && (IsConversation(r, c) <==> IsConversation(db, c))
      && (IsConversation(db, c) ==> RowOf(r, c).updated >= RowOf(db, c).updated)
      && RowFloor(r, c)
  {
    RefreshRemembers(db, m, isNew, status, now);
    var source := PreviewSource(m);
    if source.Some? && !(m.conversationID in db.newest && Ahead(db.newest[m.conversationID], source.value)) {
      UpdateReaches(db.(newest := db.newest[m.conversationID := source.value]), m.conversationID,
                    Merge(source.value, UnreadAfter(m, isNew, status, now)), now, c);
    }
  }

  lemma PreviewReaches(db: DB, data: Data)
    requires data.ConversationData? && data.conversation.schema == SCHEMA && data.conversation.id != ""
    requires PreviewConversation(db, data).Some?
    ensures var c := data.conversation.id;
      var row := PreviewConversation(db, data).value;
      && row.ConversationData? && row.conversation.schema == SCHEMA
      && (c in db.newest ==> row.conversation.updated >= db.newest[c].time)
      && (IsConversation(db, c) && EntityCurrent(db, Key(ConversationKind, c)) ==>
            row.conversation.updated >= RowOf(db, c).updated)
  {
    var c := data.conversation.id;
    var key := Key(ConversationKind, c);
    var carried := if key in db.log.latest && EntityCurrent(db, key) then CarryOver(data.conversation, db.log.latest[key].conversation) else data.conversation;
    if c in db.newest { MergeReaches(carried, db.newest[c], None); }
  }

  // ---- Apply ----

  /** The session's row c stays, stays the session's, and is never moved back. */
  ghost predicate RowRises(a: DB, b: DB, c: string)
  {
    var key := Key(ConversationKind, c);
    IsConversation(a, c) && EntityCurrent(a, key) ==>
      IsConversation(b, c) && EntityCurrent(b, key) && RowOf(b, c).updated >= RowOf(a, c).updated
  }

  /** What a step that adds no message to c keeps of it. */
  ghost predicate KeepsMessages(a: DB, b: DB, c: string)
  {
    && (c in a.newest ==> c in b.newest && b.newest[c].time >= a.newest[c].time)
    && (forall id :: Shown(b, c, id) ==> Shown(a, c, id) && TimeOf(b, id) == TimeOf(a, id))
  }

  lemma FloorStays(a: DB, b: DB, c: string)
    requires MessageFloor(a, c) && RowRises(a, b, c) && KeepsMessages(a, b, c)
    ensures MessageFloor(b, c)
  {
    forall id | Shown(b, c, id) ensures InCache(b, c, TimeOf(b, id)) || InRow(b, c, TimeOf(b, id)) {
      assert Shown(a, c, id);
    }
  }

  lemma StampKeepsCurrent(db: DB, key: Key, k: Key)
    requires EntityCurrent(db, k)
    ensures EntityCurrent(StampEpoch(db, key), k)
  {
  }

  lemma FreshRow(db: DB, e: Incoming, private: map<string, Bytes>, now: Time, c: string)
    requires WellFormed(e) && RowFloor(db, c) && ApplyFresh(db, e, private, now).Done?
    ensures var r := ApplyFresh(db, e, private, now).db; RowFloor(r, c) && RowRises(db, r, c)
  {
    var key := Key(ConversationKind, c);
    var kept := ClaimAndStore(db, e, private, now).db;
    ClaimFrame(db, e, private, now, key);
    FreshFrame(db, e, private, now, key);
    if EntityCurrent(db, key) { StampKeepsCurrent(db, e.key, key); }
    if e.key.kind.ConversationKind? && e.key.id != "" { PreviewReaches(db, e.data); }
    if e.key.kind.MessageKind? && e.data.MessageData? {
      RefreshReaches(kept, e.data.message, e.key !in db.log.latest && !e.historical, PreviousStatus(db, e.key), now, c);
    }
  }

  lemma RememberReaches(newest: map<string, LatestMessage>, m: Message, c: string)
    ensures c in newest ==> c in Remember(newest, m) && Remember(newest, m)[c].time >= newest[c].time
    ensures PreviewSource(m).Some? ==>
      m.conversationID in Remember(newest, m) && Remember(newest, m)[m.conversationID].time >= m.time
  {
  }

  lemma FreshMessages(db: DB, e: Incoming, private: map<string, Bytes>, now: Time, c: string)
    requires MessageFloor(db, c) && ApplyFresh(db, e, private, now).Done?
    requires e.key.kind.MessageKind? && e.data.MessageData?
    requires RowRises(db, ApplyFresh(db, e, private, now).db, c)
    ensures MessageFloor(ApplyFresh(db, e, private, now).db, c)
  {
    var r := ApplyFresh(db, e, private, now).db;
    FreshRemembers(db, e, private, now);
    RememberReaches(db.newest, e.data.message, c);
    forall id | Shown(r, c, id) ensures InCache(r, c, TimeOf(r, id)) || InRow(r, c, TimeOf(r, id)) {
      FreshAt(db, e, private, now, id);
      if id != e.key.id { assert Shown(db, c, id); }
    }
  }

  lemma ConfirmRow(db: DB, m: Message, now: Time, c: string)
    requires ConfirmSendTx(db, m, now).Done? && Floors(db, c)
    ensures var r := ConfirmSendTx(db, m, now).db; Floors(r, c) && RowRises(db, r, c)
  {
    var r := ConfirmSendTx(db, m, now).db;
    ConfirmFrame(db, m, now, Key(ConversationKind, c));
    forall id | Shown(r, c, id) ensures Shown(db, c, id) && TimeOf(r, id) == TimeOf(db, id) {
      ConfirmFrame(db, m, now, Key(MessageKind, id));
    }
    FloorStays(db, r, c);
  }

  lemma ApplyRow(db: DB, e: Incoming, private: map<string, Bytes>, watermark: Option<nat>, now: Time, c: string)
    requires WellFormed(e) && Floors(db, c) && Apply(db, e, private, watermark, now).Done?
    ensures var r := Apply(db, e, private, watermark, now).db; Floors(r, c) && RowRises(db, r, c)
  {
    if e.key.kind.MessageKind? {
      var applied := if Stale(db, e.key, watermark) then Done(db, false) else ApplyFresh(db, e, private, now);
      if !Stale(db, e.key, watermark) {
        FreshRow(db, e, private, now, c);
        FreshMessages(db, e, private, now, c);
        FreshFrame(db, e, private, now, Key(ConversationKind, c));
      }
      ConfirmRow(applied.db, e.data.message, now, c);
    } else {
      var r := Apply(db, e, private, watermark, now).db;
      if !Stale(db, e.key, watermark) { FreshRow(db, e, private, now, c); }
      forall id | Shown(r, c, id) ensures Shown(db, c, id) && TimeOf(r, id) == TimeOf(db, id) {
        ApplyNonMessage(db, e, private, watermark, now, id);
      }
      ApplyNonMessage(db, e, private, watermark, now, "");
      FloorStays(db, r, c);
    }
  }

  // ---- FinishConversation ----

  predicate ReachesTime(data: Data, time: Time)
  {
    data.ConversationData? && data.conversation.schema == SCHEMA && data.conversation.updated >= time
  }

  /** The provider's row is fenced off, or no earlier than its cached message and every session message only a row covers. */
  ghost predicate ResultReaches(db: DB, e: Incoming, mark: nat)
  {
    || Stale(db, e.key, Some(mark))
    || (&& (e.data.ConversationData? && e.data.conversation.schema == SCHEMA && e.key.id in db.newest ==>
              ReachesTime(e.data, db.newest[e.key.id].time))
        && (forall id :: Shown(db, e.key.id, id) ==>
              InCache(db, e.key.id, TimeOf(db, id)) || ReachesTime(e.data, TimeOf(db, id))))
  }

  lemma FinishMessages(db: DB, id: string, e: Incoming, private: map<string, Bytes>, mark: nat, now: Time, c: string, x: string)
    requires FinishConversation(db, id, e, private, mark, now).Done?
    ensures var r := FinishConversation(db, id, e, private, mark, now).db;
      && r.newest == db.newest
      && (Shown(r, c, x) <==> Shown(db, c, x)) && (Shown(db, c, x) ==> TimeOf(r, x) == TimeOf(db, x))
  {
    FinishConversationFrame(db, id, e, private, mark, now, Key(MessageKind, x));
    ResultFrame(db, e, private, mark, now, Key(MessageKind, x));
  }

  lemma FinishRow(db: DB, id: string, e: Incoming, private: map<string, Bytes>, mark: nat, now: Time)
    requires FinishConversation(db, id, e, private, mark, now).Done?
    ensures var r := FinishConversation(db, id, e, private, mark, now).db;
      && EntityCurrent(r, e.key)
      && (!Stale(db, e.key, Some(mark)) ==> e.key in r.log.latest && r.log.latest[e.key] == e.data)
      && (Stale(db, e.key, Some(mark)) ==> SameAt(db.log, r.log, e.key))
  {
    FinishConversationFrame(db, id, e, private, mark, now, e.key);
    ResultFrame(db, e, private, mark, now, e.key);
  }

  /**
   * FinishConversation stores the provider's row as it is, without the preview a
   * newer message already gave it: the row stays no earlier than its messages
   * if and only if the provider's row already was.
   */
  lemma FinishFloorIff(db: DB, id: string, e: Incoming, private: map<string, Bytes>, mark: nat, now: Time)
    requires Floors(db, e.key.id) && FinishConversation(db, id, e, private, mark, now).Done?
    ensures Floors(FinishConversation(db, id, e, private, mark, now).db, e.key.id) <==> ResultReaches(db, e, mark)
  {
    var r, c := FinishConversation(db, id, e, private, mark, now).db, e.key.id;
    FinishRow(db, id, e, private, mark, now);
    FinishMessages(db, id, e, private, mark, now, c, "");
    forall x ensures (Shown(r, c, x) <==> Shown(db, c, x)) && (Shown(db, c, x) ==> TimeOf(r, x) == TimeOf(db, x)) {
      FinishMessages(db, id, e, private, mark, now, c, x);
    }
    if Stale(db, e.key, Some(mark)) {
      FloorStays(db, r, c);
    } else {
      forall x | Shown(db, c, x) ensures InRow(r, c, TimeOf(r, x)) <==> ReachesTime(e.data, TimeOf(db, x)) {
        assert Shown(r, c, x);
      }
    }
  }

  lemma FinishFloors(db: DB, id: string, e: Incoming, private: map<string, Bytes>, mark: nat, now: Time, c: string)
    requires Floors(db, c) && ResultReaches(db, e, mark) && FinishConversation(db, id, e, private, mark, now).Done?
    ensures Floors(FinishConversation(db, id, e, private, mark, now).db, c)
  {
    var r := FinishConversation(db, id, e, private, mark, now).db;
    if c == e.key.id {
      FinishFloorIff(db, id, e, private, mark, now);
    } else {
      FinishConversationFrame(db, id, e, private, mark, now, Key(ConversationKind, c));
      ResultFrame(db, e, private, mark, now, Key(ConversationKind, c));
      forall x | Shown(r, c, x) ensures Shown(db, c, x) && TimeOf(r, x) == TimeOf(db, x) {
        FinishMessages(db, id, e, private, mark, now, c, x);
      }
      FloorStays(db, r, c);
    }
  }

  // ---- adoption ----

  /** A message of c an earlier session left, with something to show. */
  predicate LeftShown(db: DB, c: string, id: string)
  {
    LeftMessage(db, id)
    && var m := db.log.latest[Key(MessageKind, id)].message; m.conversationID == c && PreviewSource(m).Some?
  }

  /** Every message of c left behind is covered by the cache or by the stored row, the session's or not. */
  ghost predicate AdoptsBelow(db: DB, c: string)
  {
    forall id :: LeftShown(db, c, id) ==>
      var time := db.log.latest[Key(MessageKind, id)].message.time;
      InCache(db, c, time) || (IsConversation(db, c) && RowOf(db, c).updated >= time)
  }

  lemma AdoptRow(db: DB, c: string)
    ensures var r := Commit(db, AdoptStoredRecords(db));
      && r == db.(own := r.own) && RowRises(db, r, c)
      && (IsConversation(db, c) && db.own.epoch > 0 ==> EntityCurrent(r, Key(ConversationKind, c)))
  {
    var k := Key(ConversationKind, c);
    assert k in OwnedKeys(db) <==> k in db.log.latest.Keys && Owned(k.kind);
  }

  /**
   * Adoption makes the session answer for messages it never saw arrive: rows stay
   * no earlier than their messages if and only if no message it claims is later
   * than both its conversation's cached message and the stored row.
   */
  lemma AdoptFloorIff(db: DB, c: string)
    requires Floors(db, c)
    ensures Floors(Commit(db, AdoptStoredRecords(db)), c) <==> AdoptsBelow(db, c)
  {
    var r := Commit(db, AdoptStoredRecords(db));
    AdoptRow(db, c);
    forall id ensures Shown(r, c, id) <==> Shown(db, c, id) || LeftShown(db, c, id) { AdoptAt(db, id); }
    if AdoptsBelow(db, c) {
      forall id | Shown(r, c, id) ensures InCache(r, c, TimeOf(r, id)) || InRow(r, c, TimeOf(r, id)) {
        assert Shown(db, c, id) || LeftShown(db, c, id);
      }
    } else {
      var id :| LeftShown(db, c, id)
        && var time := db.log.latest[Key(MessageKind, id)].message.time;
           !(InCache(db, c, time) || (IsConversation(db, c) && RowOf(db, c).updated >= time));
      assert Shown(r, c, id);
    }
  }

  // ---- every transaction, every run ----

  ghost predicate Grounded(db: DB, t: Txn)
  {
    match t
    case ApplyTxn(e, _, _, _) => WellFormed(e)
    case FinishConversationTxn(_, e, _, mark, _) => ResultReaches(db, e, mark)
    case AdoptTxn => forall c :: AdoptsBelow(db, c)
    case _ => true
  }

  lemma OtherRow(db: DB, t: Txn, c: string)
    requires Bookkeeping(t) && !t.AdoptTxn? && !(t.SavePairedTxn? && t.newPhone) && Floors(db, c)
    ensures Floors(Step(db, t), c) && RowRises(db, Step(db, t), c)
  {
    var r := Step(db, t);
    StepFrame(db, t, Key(ConversationKind, c));
    StepTable(db, t, "");
    if t.SavePairedTxn? && SavePairedSession(db, t.session, false, t.now).Done? {
      SavePairedFrame(db, t.session, false, t.now, Key(ConversationKind, c));
    }
    forall id | Shown(r, c, id) ensures Shown(db, c, id) && TimeOf(r, id) == TimeOf(db, id) { StepTable(db, t, id); }
    FloorStays(db, r, c);
  }

  lemma ReadRow(db: DB, id: string, through: Time, now: Time, c: string)
    requires Floors(db, c) && ReadConversation(db, id, through, now).Done?
    ensures var r := ReadConversation(db, id, through, now).db; Floors(r, c) && RowRises(db, r, c)
  {
    var r := ReadConversation(db, id, through, now).db;
    UpdateReaches(db, id, ReadThrough(through), now, c);
    RowFrame(db, id, ReadThrough(through), now, Key(ConversationKind, c));
    forall x | Shown(r, c, x) ensures Shown(db, c, x) && TimeOf(r, x) == TimeOf(db, x) {
      RowFrame(db, id, ReadThrough(through), now, Key(MessageKind, x));
    }
    FloorStays(db, r, c);
  }

  lemma StepFloors(db: DB, t: Txn, c: string)
    requires Floors(db, c) && Grounded(db, t) && Counters.Stamped(db.own)
    ensures Floors(Step(db, t), c)
  {
    if t.ApplyTxn? {
      if Apply(db, t.e, t.private, t.watermark, t.now).Done? { ApplyRow(db, t.e, t.private, t.watermark, t.now, c); }
    } else if t.ReadTxn? {
      if ReadConversation(db, t.id, t.through, t.now).Done? { ReadRow(db, t.id, t.through, t.now, c); }
    } else if t.FinishConversationTxn? {
      if FinishConversation(db, t.id, t.e, t.private, t.mark, t.now).Done? { FinishFloors(db, t.id, t.e, t.private, t.mark, t.now, c); }
    } else if t.SavePairedTxn? && t.newPhone {
      if SavePairedSession(db, t.session, true, t.now).Done? {
        NewPhoneTable(db, t.session, t.now);
        forall id ensures !Shown(Step(db, t), c, id) { CurrentAt(Step(db, t), id); }
      }
    } else if t.AdoptTxn? {
      assert AdoptsBelow(db, c);
      AdoptFloorIff(db, c);
    } else {
      OtherRow(db, t, c);
    }
  }

  /** Within a session, and but for FinishConversation, no transaction moves a row back in time. */
  lemma UpdatedNeverFalls(db: DB, t: Txn, c: string)
    requires Floors(db, c) && Grounded(db, t) && !t.FinishConversationTxn? && !(t.SavePairedTxn? && t.newPhone)
    ensures RowRises(db, Step(db, t), c)
  {
    if t.ApplyTxn? {
      if Apply(db, t.e, t.private, t.watermark, t.now).Done? { ApplyRow(db, t.e, t.private, t.watermark, t.now, c); }
    } else if t.ReadTxn? {
      if ReadConversation(db, t.id, t.through, t.now).Done? { ReadRow(db, t.id, t.through, t.now, c); }
    } else if t.AdoptTxn? {
      AdoptRow(db, c);
    } else {
      OtherRow(db, t, c);
    }
  }

  ghost predicate AllGrounded(db: DB, ts: seq<Txn>)
    decreases |ts|
  {
    ts == [] || (Grounded(db, ts[0]) && AllGrounded(Step(db, ts[0]), ts[1..]))
  }

  /** Over every grounded run a row is no earlier than any message of its session. */
  lemma {:induction false} RunFloors(db: DB, ts: seq<Txn>, c: string)
    requires Floors(db, c) && AllGrounded(db, ts) && Counters.Stamped(db.own)
    ensures Floors(Run(db, ts), c)
    decreases |ts|
  {
    if ts != [] {
      StepFloors(db, ts[0], c);
      Counters.StepStamped(db, ts[0]);
      RunFloors(Step(db, ts[0]), ts[1..], c);
    }
  }

  /** The bound the fast search relies on. */
  lemma RowNoEarlierThanMessages(ts: seq<Txn>, c: string, id: string)
    requires AllGrounded(EMPTY, ts)
    requires var db := Run(EMPTY, ts); IsConversation(db, c) && Shown(db, c, id)
    ensures RowOf(Run(EMPTY, ts), c).updated >= TimeOf(Run(EMPTY, ts), id)
  {
    RunFloors(EMPTY, ts, c);
  }

  ghost predicate SameSession(t: Txn)
  {
    !t.FinishConversationTxn? && !(t.SavePairedTxn? && t.newPhone)
  }

  /** Over a whole session without finished conversation requests, a row's time only rises. */
  lemma {:induction false} RunRises(db: DB, ts: seq<Txn>, c: string)
    requires Floors(db, c) && AllGrounded(db, ts) && Counters.Stamped(db.own)
    requires forall t :: t in ts ==> SameSession(t)
    ensures RowRises(db, Run(db, ts), c)
    decreases |ts|
  {
    if ts != [] {
      assert SameSession(ts[0]);
      StepFloors(db, ts[0], c);
      UpdatedNeverFalls(db, ts[0], c);
      Counters.StepStamped(db, ts[0]);
      RunRises(Step(db, ts[0]), ts[1..], c);
    }
  }
}
