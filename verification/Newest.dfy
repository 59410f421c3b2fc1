/** The newest-message cache against recomputing it from the stored messages. */
module Newest {
  import opened Records
  import opened Buckets
  import opened StoreSpec
  import opened Frames
  import Counters

  // ---- the cache over any set of messages ----

  type MessageTable = map<string, Message>

  ghost predicate ById(messages: MessageTable)
  {
    forall id :: id in messages ==> messages[id].id == id
  }

  predicate ShownIn(messages: MessageTable, c: string, id: string)
  {
    id in messages && messages[id].conversationID == c && PreviewSource(messages[id]).Some?
  }

  /** The entry for c describes a stored message of c, and no stored message of c is later in (time, id). */
  ghost predicate ExactAt(newest: map<string, LatestMessage>, messages: MessageTable, c: string)
  {
    && (c in newest ==>
          ShownIn(messages, c, newest[c].messageID) && PreviewSource(messages[newest[c].messageID]).value == newest[c])
    && (forall id :: ShownIn(messages, c, id) ==>
          c in newest && !Ahead(PreviewSource(messages[id]).value, newest[c]))
  }

  ghost predicate ExactCache(newest: map<string, LatestMessage>, messages: MessageTable)
  {
    forall c :: ExactAt(newest, messages, c)
  }

  lemma AheadTotal(a: LatestMessage, b: LatestMessage)
    ensures !(Ahead(a, b) && Ahead(b, a))
    ensures !Ahead(a, b) && !Ahead(b, a) ==> a.time == b.time && a.messageID == b.messageID
  {
    LessTotal(a.messageID, b.messageID);
  }

  lemma AheadTransitive(a: LatestMessage, b: LatestMessage, c: LatestMessage)
    requires !Ahead(a, b) && !Ahead(b, c)
    ensures !Ahead(a, c)
  {
    LessTotal(a.messageID, b.messageID);
    LessTotal(b.messageID, c.messageID);
    LessTotal(a.messageID, c.messageID);
    if Less(a.messageID, b.messageID) && Less(b.messageID, c.messageID) {
      LessTransitive(a.messageID, b.messageID, c.messageID);
    }
  }

  /** Exactness pins the cache down: it cannot depend on the order messages arrived in. */
  lemma ExactIsUnique(a: map<string, LatestMessage>, b: map<string, LatestMessage>, messages: MessageTable)
    requires ExactCache(a, messages) && ExactCache(b, messages)
    ensures a == b
  {
    forall c ensures (c in a <==> c in b) && (c in a ==> a[c] == b[c]) {
      assert ExactAt(a, messages, c) && ExactAt(b, messages, c);
      if c in a && c in b { AheadTotal(a[c], b[c]); }
    }
  }

  /** The message the cache shows goes blank, moves to another conversation, or moves back in time. */
  predicate Forgets(newest: map<string, LatestMessage>, messages: MessageTable, m: Message)
  {
    && m.id in messages
    && var c := messages[m.id].conversationID;
    && c in newest && newest[c].messageID == m.id
    && !(PreviewSource(m).Some? && m.conversationID == c && m.time >= newest[c].time)
  }

  lemma RememberAt(newest: map<string, LatestMessage>, messages: MessageTable, m: Message, c: string)
    requires ById(messages) && ExactCache(newest, messages) && !Forgets(newest, messages, m)
    ensures ExactAt(Remember(newest, m), messages[m.id := m], c)
  {
    var next, table := Remember(newest, m), messages[m.id := m];
    assert ExactAt(newest, messages, c);
    forall id | ShownIn(table, c, id) ensures c in next && !Ahead(PreviewSource(table[id]).value, next[c]) {
      if id != m.id {
        assert ShownIn(messages, c, id);
        if next[c] != newest[c] {
          AheadTransitive(PreviewSource(messages[id]).value, newest[c], next[c]);
        }
      } else {
        LessTotal(m.id, m.id);
        if c in newest && next[c] == newest[c] { AheadTotal(newest[c], PreviewSource(m).value); }
      }
    }
  }

  lemma ForgottenIsWrong(newest: map<string, LatestMessage>, messages: MessageTable, m: Message)
    requires ById(messages) && ExactCache(newest, messages) && Forgets(newest, messages, m)
    ensures !ExactAt(Remember(newest, m), messages[m.id := m], messages[m.id].conversationID)
  {
    var c := messages[m.id].conversationID;
    assert ExactAt(newest, messages, c);
  }

  /** Folding one message in keeps the cache exact if and only if it does not withdraw the message shown. */
  lemma RememberExactIff(newest: map<string, LatestMessage>, messages: MessageTable, m: Message)
    requires ById(messages) && ExactCache(newest, messages)
    ensures ExactCache(Remember(newest, m), messages[m.id := m]) <==> !Forgets(newest, messages, m)
  {
    if Forgets(newest, messages, m) {
      ForgottenIsWrong(newest, messages, m);
    } else {
      var next, table := Remember(newest, m), messages[m.id := m];
      forall c ensures ExactAt(next, table, c) { RememberAt(newest, messages, m, c); }
    }
  }

  // ---- rebuilding ----

  function Table(messages: seq<Message>): MessageTable
  {
    if messages == [] then map[]
    else Table(messages[..|messages| - 1])[messages[|messages| - 1].id := messages[|messages| - 1]]
  }

  ghost predicate Distinct(messages: seq<Message>)
  {
    forall i, j :: 0 <= i < j < |messages| ==> messages[i].id != messages[j].id
  }

  lemma {:induction false} TableHolds(messages: seq<Message>, id: string)
    ensures id in Table(messages) ==> Table(messages)[id].id == id && Table(messages)[id] in messages
    ensures (exists i :: 0 <= i < |messages| && messages[i].id == id) <==> id in Table(messages)
  {
    if messages != [] {
      var n := |messages| - 1;
      TableHolds(messages[..n], id);
      if id in Table(messages[..n]) {
        var i :| 0 <= i < n && messages[..n][i].id == id;
        assert messages[i].id == id;
      }
      if i :| 0 <= i < |messages| && messages[i].id == id {
        if i < n { assert messages[..n][i].id == id; }
      }
      if id == messages[n].id { assert messages[n].id == id; }
    }
  }

  lemma {:induction false} NewestFromLast(messages: seq<Message>, newest: map<string, LatestMessage>)
    requires messages != []
    ensures NewestFrom(messages, newest) == Remember(NewestFrom(messages[..|messages| - 1], newest), messages[|messages| - 1])
  {
    var n := |messages| - 1;
    if n > 0 {
      NewestFromLast(messages[1..], Remember(newest, messages[0]));
      assert messages[1..][..n - 1] == messages[..n][1..];
    }
  }

  /** Rebuilding from any list of messages, in any order, gives the exact cache of that list. */
  lemma {:induction false} RebuildExact(messages: seq<Message>)
    requires Distinct(messages)
    ensures ExactCache(NewestFrom(messages, map[]), Table(messages))
  {
    if messages != [] {
      var n := |messages| - 1;
      var earlier, m := messages[..n], messages[n];
      RebuildExact(earlier);
      NewestFromLast(messages, map[]);
      forall id | id in Table(earlier) ensures Table(earlier)[id].id == id { TableHolds(earlier, id); }
      TableHolds(earlier, m.id);
      assert m.id !in Table(earlier);
      RememberExactIff(NewestFrom(earlier, map[]), Table(earlier), m);
    }
  }

  // ---- the store ----

  /** The messages of the current session, by id. */
  function CurrentMessages(db: DB): MessageTable
  {
    map id | id in KindIds(db.log.latest, MessageKind) && IsCurrent(db, id) :: db.log.latest[Key(MessageKind, id)].message
  }

  predicate IsCurrent(db: DB, id: string)
  {
    var k := Key(MessageKind, id);
    k in db.log.latest && db.log.latest[k].MessageData? && EntityCurrent(db, k)
  }

  /** Messages are stored under their own ids. */
  ghost predicate MessageNamed(db: DB, id: string)
  {
    var k := Key(MessageKind, id);
    k in db.log.latest ==> db.log.latest[k].MessageData? && db.log.latest[k].message.id == id
  }

  lemma CurrentAt(db: DB, id: string)
    ensures id in CurrentMessages(db) <==> IsCurrent(db, id)
    ensures IsCurrent(db, id) ==> CurrentMessages(db)[id] == db.log.latest[Key(MessageKind, id)].message
  {
    KindIdMember(db.log.latest, MessageKind, id);
  }

  ghost predicate MessagesNamed(db: DB)
  {
    forall id :: MessageNamed(db, id)
  }

  lemma CurrentNamed(db: DB)
    requires MessagesNamed(db)
    ensures ById(CurrentMessages(db))
  {
    forall id | id in CurrentMessages(db) ensures CurrentMessages(db)[id].id == id {
      CurrentAt(db, id);
      assert MessageNamed(db, id);
    }
  }

  /** The cache is what recomputing it from this session's messages would give. */
  ghost predicate CacheExact(db: DB)
  {
    ExactCache(db.newest, CurrentMessages(db))
  }

  lemma RefreshRemembers(db: DB, m: Message, isNew: bool, status: string, now: Time)
    requires RefreshConversationTx(db, m, isNew, status, now).Done?
    ensures RefreshConversationTx(db, m, isNew, status, now).db.newest == Remember(db.newest, m)
  {
    var source := PreviewSource(m);
    if source.Some? && !(m.conversationID in db.newest && Ahead(db.newest[m.conversationID], source.value)) {
      RowFrame(db.(newest := db.newest[m.conversationID := source.value]), m.conversationID,
               Merge(source.value, UnreadAfter(m, isNew, status, now)), now, Key(ConversationKind, ""));
    }
  }

  lemma FreshRemembers(db: DB, e: Incoming, private: map<string, Bytes>, now: Time)
    requires e.key.kind.MessageKind? && e.data.MessageData? && ApplyFresh(db, e, private, now).Done?
    ensures ApplyFresh(db, e, private, now).db.newest == Remember(db.newest, e.data.message)
  {
    ClaimFrame(db, e, private, now, e.key);
    RefreshRemembers(ClaimAndStore(db, e, private, now).db, e.data.message,
                     e.key !in db.log.latest && !e.historical, PreviousStatus(db, e.key), now);
  }

  lemma FreshAt(db: DB, e: Incoming, private: map<string, Bytes>, now: Time, id: string)
    requires e.key.kind.MessageKind? && ApplyFresh(db, e, private, now).Done?
    ensures var r := ApplyFresh(db, e, private, now).db;
      && (IsCurrent(r, id) <==> IsCurrent(db, id) || id == e.key.id)
      && (id == e.key.id ==> r.log.latest[Key(MessageKind, id)] == e.data)
      && (id != e.key.id ==> SameAt(db.log, r.log, Key(MessageKind, id)))
  {
    FreshFrame(db, e, private, now, Key(MessageKind, id));
  }

  /** Applying a message changes the session's table at that message only, and folds it into the cache. */
  lemma FreshTable(db: DB, e: Incoming, private: map<string, Bytes>, now: Time)
    requires e.key.kind.MessageKind? && ApplyFresh(db, e, private, now).Done? && e.data.MessageData?
    ensures CurrentMessages(ApplyFresh(db, e, private, now).db) == CurrentMessages(db)[e.key.id := e.data.message]
  {
    var r := ApplyFresh(db, e, private, now).db;
    forall id ensures (id in CurrentMessages(r) <==> id in CurrentMessages(db) || id == e.key.id)
                   && (id in CurrentMessages(r) ==> CurrentMessages(r)[id] == CurrentMessages(db)[e.key.id := e.data.message][id]) {
      FreshAt(db, e, private, now, id);
      CurrentAt(db, id);
      CurrentAt(r, id);
    }
  }

  /** Two states with the same cache and the same session messages agree on exactness. */
  lemma SameTable(a: DB, b: DB)
    requires b.newest == a.newest
    requires forall id :: (IsCurrent(b, id) <==> IsCurrent(a, id)) && SameAt(a.log, b.log, Key(MessageKind, id))
    ensures CurrentMessages(b) == CurrentMessages(a)
  {
    forall id ensures (id in CurrentMessages(b) <==> id in CurrentMessages(a))
                   && (id in CurrentMessages(b) ==> CurrentMessages(b)[id] == CurrentMessages(a)[id]) {
      CurrentAt(a, id);
      CurrentAt(b, id);
      assert SameAt(a.log, b.log, Key(MessageKind, id));
    }
  }

  lemma ConfirmKeepsCache(db: DB, m: Message, now: Time)
    requires ConfirmSendTx(db, m, now).Done?
    ensures CurrentMessages(ConfirmSendTx(db, m, now).db) == CurrentMessages(db)
    ensures ConfirmSendTx(db, m, now).db.newest == db.newest
  {
    var r := ConfirmSendTx(db, m, now).db;
    ConfirmFrame(db, m, now, Key(MessageKind, ""));
    forall id ensures (IsCurrent(r, id) <==> IsCurrent(db, id)) && SameAt(db.log, r.log, Key(MessageKind, id)) {
      ConfirmFrame(db, m, now, Key(MessageKind, id));
    }
    SameTable(db, r);
  }

  /** A message stored under its own id. */
  predicate WellNamed(e: Incoming)
  {
    e.key.kind.MessageKind? && e.data.MessageData? ==> e.data.message.id == e.key.id
  }

  /**
   * Applying a fresh message keeps the cache exact if and only if it does not
   * blank, move to another conversation or move back in time the very message the cache shows.
   */
  lemma ApplyExactIff(db: DB, e: Incoming, private: map<string, Bytes>, watermark: Option<nat>, now: Time)
    requires CacheExact(db) && MessagesNamed(db) && WellNamed(e) && e.key.kind.MessageKind?
    requires Apply(db, e, private, watermark, now).Done? && !Stale(db, e.key, watermark)
    ensures CacheExact(Apply(db, e, private, watermark, now).db)
       <==> !Forgets(db.newest, CurrentMessages(db), e.data.message)
  {
    var kept := ApplyFresh(db, e, private, now).db;
    FreshTable(db, e, private, now);
    FreshRemembers(db, e, private, now);
    CurrentNamed(db);
    RememberExactIff(db.newest, CurrentMessages(db), e.data.message);
    ConfirmKeepsCache(kept, e.data.message, now);
  }

  // ---- adoption ----

  /** A stored message an earlier session left, which only adoption would claim unseen. */
  predicate LeftMessage(db: DB, id: string)
  {
    var k := Key(MessageKind, id);
    k in db.log.latest && db.log.latest[k].MessageData? && !EntityCurrent(db, k)
  }

  predicate AheadOfCache(newest: map<string, LatestMessage>, m: Message)
  {
    PreviewSource(m).Some?
    && !(m.conversationID in newest && !Ahead(PreviewSource(m).value, newest[m.conversationID]))
  }

  /** No message left behind is later than what the cache shows for its conversation. */
  ghost predicate NoneLater(db: DB)
  {
    forall id :: LeftMessage(db, id) ==> !AheadOfCache(db.newest, db.log.latest[Key(MessageKind, id)].message)
  }

  lemma AdoptAt(db: DB, id: string)
    ensures var r := Commit(db, AdoptStoredRecords(db));
      && r == db.(own := r.own)
      && (IsCurrent(r, id) <==> IsCurrent(db, id) || LeftMessage(db, id))
  {
    var k := Key(MessageKind, id);
    assert k in OwnedKeys(db) <==> k in db.log.latest.Keys && Owned(k.kind);
  }

  lemma AdoptTableAt(db: DB, id: string)
    ensures var before, after := CurrentMessages(db), CurrentMessages(Commit(db, AdoptStoredRecords(db)));
      && (id in after <==> id in before || LeftMessage(db, id))
      && (id in after ==> after[id] == db.log.latest[Key(MessageKind, id)].message)
      && (id in before ==> after[id] == before[id])
  {
    AdoptAt(db, id);
    CurrentAt(db, id);
    CurrentAt(Commit(db, AdoptStoredRecords(db)), id);
  }

  /**
   * Adoption claims messages without looking at them: the cache survives if and
   * only if none of those it claims is later than what the cache shows.
   */
  lemma AdoptExactIff(db: DB)
    requires CacheExact(db)
    ensures CacheExact(Commit(db, AdoptStoredRecords(db))) <==> NoneLater(db)
  {
    var r := Commit(db, AdoptStoredRecords(db));
    var before, after := CurrentMessages(db), CurrentMessages(r);
    AdoptAt(db, "");
    if NoneLater(db) {
      forall c ensures ExactAt(r.newest, after, c) { AdoptKeepsExactAt(db, c); }
    } else {
      var id :| LeftMessage(db, id) && AheadOfCache(db.newest, db.log.latest[Key(MessageKind, id)].message);
      AdoptTableAt(db, id);
      assert ShownIn(after, after[id].conversationID, id);
      assert !ExactAt(r.newest, after, after[id].conversationID);
    }
  }

  lemma AdoptKeepsExactAt(db: DB, c: string)
    requires CacheExact(db) && NoneLater(db)
    ensures ExactAt(db.newest, CurrentMessages(Commit(db, AdoptStoredRecords(db))), c)
  {
    var before, after := CurrentMessages(db), CurrentMessages(Commit(db, AdoptStoredRecords(db)));
    assert ExactAt(db.newest, before, c);
    if c in db.newest { AdoptTableAt(db, db.newest[c].messageID); }
    forall id | ShownIn(after, c, id) ensures c in db.newest && !Ahead(PreviewSource(after[id]).value, db.newest[c]) {
      AdoptTableAt(db, id);
      if id in before {
        assert ShownIn(before, c, id);
      } else {
        assert !AheadOfCache(db.newest, after[id]);
      }
    }
  }

  // ---- every run ----

  /** What the session's exactness asks of one transaction. */
  ghost predicate Steady(db: DB, t: Txn)
  {
    match t
    case ApplyTxn(e, _, watermark, _) =>
      WellNamed(e) && (e.key.kind.MessageKind? && e.data.MessageData? && !Stale(db, e.key, watermark) ==>
                         !Forgets(db.newest, CurrentMessages(db), e.data.message))
    case AdoptTxn => NoneLater(db)
    case _ => true
  }

  lemma ApplyNonMessage(db: DB, e: Incoming, private: map<string, Bytes>, watermark: Option<nat>, now: Time, id: string)
    requires Apply(db, e, private, watermark, now).Done?
    requires !e.key.kind.MessageKind? || Stale(db, e.key, watermark)
    ensures var r := Apply(db, e, private, watermark, now).db;
      r.newest == db.newest && SameAt(db.log, r.log, Key(MessageKind, id)) && (IsCurrent(r, id) <==> IsCurrent(db, id))
  {
    var k := Key(MessageKind, id);
    if !Stale(db, e.key, watermark) {
      FreshFrame(db, e, private, now, k);
      ClaimFrame(db, e, private, now, k);
    } else if e.key.kind.MessageKind? {
      ConfirmFrame(db, e.data.message, now, k);
    }
  }

  ghost predicate TableStays(db: DB, r: DB, id: string)
  {
    r.newest == db.newest && SameAt(db.log, r.log, Key(MessageKind, id)) && (IsCurrent(r, id) <==> IsCurrent(db, id))
  }

  lemma RowTable(db: DB, t: Txn, id: string)
    requires t.ReadTxn? || t.FinishConversationTxn?
    ensures TableStays(db, Step(db, t), id)
  {
    var k := Key(MessageKind, id);
    match t
    case ReadTxn(c, through, now) =>
      if ReadConversation(db, c, through, now).Done? { RowFrame(db, c, ReadThrough(through), now, k); }
    case FinishConversationTxn(o, e, private, mark, now) =>
      if FinishConversation(db, o, e, private, mark, now).Done? {
        FinishConversationFrame(db, o, e, private, mark, now, k);
        ResultFrame(db, e, private, mark, now, k);
      }
  }

  lemma StepTable(db: DB, t: Txn, id: string)
    requires !t.ApplyTxn? && !t.AdoptTxn? && !(t.SavePairedTxn? && t.newPhone)
    ensures TableStays(db, Step(db, t), id)
  {
    var k := Key(MessageKind, id);
    if t.ReadTxn? || t.FinishConversationTxn? {
      RowTable(db, t, id);
    } else if t.SavePairedTxn? {
      if SavePairedSession(db, t.session, false, t.now).Done? { SavePairedFrame(db, t.session, false, t.now, k); }
    } else {
      StepFrame(db, t, k);
    }
  }

  /** A new phone starts with no messages of its own, and an empty cache. */
  lemma NewPhoneTable(db: DB, session: Bytes, now: Time)
    requires Counters.Stamped(db.own) && SavePairedSession(db, session, true, now).Done?
    ensures var r := SavePairedSession(db, session, true, now).db; r.newest == map[] && CurrentMessages(r) == map[]
  {
    var r := SavePairedSession(db, session, true, now).db;
    SavePairedFrame(db, session, true, now, Key(MessageKind, ""));
    forall id ensures id !in CurrentMessages(r) { CurrentAt(r, id); }
  }

  lemma StepNamed(db: DB, t: Txn, id: string)
    requires MessageNamed(db, id) && (t.ApplyTxn? ==> WellNamed(t.e))
    ensures MessageNamed(Step(db, t), id)
  {
    var k := Key(MessageKind, id);
    if t.ApplyTxn? {
      if Apply(db, t.e, t.private, t.watermark, t.now).Done? {
        if t.e.key.kind.MessageKind? && !Stale(db, t.e.key, t.watermark) {
          FreshAt(db, t.e, t.private, t.now, id);
          ConfirmFrame(ApplyFresh(db, t.e, t.private, t.now).db, t.e.data.message, t.now, k);
        } else {
          ApplyNonMessage(db, t.e, t.private, t.watermark, t.now, id);
        }
      }
    } else if t.AdoptTxn? || (t.SavePairedTxn? && t.newPhone) {
      StepFrame(db, t, k);
    } else {
      StepTable(db, t, id);
    }
  }

  lemma AppliedExact(db: DB, e: Incoming, private: map<string, Bytes>, watermark: Option<nat>, now: Time, r: DB)
    requires CacheExact(db) && MessagesNamed(db) && WellNamed(e)
    requires e.key.kind.MessageKind? && e.data.MessageData? && !Stale(db, e.key, watermark) ==>
      !Forgets(db.newest, CurrentMessages(db), e.data.message)
    requires Apply(db, e, private, watermark, now).Done? && r == Apply(db, e, private, watermark, now).db
    ensures CacheExact(r)
  {
    if e.key.kind.MessageKind? && !Stale(db, e.key, watermark) {
      ApplyExactIff(db, e, private, watermark, now);
    } else {
      forall id ensures (IsCurrent(r, id) <==> IsCurrent(db, id)) && SameAt(db.log, r.log, Key(MessageKind, id)) {
        ApplyNonMessage(db, e, private, watermark, now, id);
      }
      ApplyNonMessage(db, e, private, watermark, now, "");
      SameTable(db, r);
    }
  }

  lemma OtherExact(db: DB, t: Txn, r: DB)
    requires CacheExact(db) && !t.ApplyTxn? && !t.AdoptTxn? && !(t.SavePairedTxn? && t.newPhone) && r == Step(db, t)
    ensures CacheExact(r)
  {
    forall id ensures (IsCurrent(r, id) <==> IsCurrent(db, id)) && SameAt(db.log, r.log, Key(MessageKind, id)) {
      StepTable(db, t, id);
    }
    StepTable(db, t, "");
    SameTable(db, r);
  }

  lemma NewPhoneExact(db: DB, session: Bytes, now: Time, r: DB)
    requires CacheExact(db) && Counters.Stamped(db.own) && r == Commit(db, SavePairedSession(db, session, true, now))
    ensures CacheExact(r)
  {
    if SavePairedSession(db, session, true, now).Done? { NewPhoneTable(db, session, now); }
  }

  lemma StepExact(db: DB, t: Txn)
    requires CacheExact(db) && MessagesNamed(db) && Counters.Stamped(db.own) && Steady(db, t)
    ensures CacheExact(Step(db, t))
  {
    var r := Step(db, t);
    if t.ApplyTxn? {
      if Apply(db, t.e, t.private, t.watermark, t.now).Done? { AppliedExact(db, t.e, t.private, t.watermark, t.now, r); }
    } else if t.SavePairedTxn? && t.newPhone {
      NewPhoneExact(db, t.session, t.now, r);
    } else if t.AdoptTxn? {
      AdoptExactIff(db);
    } else {
      OtherExact(db, t, r);
    }
  }

  ghost predicate AllSteady(db: DB, ts: seq<Txn>)
    decreases |ts|
  {
    ts == [] || (Steady(db, ts[0]) && AllSteady(Step(db, ts[0]), ts[1..]))
  }

  /** Over every steady run the cache is the recomputation, through restarts and new phones alike. */
  lemma {:induction false} RunExact(db: DB, ts: seq<Txn>)
    requires CacheExact(db) && MessagesNamed(db) && Counters.Stamped(db.own) && AllSteady(db, ts)
    ensures CacheExact(Run(db, ts)) && MessagesNamed(Run(db, ts))
    decreases |ts|
  {
    if ts != [] {
      var next := Step(db, ts[0]);
      StepExact(db, ts[0]);
      Counters.StepStamped(db, ts[0]);
      forall id ensures MessageNamed(next, id) {
        assert MessageNamed(db, id);
        StepNamed(db, ts[0], id);
      }
      RunExact(next, ts[1..]);
    }
  }

  lemma EmptyExact()
    ensures CacheExact(EMPTY) && MessagesNamed(EMPTY) && Counters.Stamped(EMPTY.own)
  {
    forall id ensures id !in CurrentMessages(EMPTY) { CurrentAt(EMPTY, id); }
    assert CurrentMessages(EMPTY) == map[];
    forall c ensures ExactAt(EMPTY.newest, map[], c) {}
  }

  /** Two histories that end with the same session messages end with the same cache, whatever the order of arrival. */
  lemma ArrivalOrderIrrelevant(a: seq<Txn>, b: seq<Txn>)
    requires AllSteady(EMPTY, a) && AllSteady(EMPTY, b)
    requires CurrentMessages(Run(EMPTY, a)) == CurrentMessages(Run(EMPTY, b))
    ensures Run(EMPTY, a).newest == Run(EMPTY, b).newest
  {
    EmptyExact();
    RunExact(EMPTY, a);
    RunExact(EMPTY, b);
    ExactIsUnique(Run(EMPTY, a).newest, Run(EMPTY, b).newest, CurrentMessages(Run(EMPTY, a)));
  }

  /** A message that keeps its conversation and time, and still shows something, is never forgotten. */
  lemma FixedMessagesAreSteady(newest: map<string, LatestMessage>, messages: MessageTable, m: Message)
    requires ExactCache(newest, messages)
    requires m.id in messages ==>
      PreviewSource(m).Some? && m.conversationID == messages[m.id].conversationID && m.time == messages[m.id].time
    ensures !Forgets(newest, messages, m)
  {
    if m.id in messages { assert ExactAt(newest, messages, messages[m.id].conversationID); }
  }

  // ---- against the rebuild at startup ----

  lemma {:induction false} MessagesAt(db: DB, ids: seq<string>)
    requires forall id :: id in ids ==> Key(MessageKind, id) in db.log.latest && db.log.latest[Key(MessageKind, id)].MessageData?
    ensures |Messages(db, ids)| == |ids|
    ensures forall i :: 0 <= i < |ids| ==> Messages(db, ids)[i] == db.log.latest[Key(MessageKind, ids[i])].message
  {
    if ids != [] { MessagesAt(db, ids[1..]); }
  }

  /** What the rebuild reads: every stored message once. */
  ghost predicate Listing(db: DB, ids: seq<string>, listed: seq<Message>)
  {
    && |listed| == |ids|
    && (forall id :: id in ids <==> Key(MessageKind, id) in db.log.latest)
    && (forall i :: 0 <= i < |ids| ==> IsCurrent(db, ids[i]) && listed[i] == CurrentMessages(db)[ids[i]] && listed[i].id == ids[i])
  }

  lemma ListingAll(db: DB)
    requires MessagesNamed(db) && MessagesReadable(db)
    requires forall id :: Key(MessageKind, id) in db.log.latest ==> IsCurrent(db, id)
    ensures var ids := SortedKeys(KindIds(db.log.latest, MessageKind));
      Listing(db, ids, Messages(db, ids))
  {
    var ids := SortedKeys(KindIds(db.log.latest, MessageKind));
    forall id ensures id in ids <==> Key(MessageKind, id) in db.log.latest { KindIdMember(db.log.latest, MessageKind, id); }
    MessagesAt(db, ids);
    forall i | 0 <= i < |ids|
      ensures IsCurrent(db, ids[i]) && Messages(db, ids)[i] == CurrentMessages(db)[ids[i]] && Messages(db, ids)[i].id == ids[i] {
      assert ids[i] in ids && MessageNamed(db, ids[i]);
      CurrentAt(db, ids[i]);
    }
  }

  lemma ListingTable(db: DB, ids: seq<string>, listed: seq<Message>)
    requires Listing(db, ids, listed) && Sorted(ids)
    ensures Distinct(listed) && Table(listed) == CurrentMessages(db)
  {
    forall i, j | 0 <= i < j < |listed| ensures listed[i].id != listed[j].id { LessTotal(ids[i], ids[j]); }
    forall id ensures (id in Table(listed) <==> id in CurrentMessages(db))
                   && (id in Table(listed) ==> Table(listed)[id] == CurrentMessages(db)[id]) {
      TableHolds(listed, id);
      CurrentAt(db, id);
      if id in ids {
        var i :| 0 <= i < |ids| && ids[i] == id;
        assert listed[i].id == id;
      }
    }
  }

  lemma {:induction false} MergeRowsKeepsCache(db: DB, newest: map<string, LatestMessage>, ids: seq<string>, now: Time)
    requires forall id :: id in ids ==> id in newest
    requires MergeRows(db, newest, ids, now).Done?
    ensures MergeRows(db, newest, ids, now).db.newest == db.newest
    decreases |ids|
  {
    if ids != [] {
      RowFrame(db, ids[0], Merge(newest[ids[0]], None), now, Key(ConversationKind, ids[0]));
      MergeRowsKeepsCache(UpdateConversationTx(db, ids[0], Merge(newest[ids[0]], None), now).db, newest, ids[1..], now);
    }
  }

  /** The rebuild passes over sessions: it reads the messages the session would hold after adopting them all. */
  lemma RebuildReads(db: DB)
    requires MessagesNamed(db) && MessagesReadable(db)
    ensures var all := CurrentMessages(Commit(db, AdoptStoredRecords(db)));
      ExactCache(NewestFrom(Messages(db, SortedKeys(KindIds(db.log.latest, MessageKind))), map[]), all)
  {
    var adopted := Commit(db, AdoptStoredRecords(db));
    var ids := SortedKeys(KindIds(db.log.latest, MessageKind));
    AdoptAt(db, "");
    forall id ensures MessageNamed(adopted, id) && (Key(MessageKind, id) in adopted.log.latest ==> IsCurrent(adopted, id)) {
      assert MessageNamed(db, id);
      AdoptAt(db, id);
    }
    ListingAll(adopted);
    SortedKeysSorted(KindIds(db.log.latest, MessageKind));
    ListingTable(adopted, ids, Messages(adopted, ids));
    RebuildExact(Messages(adopted, ids));
    SameListing(db, adopted, ids);
  }

  lemma {:induction false} SameListing(a: DB, b: DB, ids: seq<string>)
    requires a.log == b.log
    requires forall id :: id in ids ==> Key(MessageKind, id) in a.log.latest && a.log.latest[Key(MessageKind, id)].MessageData?
    ensures Messages(a, ids) == Messages(b, ids)
  {
    if ids != [] { SameListing(a, b, ids[1..]); }
  }

  /**
   * Throwing the cache away and rebuilding it from the stored messages gives the
   * same cache if and only if no message an earlier session left is later than
   * what the cache shows for its conversation.
   */
  lemma RebuildAgreesIff(db: DB, now: Time)
    requires CacheExact(db) && MessagesNamed(db) && EnsureConversationPreviews(db, now).Done?
    ensures EnsureConversationPreviews(db, now).db.newest == db.newest <==> NoneLater(db)
  {
    var newest := NewestFrom(Messages(db, SortedKeys(KindIds(db.log.latest, MessageKind))), map[]);
    RebuildReads(db);
    MergeRowsKeepsCache(db.(newest := newest), newest, SortedKeys(newest.Keys), now);
    AdoptAt(db, "");
    AdoptExactIff(db);
    if NoneLater(db) { ExactIsUnique(newest, db.newest, CurrentMessages(Commit(db, AdoptStoredRecords(db)))); }
  }
}
