/** Reading messages back: the conversation index, and a search that scans only recent conversations. */
module Search {
  import opened Records
  import opened Buckets
  import opened StoreSpec
  import opened Frames
  import opened Newest
  import opened Rows
  import Counters

  // ---- index keys ----

  predicate NulFree(s: string)
  {
    forall i :: 0 <= i < |s| ==> s[i] != '\0'
  }

  /** One separator is enough: the key tells conversation and message apart when conversation ids hold no NUL. */
  lemma {:induction false} IndexKeyInjective(c: string, id: string, d: string, other: string)
    requires NulFree(c) && NulFree(d) && IndexKey(c, id) == IndexKey(d, other)
    ensures c == d && id == other
  {
    assert c == "" ==> IndexKey(c, id)[0] == '\0' && IndexKey(c, id)[1..] == id;
    assert d == "" ==> IndexKey(d, other)[0] == '\0' && IndexKey(d, other)[1..] == other;
    assert c != "" ==> IndexKey(c, id)[0] == c[0];
    assert d != "" ==> IndexKey(d, other)[0] == d[0];
    if c != "" && d != "" {
      assert IndexKey(c, id)[0] == c[0] && IndexKey(c, id)[1..] == IndexKey(c[1..], id);
      assert IndexKey(d, other)[0] == d[0] && IndexKey(d, other)[1..] == IndexKey(d[1..], other);
      IndexKeyInjective(c[1..], id, d[1..], other);
      assert c == [c[0]] + c[1..] && d == [d[0]] + d[1..];
    }
  }

  /** A key found under a conversation's prefix is that conversation's key of the rest. */
  lemma PrefixSplits(key: string, c: string)
    ensures HasPrefix(key, IndexKey(c, "")) ==> key == IndexKey(c, key[|c| + 1..])
    ensures forall id :: HasPrefix(IndexKey(c, id), IndexKey(c, "")) && IndexKey(c, id)[|c| + 1..] == id
  {
    forall id ensures HasPrefix(IndexKey(c, id), IndexKey(c, "")) && IndexKey(c, id)[|c| + 1..] == id {
      assert IndexKey(c, id) == IndexKey(c, "") + id;
    }
    if HasPrefix(key, IndexKey(c, "")) { assert key == key[..|c| + 1] + key[|c| + 1..]; }
  }

  // ---- the index holds exactly the stored messages ----

  predicate Belongs(log: Log, c: string, id: string)
  {
    var k := Key(MessageKind, id);
    k in log.latest && log.latest[k].MessageData? && log.latest[k].message.conversationID == c && c != "" && id != ""
  }

  ghost predicate IndexExact(log: Log)
  {
    forall c, id :: NulFree(c) ==> (IndexKey(c, id) in log.index <==> Belongs(log, c, id))
  }

  /** The message is new, or stays in the conversation it was stored for. */
  predicate StaysPut(log: Log, e: Incoming)
  {
    e.key.kind.MessageKind? && e.data.MessageData? && e.key in log.latest && log.latest[e.key].MessageData?
    && log.latest[e.key].message.conversationID != "" ==>
      log.latest[e.key].message.conversationID == e.data.message.conversationID
  }

  lemma FreshIndex(db: DB, e: Incoming, private: map<string, Bytes>, now: Time)
    requires e.key.kind.MessageKind? && e.data.MessageData? && ApplyFresh(db, e, private, now).Done?
    ensures var r := ApplyFresh(db, e, private, now).db;
      r.log.index == if e.key in db.log.latest && db.log.latest[e.key] == e.data then db.log.index
                     else IndexMessage(db.log.index, e.data.message)
  {
    var kept := ClaimAndStore(db, e, private, now).db;
    RefreshFrame(kept, e.data.message, e.key !in db.log.latest && !e.historical, PreviousStatus(db, e.key), now, e.key);
  }

  lemma FreshIndexAt(db: DB, e: Incoming, private: map<string, Bytes>, now: Time, c: string, id: string)
    requires IndexExact(db.log) && WellNamed(e) && e.key.kind.MessageKind? && e.data.MessageData?
    requires NulFree(e.data.message.conversationID) && NulFree(c) && ApplyFresh(db, e, private, now).Done?
    ensures var r := ApplyFresh(db, e, private, now).db;
      && (Belongs(r.log, c, id) <==> if id == e.key.id then id != "" && c != "" && c == e.data.message.conversationID else Belongs(db.log, c, id))
      && (IndexKey(c, id) in r.log.index <==> Belongs(db.log, c, id) || (id == e.key.id && Belongs(r.log, c, id)))
  {
    var m := e.data.message;
    FreshAt(db, e, private, now, id);
    FreshIndex(db, e, private, now);
    assert IndexKey(c, id) in db.log.index <==> Belongs(db.log, c, id);
    if IndexKey(c, id) == IndexKey(m.conversationID, m.id) { IndexKeyInjective(c, id, m.conversationID, m.id); }
  }

  /** The index only grows, so it stays exact if and only if the message does not change conversation. */
  lemma FreshIndexExactIff(db: DB, e: Incoming, private: map<string, Bytes>, now: Time)
    requires IndexExact(db.log) && WellNamed(e) && e.key.kind.MessageKind? && e.data.MessageData?
    requires NulFree(e.data.message.conversationID) && ApplyFresh(db, e, private, now).Done?
    requires e.key in db.log.latest && db.log.latest[e.key].MessageData? ==> NulFree(db.log.latest[e.key].message.conversationID)
    ensures IndexExact(ApplyFresh(db, e, private, now).db.log) <==> StaysPut(db.log, e)
  {
    var r := ApplyFresh(db, e, private, now).db;
    if StaysPut(db.log, e) {
      forall c, id | NulFree(c) ensures IndexKey(c, id) in r.log.index <==> Belongs(r.log, c, id) {
        FreshIndexAt(db, e, private, now, c, id);
      }
    } else {
      var c := db.log.latest[e.key].message.conversationID;
      FreshIndexAt(db, e, private, now, c, e.key.id);
    }
  }

  /** What an exact index asks of a transaction. */
  ghost predicate Placed(db: DB, t: Txn)
  {
    t.ApplyTxn? ==>
      && WellNamed(t.e) && StaysPut(db.log, t.e)
      && (t.e.data.MessageData? ==> NulFree(t.e.data.message.conversationID))
  }

  ghost predicate ConversationsNulFree(log: Log)
  {
    forall id :: var k := Key(MessageKind, id);
      k in log.latest && log.latest[k].MessageData? ==> NulFree(log.latest[k].message.conversationID)
  }

  ghost predicate Indexed(log: Log)
  {
    IndexExact(log) && ConversationsNulFree(log)
  }

  ghost predicate SameMessages(a: Log, b: Log)
  {
    b.index == a.index && forall id :: SameAt(a, b, Key(MessageKind, id))
  }

  lemma SameIndexed(a: Log, b: Log)
    requires Indexed(a) && SameMessages(a, b)
    ensures Indexed(b)
  {
    forall c, id | NulFree(c) ensures IndexKey(c, id) in b.index <==> Belongs(b, c, id) {
      assert SameAt(a, b, Key(MessageKind, id));
      assert IndexKey(c, id) in a.index <==> Belongs(a, c, id);
    }
    forall id ensures var k := Key(MessageKind, id);
      k in b.latest && b.latest[k].MessageData? ==> NulFree(b.latest[k].message.conversationID) {
      assert SameAt(a, b, Key(MessageKind, id));
    }
  }

  lemma FreshIndexed(db: DB, e: Incoming, private: map<string, Bytes>, now: Time)
    requires Indexed(db.log) && WellNamed(e) && StaysPut(db.log, e) && e.key.kind.MessageKind? && e.data.MessageData?
    requires NulFree(e.data.message.conversationID) && ApplyFresh(db, e, private, now).Done?
    ensures Indexed(ApplyFresh(db, e, private, now).db.log)
  {
    var r := ApplyFresh(db, e, private, now).db;
    FreshIndexExactIff(db, e, private, now);
    forall id ensures var k := Key(MessageKind, id);
      k in r.log.latest && r.log.latest[k].MessageData? ==> NulFree(r.log.latest[k].message.conversationID) {
      FreshAt(db, e, private, now, id);
    }
  }

  lemma ApplyIndexed(db: DB, e: Incoming, private: map<string, Bytes>, watermark: Option<nat>, now: Time, r: DB)
    requires Indexed(db.log) && WellNamed(e) && StaysPut(db.log, e)
    requires e.data.MessageData? ==> NulFree(e.data.message.conversationID)
    requires Apply(db, e, private, watermark, now).Done? && r == Apply(db, e, private, watermark, now).db
    ensures Indexed(r.log)
  {
    if e.key.kind.MessageKind? {
      var applied := if Stale(db, e.key, watermark) then db else ApplyFresh(db, e, private, now).db;
      if !Stale(db, e.key, watermark) { FreshIndexed(db, e, private, now); }
      forall id ensures SameAt(applied.log, r.log, Key(MessageKind, id)) && r.log.index == applied.log.index {
        ConfirmFrame(applied, e.data.message, now, Key(MessageKind, id));
      }
      SameIndexed(applied.log, r.log);
    } else {
      if !Stale(db, e.key, watermark) { ClaimFrame(db, e, private, now, e.key); FreshFrame(db, e, private, now, e.key); }
      forall id ensures SameAt(db.log, r.log, Key(MessageKind, id)) { ApplyNonMessage(db, e, private, watermark, now, id); }
      SameIndexed(db.log, r.log);
    }
  }

  lemma OtherIndex(db: DB, t: Txn, id: string)
    requires !t.ApplyTxn?
    ensures Step(db, t).log.index == db.log.index && SameAt(db.log, Step(db, t).log, Key(MessageKind, id))
  {
    var k := Key(MessageKind, id);
    if t.ReadTxn? {
      if ReadConversation(db, t.id, t.through, t.now).Done? { RowFrame(db, t.id, ReadThrough(t.through), t.now, k); }
    } else if t.FinishConversationTxn? {
      if FinishConversation(db, t.id, t.e, t.private, t.mark, t.now).Done? {
        FinishConversationFrame(db, t.id, t.e, t.private, t.mark, t.now, k);
      }
    } else {
      StepFrame(db, t, k);
    }
  }

  lemma OtherUnchanged(db: DB, t: Txn)
    requires !t.ApplyTxn?
    ensures SameMessages(db.log, Step(db, t).log)
  {
    var after := Step(db, t).log;
    forall id ensures SameAt(db.log, after, Key(MessageKind, id)) { OtherIndex(db, t, id); }
    OtherIndex(db, t, "");
  }

  lemma StepIndexed(db: DB, t: Txn)
    requires Indexed(db.log) && Placed(db, t)
    ensures Indexed(Step(db, t).log)
  {
    if t.ApplyTxn? {
      if Apply(db, t.e, t.private, t.watermark, t.now).Done? {
        ApplyIndexed(db, t.e, t.private, t.watermark, t.now, Step(db, t));
      }
    } else {
      OtherUnchanged(db, t);
      SameIndexed(db.log, Step(db, t).log);
    }
  }

  // ---- rebuilding the index ----

  predicate KeyOf(m: Message, key: string)
  {
    m.id != "" && m.conversationID != "" && key == IndexKey(m.conversationID, m.id)
  }

  lemma {:induction false} IndexFromMember(ms: seq<Message>, index: set<string>, key: string)
    ensures key in IndexFrom(ms, index) <==> key in index || exists i :: 0 <= i < |ms| && KeyOf(ms[i], key)
  {
    if ms != [] {
      IndexFromMember(ms[1..], IndexMessage(index, ms[0]), key);
      if i :| 0 <= i < |ms[1..]| && KeyOf(ms[1..][i], key) { assert KeyOf(ms[i + 1], key); }
      if i :| 0 <= i < |ms| && KeyOf(ms[i], key) {
        if i > 0 { assert ms[1..][i - 1] == ms[i]; }
      }
    }
  }

  /** Built from scratch, the index holds exactly the stored messages: the same keys an exact index would. */
  lemma RebuiltIndexIsExact(db: DB)
    requires MessagesNamed(db) && ConversationsNulFree(db.log) && EnsureMessageIndex(db).Done?
    ensures Indexed(EnsureMessageIndex(db).db.log)
  {
    var ids := SortedKeys(KindIds(db.log.latest, MessageKind));
    forall id ensures id in ids <==> Key(MessageKind, id) in db.log.latest { KindIdMember(db.log.latest, MessageKind, id); }
    forall id | id in ids ensures Key(MessageKind, id) in db.log.latest && db.log.latest[Key(MessageKind, id)].MessageData? {
      assert MessageNamed(db, id);
    }
    MessagesAt(db, ids);
    var rebuilt := EnsureMessageIndex(db).db.log;
    forall c, id | NulFree(c) ensures IndexKey(c, id) in rebuilt.index <==> Belongs(rebuilt, c, id) {
      RebuiltAt(db, ids, Messages(db, ids), c, id);
    }
    forall id ensures var k := Key(MessageKind, id);
      k in rebuilt.latest && rebuilt.latest[k].MessageData? ==> NulFree(rebuilt.latest[k].message.conversationID) {
      var k := Key(MessageKind, id);
      assert k in db.log.latest && db.log.latest[k].MessageData? ==> NulFree(db.log.latest[k].message.conversationID);
    }
  }

  lemma RebuiltAt(db: DB, ids: seq<string>, ms: seq<Message>, c: string, id: string)
    requires MessagesNamed(db) && ConversationsNulFree(db.log) && NulFree(c)
    requires forall x :: x in ids <==> Key(MessageKind, x) in db.log.latest
    requires |ms| == |ids| && forall i :: 0 <= i < |ids| ==> db.log.latest[Key(MessageKind, ids[i])] == MessageData(ms[i])
    ensures IndexKey(c, id) in IndexFrom(ms, {}) <==> Belongs(db.log, c, id)
  {
    IndexFromMember(ms, {}, IndexKey(c, id));
    if i :| 0 <= i < |ms| && KeyOf(ms[i], IndexKey(c, id)) {
      var k := Key(MessageKind, ids[i]);
      assert ids[i] in ids && MessageNamed(db, ids[i]);
      assert k in db.log.latest && db.log.latest[k].MessageData? ==> NulFree(db.log.latest[k].message.conversationID);
      IndexKeyInjective(c, id, ms[i].conversationID, ms[i].id);
    }
    if Belongs(db.log, c, id) {
      assert id in ids && MessageNamed(db, id);
      var i :| 0 <= i < |ids| && ids[i] == id;
      assert KeyOf(ms[i], IndexKey(c, id));
    }
  }

  // ---- reading: one read transaction sees one database value ----

  datatype Record = Record(data: Data, current: bool)

  /** The record is this session's: it carries the session's number, or sessions are not numbered yet. */
  predicate OfSession(db: DB, key: Key)
  {
    db.own.epoch > 0 ==> key in db.own.epochs && db.own.epochs[key] == db.own.epoch
  }

  function RecordAt(db: DB, kind: Kind, id: string): Record
    requires Key(kind, id) in db.log.latest
  {
    Record(db.log.latest[Key(kind, id)], EntityCurrent(db, Key(kind, id)))
  }

  /** The stored messages behind a run of index keys, which all carry a prefix of length skip. */
  function Resolve(db: DB, keys: seq<string>, skip: nat): seq<string>
    requires forall key :: key in keys ==> skip <= |key|
  {
    if keys == [] then []
    else
      var id := keys[0][skip..];
      (if Key(MessageKind, id) in db.log.latest then [id] else []) + Resolve(db, keys[1..], skip)
  }

  lemma PrefixLength(keys: seq<string>, c: string)
    ensures forall key :: key in WithPrefix(keys, IndexKey(c, "")) ==> |c| + 1 <= |key|
  {
    forall key | key in WithPrefix(keys, IndexKey(c, "")) ensures |c| + 1 <= |key| { WithPrefixMembers(keys, IndexKey(c, ""), key); }
  }

  ghost function ListedIds(db: DB, c: string): seq<string>
  {
    PrefixLength(SortedKeys(db.log.index), c);
    Resolve(db, WithPrefix(SortedKeys(db.log.index), IndexKey(c, "")), |c| + 1)
  }

  ghost predicate Stored(db: DB, kind: Kind, ids: seq<string>)
  {
    forall id :: id in ids ==> Key(kind, id) in db.log.latest
  }

  function RecordsOf(db: DB, kind: Kind, ids: seq<string>): seq<Record>
    requires Stored(db, kind, ids)
  {
    seq(|ids|, i requires 0 <= i < |ids| => assert ids[i] in ids; RecordAt(db, kind, ids[i]))
  }

  lemma {:induction false} ResolveMembers(db: DB, keys: seq<string>, skip: nat, id: string)
    requires forall key :: key in keys ==> skip <= |key|
    ensures id in Resolve(db, keys, skip) <==> Key(MessageKind, id) in db.log.latest && exists key :: key in keys && key[skip..] == id
  {
    if keys != [] {
      ResolveMembers(db, keys[1..], skip, id);
      assert keys == [keys[0]] + keys[1..];
    }
  }

  lemma ListedStored(db: DB, c: string)
    ensures Stored(db, MessageKind, ListedIds(db, c))
  {
    PrefixLength(SortedKeys(db.log.index), c);
    forall id | id in ListedIds(db, c) ensures Key(MessageKind, id) in db.log.latest {
      ResolveMembers(db, WithPrefix(SortedKeys(db.log.index), IndexKey(c, "")), |c| + 1, id);
    }
  }

  /** The index walk finds exactly the stored messages of one conversation. */
  lemma ListedExactly(db: DB, c: string, id: string)
    requires IndexExact(db.log) && NulFree(c)
    ensures id in ListedIds(db, c) <==> Belongs(db.log, c, id)
  {
    var keys := WithPrefix(SortedKeys(db.log.index), IndexKey(c, ""));
    PrefixLength(SortedKeys(db.log.index), c);
    ResolveMembers(db, keys, |c| + 1, id);
    PrefixSplits("", c);
    assert IndexKey(c, id) in db.log.index <==> Belongs(db.log, c, id);
    if Belongs(db.log, c, id) {
      WithPrefixMembers(SortedKeys(db.log.index), IndexKey(c, ""), IndexKey(c, id));
    }
    if key :| key in keys && key[|c| + 1..] == id {
      WithPrefixMembers(SortedKeys(db.log.index), IndexKey(c, ""), key);
      PrefixSplits(key, c);
    }
  }

  lemma RecordsGrow(db: DB, kind: Kind, ids: seq<string>, id: string)
    requires Stored(db, kind, ids) && Key(kind, id) in db.log.latest
    ensures Stored(db, kind, ids + [id]) && RecordsOf(db, kind, ids + [id]) == RecordsOf(db, kind, ids) + [RecordAt(db, kind, id)]
  {
  }

  lemma ResolveStep(db: DB, keys: seq<string>, i: nat, skip: nat)
    requires i < |keys| && forall key :: key in keys ==> skip <= |key|
    ensures keys[i] in keys
    ensures var id := keys[i][skip..];
      Resolve(db, keys[i..], skip) == (if Key(MessageKind, id) in db.log.latest then [id] else []) + Resolve(db, keys[i + 1..], skip)
  {
    assert keys[i..][0] == keys[i] && keys[i..][1..] == keys[i + 1..];
  }

  lemma ResolveMore(db: DB, keys: seq<string>, i: nat, skip: nat, before: seq<string>, more: seq<string>)
    requires i < |keys| && (forall key :: key in keys ==> skip <= |key|) && keys[i] in keys
    requires more == before + if Key(MessageKind, keys[i][skip..]) in db.log.latest then [keys[i][skip..]] else []
    ensures more + Resolve(db, keys[i + 1..], skip) == before + Resolve(db, keys[i..], skip)
  {
    ResolveStep(db, keys, i, skip);
  }

  method ConversationMessages(db: DB, c: string) returns (found: seq<Record>)
    ensures Stored(db, MessageKind, ListedIds(db, c)) && found == RecordsOf(db, MessageKind, ListedIds(db, c))
  {
    var prefix := IndexKey(c, "");
    var keys := ScanPrefix(db.log.index, prefix);
    PrefixLength(SortedKeys(db.log.index), c);
    ListedStored(db, c);
    ghost var listed := ListedIds(db, c);
    ghost var ids: seq<string>;
    found, ids := FetchMessages(db, keys, |prefix|);
    assert ids == listed;
  }

  method FetchOne(db: DB, found: seq<Record>, ghost ids: seq<string>, id: string) returns (more: seq<Record>, ghost moreIds: seq<string>)
    requires Stored(db, MessageKind, ids) && found == RecordsOf(db, MessageKind, ids)
    ensures moreIds == ids + if Key(MessageKind, id) in db.log.latest then [id] else []
    ensures Stored(db, MessageKind, moreIds) && more == RecordsOf(db, MessageKind, moreIds)
  {
    more, moreIds := found, ids;
    if Key(MessageKind, id) in db.log.latest {
      RecordsGrow(db, MessageKind, ids, id);
      more, moreIds := found + [RecordAt(db, MessageKind, id)], ids + [id];
    }
  }

  method FetchMessages(db: DB, keys: seq<string>, skip: nat) returns (found: seq<Record>, ghost ids: seq<string>)
    requires forall key :: key in keys ==> skip <= |key|
    ensures ids == Resolve(db, keys, skip) && Stored(db, MessageKind, ids) && found == RecordsOf(db, MessageKind, ids)
  {
    ghost var all := Resolve(db, keys, skip);
    found, ids := [], [];
    var i := 0;
    assert keys[..] == keys;
    while i < |keys|
      invariant 0 <= i <= |keys| && ids + Resolve(db, keys[i..], skip) == all
      invariant Stored(db, MessageKind, ids) && found == RecordsOf(db, MessageKind, ids)
    {
      ghost var before := ids;
      assert keys[i] in keys;
      found, ids := FetchOne(db, found, ids, keys[i][skip..]);
      ResolveMore(db, keys, i, skip, before, ids);
      i := i + 1;
    }
  }

  method SnapshotCurrent(db: DB, kind: Kind) returns (records: seq<Record>, cursor: nat)
    ensures cursor == db.log.eventSeq
    ensures Stored(db, kind, SortedKeys(KindIds(db.log.latest, kind)))
    ensures records == RecordsOf(db, kind, SortedKeys(KindIds(db.log.latest, kind)))
    ensures var ids := SortedKeys(KindIds(db.log.latest, kind));
      && |records| == |ids|
      && (forall i :: 0 <= i < |ids| ==> records[i].data == db.log.latest[Key(kind, ids[i])])
      && (forall i :: 0 <= i < |ids| ==> (records[i].current <==> OfSession(db, Key(kind, ids[i]))))
  {
    var ids := ListKeys(KindIds(db.log.latest, kind));
    forall id | id in ids ensures Key(kind, id) in db.log.latest { KindIdMember(db.log.latest, kind, id); }
    records := [];
    var i := 0;
    while i < |ids|
      invariant 0 <= i <= |ids|
      invariant records == RecordsOf(db, kind, ids[..i])
    {
      assert ids[i] in ids && ids[..i + 1] == ids[..i] + [ids[i]];
      RecordsGrow(db, kind, ids[..i], ids[i]);
      records := records + [RecordAt(db, kind, ids[i])];
      i := i + 1;
    }
    assert ids[..i] == ids;
    cursor := db.log.eventSeq;
  }

  // ---- the narrowed scan ----

  predicate ReadableRows(rows: seq<Record>)
  {
    forall i :: 0 <= i < |rows| ==> rows[i].data.ConversationData?
  }

  /** The messages of every row updated at or after since, row by row. */
  ghost function RecentIds(db: DB, rows: seq<Record>, since: Time): seq<string>
    requires ReadableRows(rows)
  {
    if rows == [] then []
    else
      var c := rows[0].data.conversation;
      (if c.updated < since then [] else ListedIds(db, c.id)) + RecentIds(db, rows[1..], since)
  }

  ghost function StoredRows(db: DB): seq<Record>
  {
    var ids := SortedKeys(KindIds(db.log.latest, ConversationKind));
    if Stored(db, ConversationKind, ids) then RecordsOf(db, ConversationKind, ids) else []
  }

  ghost function AllIds(db: DB): seq<string>
  {
    SortedKeys(KindIds(db.log.latest, MessageKind))
  }

  /** The message ids a search reads: every one, or those of recently updated rows. */
  ghost function ScannedIds(db: DB, since: Time): seq<string>
    requires since > 0 ==> ReadableRows(StoredRows(db))
  {
    if since == 0 then AllIds(db) else RecentIds(db, StoredRows(db), since)
  }

  lemma {:induction false} RecentMembers(db: DB, rows: seq<Record>, since: Time, id: string)
    requires ReadableRows(rows)
    ensures id in RecentIds(db, rows, since) <==>
      exists i :: 0 <= i < |rows| && rows[i].data.conversation.updated >= since && id in ListedIds(db, rows[i].data.conversation.id)
  {
    if rows != [] {
      RecentMembers(db, rows[1..], since, id);
      if i :| 0 <= i < |rows| && rows[i].data.conversation.updated >= since && id in ListedIds(db, rows[i].data.conversation.id) {
        if i > 0 { assert rows[1..][i - 1] == rows[i]; }
      }
      if i :| 0 <= i < |rows[1..]| && rows[1..][i].data.conversation.updated >= since && id in ListedIds(db, rows[1..][i].data.conversation.id) {
        assert rows[i + 1] == rows[1..][i];
      }
    }
  }

  lemma RecordsConcat(db: DB, kind: Kind, a: seq<string>, b: seq<string>)
    requires Stored(db, kind, a) && Stored(db, kind, b)
    ensures Stored(db, kind, a + b) && RecordsOf(db, kind, a + b) == RecordsOf(db, kind, a) + RecordsOf(db, kind, b)
  {
  }

  lemma {:induction false} RecentGrow(db: DB, rows: seq<Record>, row: Record, since: Time)
    requires ReadableRows(rows) && row.data.ConversationData?
    ensures RecentIds(db, rows + [row], since) ==
      RecentIds(db, rows, since) + if row.data.conversation.updated < since then [] else ListedIds(db, row.data.conversation.id)
  {
    if rows == [] {
      assert rows + [row] == [row];
    } else {
      assert (rows + [row])[0] == rows[0] && (rows + [row])[1..] == rows[1..] + [row];
      RecentGrow(db, rows[1..], row, since);
    }
  }

  method RecentMessages(db: DB, since: Time) returns (found: Option<seq<Record>>)
    ensures found.Some? <==> since == 0 || ReadableRows(StoredRows(db))
    ensures found.Some? ==> Stored(db, MessageKind, ScannedIds(db, since)) && found.value == RecordsOf(db, MessageKind, ScannedIds(db, since))
  {
    if since == 0 {
      var all, cursor := SnapshotCurrent(db, MessageKind);
      return Some(all);
    }
    var rows, cursor := SnapshotCurrent(db, ConversationKind);
    found := ScanRows(db, rows, since);
  }

  method ScanRows(db: DB, rows: seq<Record>, since: Time) returns (found: Option<seq<Record>>)
    ensures found.Some? <==> ReadableRows(rows)
    ensures found.Some? ==> Stored(db, MessageKind, RecentIds(db, rows, since)) && found.value == RecordsOf(db, MessageKind, RecentIds(db, rows, since))
  {
    var result: seq<Record> := [];
    ghost var ids: seq<string> := [];
    var i := 0;
    while i < |rows|
      invariant 0 <= i <= |rows|
      invariant ReadableRows(rows[..i]) && ids == RecentIds(db, rows[..i], since)
      invariant Stored(db, MessageKind, ids) && result == RecordsOf(db, MessageKind, ids)
    {
      if !rows[i].data.ConversationData? { return None; }
      var c := rows[i].data.conversation;
      assert rows[..i + 1] == rows[..i] + [rows[i]];
      RecentGrow(db, rows[..i], rows[i], since);
      if c.updated >= since {
        var raw := ConversationMessages(db, c.id);
        RecordsConcat(db, MessageKind, ids, ListedIds(db, c.id));
        result := result + raw;
        ids := ids + ListedIds(db, c.id);
      }
      i := i + 1;
    }
    assert rows[..i] == rows;
    return Some(result);
  }

  // ---- rows are stored under their own ids ----

  ghost predicate RowNamed(db: DB, c: string)
  {
    Key(ConversationKind, c) in db.log.latest ==> IsConversation(db, c) && RowOf(db, c).id == c && NulFree(c)
  }

  /** Rows come well formed, under ids without NUL. */
  ghost predicate Filed(t: Txn)
  {
    t.ApplyTxn? || t.FinishConversationTxn? ==> WellFormed(t.e) && (t.e.key.kind.ConversationKind? ==> NulFree(t.e.key.id))
  }

  lemma UpdateNamed(db: DB, id: string, mutation: Mutation, now: Time, c: string)
    requires RowNamed(db, c) && UpdateConversationTx(db, id, mutation, now).Done?
    ensures RowNamed(UpdateConversationTx(db, id, mutation, now).db, c)
  {
    UpdateReaches(db, id, mutation, now, c);
    RowFrame(db, id, mutation, now, Key(ConversationKind, c));
  }

  lemma ClaimNamed(db: DB, e: Incoming, private: map<string, Bytes>, now: Time, c: string)
    requires RowNamed(db, c) && WellFormed(e) && (e.key.kind.ConversationKind? ==> NulFree(e.key.id))
    requires ClaimAndStore(db, e, private, now).Done?
    ensures RowNamed(ClaimAndStore(db, e, private, now).db, c)
  {
    ClaimFrame(db, e, private, now, Key(ConversationKind, c));
  }

  lemma RefreshNamed(db: DB, m: Message, isNew: bool, status: string, now: Time, c: string)
    requires RowNamed(db, c) && RefreshConversationTx(db, m, isNew, status, now).Done?
    ensures RowNamed(RefreshConversationTx(db, m, isNew, status, now).db, c)
  {
    var source := PreviewSource(m);
    if source.Some? && !(m.conversationID in db.newest && Ahead(db.newest[m.conversationID], source.value)) {
      UpdateNamed(db.(newest := db.newest[m.conversationID := source.value]), m.conversationID,
                  Merge(source.value, UnreadAfter(m, isNew, status, now)), now, c);
    }
  }

  lemma FreshNamed(db: DB, e: Incoming, private: map<string, Bytes>, now: Time, c: string)
    requires RowNamed(db, c) && WellFormed(e) && (e.key.kind.ConversationKind? ==> NulFree(e.key.id))
    requires ApplyFresh(db, e, private, now).Done?
    ensures RowNamed(ApplyFresh(db, e, private, now).db, c)
  {
    ClaimNamed(db, e, private, now, c);
    if e.key.kind.MessageKind? && e.data.MessageData? {
      RefreshNamed(ClaimAndStore(db, e, private, now).db, e.data.message, e.key !in db.log.latest && !e.historical,
                   PreviousStatus(db, e.key), now, c);
    }
  }

  lemma ApplyNamed(db: DB, e: Incoming, private: map<string, Bytes>, watermark: Option<nat>, now: Time, c: string)
    requires RowNamed(db, c) && WellFormed(e) && (e.key.kind.ConversationKind? ==> NulFree(e.key.id))
    requires Apply(db, e, private, watermark, now).Done?
    ensures RowNamed(Apply(db, e, private, watermark, now).db, c)
  {
    var applied := if Stale(db, e.key, watermark) then Done(db, false) else ApplyFresh(db, e, private, now);
    if !Stale(db, e.key, watermark) { FreshNamed(db, e, private, now, c); }
    if e.key.kind.MessageKind? { ConfirmFrame(applied.db, e.data.message, now, Key(ConversationKind, c)); }
  }

  lemma StepNamed(db: DB, t: Txn, c: string)
    requires RowNamed(db, c) && Filed(t)
    ensures RowNamed(Step(db, t), c)
  {
    if t.ApplyTxn? {
      if Apply(db, t.e, t.private, t.watermark, t.now).Done? { ApplyNamed(db, t.e, t.private, t.watermark, t.now, c); }
    } else if t.ReadTxn? {
      if ReadConversation(db, t.id, t.through, t.now).Done? { UpdateNamed(db, t.id, ReadThrough(t.through), t.now, c); }
    } else if t.FinishConversationTxn? {
      if FinishConversation(db, t.id, t.e, t.private, t.mark, t.now).Done? {
        FinishConversationFrame(db, t.id, t.e, t.private, t.mark, t.now, Key(ConversationKind, c));
      }
    } else {
      StepFrame(db, t, Key(ConversationKind, c));
    }
  }

  // ---- the narrowed scan finds what the full scan finds ----

  /** Everything the scans rely on, all of it kept by every transaction. */
  ghost predicate Searchable(db: DB)
  {
    && Indexed(db.log)
    && MessagesNamed(db)
    && (forall c :: RowNamed(db, c))
    && (forall c :: Floors(db, c))
  }

  ghost predicate RowListed(db: DB, row: Record, c: string)
  {
    && IsConversation(db, c) && NulFree(c)
    && row.data == ConversationData(RowOf(db, c)) && RowOf(db, c).id == c
  }

  lemma RowsListed(db: DB)
    requires forall c :: RowNamed(db, c)
    ensures var ids := SortedKeys(KindIds(db.log.latest, ConversationKind));
      && Stored(db, ConversationKind, ids) && ReadableRows(StoredRows(db)) && |StoredRows(db)| == |ids|
      && (forall i :: 0 <= i < |ids| ==> RowListed(db, StoredRows(db)[i], ids[i]))
  {
    var ids := SortedKeys(KindIds(db.log.latest, ConversationKind));
    forall id | id in ids ensures Key(ConversationKind, id) in db.log.latest { KindIdMember(db.log.latest, ConversationKind, id); }
    forall i | 0 <= i < |ids| ensures RowListed(db, StoredRows(db)[i], ids[i]) { assert ids[i] in ids && RowNamed(db, ids[i]); }
  }

  predicate IsMessage(db: DB, id: string)
  {
    var k := Key(MessageKind, id);
    k in db.log.latest && db.log.latest[k].MessageData?
  }

  function MessageOf(db: DB, id: string): Message
    requires IsMessage(db, id)
  {
    db.log.latest[Key(MessageKind, id)].message
  }

  /** A session message with something to show, at or after since, in a conversation that is stored. */
  predicate Findable(db: DB, since: Time, id: string)
  {
    IsCurrent(db, id)
    && var m := MessageOf(db, id);
    PreviewSource(m).Some? && m.time >= since && IsConversation(db, m.conversationID)
  }

  /** The message's conversation has a row, updated at or after since. */
  ghost predicate RowReaches(db: DB, id: string, since: Time)
    requires IsMessage(db, id)
  {
    var c := MessageOf(db, id).conversationID;
    id != "" && c != "" && IsConversation(db, c) && RowOf(db, c).updated >= since
  }

  /** Whichever session a stored message came in, it is scanned exactly when its conversation's row was updated at or after since. */
  lemma NarrowScanIff(db: DB, since: Time, id: string)
    requires Indexed(db.log) && (forall c :: RowNamed(db, c)) && IsMessage(db, id)
    ensures ReadableRows(StoredRows(db))
    ensures id in RecentIds(db, StoredRows(db), since) <==> RowReaches(db, id, since)
  {
    var c := MessageOf(db, id).conversationID;
    var ids, rows := SortedKeys(KindIds(db.log.latest, ConversationKind)), StoredRows(db);
    RowsListed(db);
    RecentMembers(db, rows, since, id);
    forall i | 0 <= i < |ids| ensures id in ListedIds(db, rows[i].data.conversation.id) <==> ids[i] == c && id != "" && c != "" {
      assert RowListed(db, rows[i], ids[i]);
      ListedExactly(db, ids[i], id);
    }
    KindIdMember(db.log.latest, ConversationKind, c);
    if IsConversation(db, c) {
      assert c in ids;
      var i :| 0 <= i < |ids| && ids[i] == c;
      assert RowListed(db, rows[i], ids[i]);
    }
    if i :| 0 <= i < |ids| && rows[i].data.conversation.updated >= since && ids[i] == c {
      assert RowListed(db, rows[i], ids[i]);
    }
  }

  ghost predicate ScannedSince(db: DB, id: string, since: Time)
    requires ReadableRows(StoredRows(db))
  {
    id in RecentIds(db, StoredRows(db), since)
  }

  /** So no search that reaches back to a stored message skips it if and only if its row is no earlier than it. */
  lemma NeverSkippedIff(db: DB, id: string)
    requires Indexed(db.log) && (forall c :: RowNamed(db, c)) && IsMessage(db, id)
    ensures ReadableRows(StoredRows(db))
    ensures (forall since: Time :: since <= MessageOf(db, id).time ==> ScannedSince(db, id, since)) <==> RowReaches(db, id, MessageOf(db, id).time)
  {
    var at := MessageOf(db, id).time;
    NarrowScanIff(db, at, id);
    forall since: Time | since <= at && RowReaches(db, id, at) ensures ScannedSince(db, id, since) { NarrowScanIff(db, since, id); }
    assert ScannedSince(db, id, at) <==> RowReaches(db, id, at);
  }

  /** Skipping rows not updated since misses nothing of the session's: every findable message is scanned. */
  lemma NarrowScanFinds(db: DB, since: Time, id: string)
    requires Searchable(db) && Findable(db, since, id)
    ensures ReadableRows(StoredRows(db)) && id in RecentIds(db, StoredRows(db), since)
  {
    var c := MessageOf(db, id).conversationID;
    assert RowNamed(db, c) && Floors(db, c) && MessageNamed(db, id) && Shown(db, c, id);
    NarrowScanIff(db, since, id);
  }

  // ---- and finds each of them once ----

  ghost predicate DistinctIds(ids: seq<string>)
  {
    forall i, j :: 0 <= i < j < |ids| ==> ids[i] != ids[j]
  }

  lemma DistinctConcat(a: seq<string>, b: seq<string>)
    requires DistinctIds(a) && DistinctIds(b) && forall id :: id in a ==> id !in b
    ensures DistinctIds(a + b)
  {
    forall i, j | 0 <= i < j < |a + b| ensures (a + b)[i] != (a + b)[j] {
      if i < |a| <= j { assert (a + b)[i] in a && (a + b)[j] in b; }
    }
  }

  lemma SortedDistinct(ks: seq<string>)
    requires Sorted(ks)
    ensures DistinctIds(ks)
  {
    forall i, j | 0 <= i < j < |ks| ensures ks[i] != ks[j] { LessTotal(ks[i], ks[j]); }
  }

  lemma DistinctTail(ks: seq<string>)
    requires DistinctIds(ks) && ks != []
    ensures DistinctIds(ks[1..]) && ks[0] !in ks[1..]
  {
  }

  lemma {:induction false} ListedDistinct(db: DB, keys: seq<string>, c: string)
    requires DistinctIds(keys) && forall key :: key in keys ==> |c| + 1 <= |key| && HasPrefix(key, IndexKey(c, ""))
    ensures DistinctIds(Resolve(db, keys, |c| + 1))
  {
    if keys != [] {
      DistinctTail(keys);
      ListedDistinct(db, keys[1..], c);
      var id := keys[0][|c| + 1..];
      PrefixSplits(keys[0], c);
      ResolveMembers(db, keys[1..], |c| + 1, id);
      if key :| key in keys[1..] && key[|c| + 1..] == id { PrefixSplits(key, c); }
      if Key(MessageKind, id) in db.log.latest { DistinctConcat([id], Resolve(db, keys[1..], |c| + 1)); }
    }
  }

  lemma {:induction false} WithPrefixDistinct(ks: seq<string>, prefix: string)
    requires DistinctIds(ks)
    ensures DistinctIds(WithPrefix(ks, prefix))
  {
    if ks != [] {
      DistinctTail(ks);
      WithPrefixDistinct(ks[1..], prefix);
      WithPrefixMembers(ks[1..], prefix, ks[0]);
      if HasPrefix(ks[0], prefix) { DistinctConcat([ks[0]], WithPrefix(ks[1..], prefix)); }
    }
  }

  lemma ConversationListedOnce(db: DB, c: string)
    ensures DistinctIds(ListedIds(db, c))
  {
    var prefix := IndexKey(c, "");
    SortedKeysSorted(db.log.index);
    SortedDistinct(SortedKeys(db.log.index));
    WithPrefixDistinct(SortedKeys(db.log.index), prefix);
    var keys := WithPrefix(SortedKeys(db.log.index), prefix);
    forall key | key in keys ensures HasPrefix(key, prefix) { WithPrefixMembers(SortedKeys(db.log.index), prefix, key); }
    PrefixLength(SortedKeys(db.log.index), c);
    ListedDistinct(db, keys, c);
  }

  ghost predicate DistinctRows(rows: seq<Record>)
    requires ReadableRows(rows)
  {
    && (forall i :: 0 <= i < |rows| ==> NulFree(rows[i].data.conversation.id))
    && (forall i, j :: 0 <= i < j < |rows| ==> rows[i].data.conversation.id != rows[j].data.conversation.id)
  }

  lemma {:induction false} RecentDistinct(db: DB, rows: seq<Record>, since: Time)
    requires IndexExact(db.log) && ReadableRows(rows) && DistinctRows(rows)
    ensures DistinctIds(RecentIds(db, rows, since))
  {
    if rows != [] {
      RecentDistinct(db, rows[1..], since);
      var c := rows[0].data.conversation;
      ConversationListedOnce(db, c.id);
      forall id | id in ListedIds(db, c.id) ensures id !in RecentIds(db, rows[1..], since) {
        ListedExactly(db, c.id, id);
        RecentMembers(db, rows[1..], since, id);
        if i :| 0 <= i < |rows[1..]| && rows[1..][i].data.conversation.updated >= since && id in ListedIds(db, rows[1..][i].data.conversation.id) {
          assert rows[1..][i] == rows[i + 1];
          ListedExactly(db, rows[i + 1].data.conversation.id, id);
        }
      }
      DistinctConcat(if c.updated < since then [] else ListedIds(db, c.id), RecentIds(db, rows[1..], since));
    }
  }

  lemma NarrowScanOnce(db: DB, since: Time)
    requires Searchable(db)
    ensures ReadableRows(StoredRows(db)) && DistinctIds(RecentIds(db, StoredRows(db), since))
  {
    var ids := SortedKeys(KindIds(db.log.latest, ConversationKind));
    RowsListed(db);
    SortedKeysSorted(KindIds(db.log.latest, ConversationKind));
    SortedDistinct(ids);
    RecentDistinct(db, StoredRows(db), since);
  }

  // ---- decoding and sorting ----

  /** Newest first; equal times fall back to the higher id. */
  predicate Before(a: Message, b: Message)
  {
    a.time > b.time || (a.time == b.time && Less(b.id, a.id))
  }

  ghost predicate NewestFirst(ms: seq<Message>)
  {
    forall i, j :: 0 <= i < j < |ms| ==> !Before(ms[j], ms[i])
  }

  lemma BeforeTransitive(a: Message, b: Message, c: Message)
    requires !Before(b, a) && !Before(c, b)
    ensures !Before(c, a)
  {
    LessTotal(a.id, b.id);
    LessTotal(b.id, c.id);
    LessTotal(a.id, c.id);
    if Less(a.id, c.id) && Less(c.id, b.id) { LessTransitive(a.id, c.id, b.id); }
    if Less(b.id, a.id) && Less(a.id, c.id) { LessTransitive(b.id, a.id, c.id); }
  }

  predicate AllMessages(records: seq<Record>)
  {
    forall i :: 0 <= i < |records| ==> records[i].data.MessageData?
  }

  function WithFlag(r: Record): Message
    requires r.data.MessageData?
  {
    r.data.message.(readOnly := !r.current)
  }

  /** WhatsApp stores empty protocol records beside real messages. */
  predicate ProtocolRecord(whatsapp: bool, m: Message)
  {
    whatsapp && !m.deleted && m.text == "" && m.attachments == []
  }

  function KeptMessages(whatsapp: bool, records: seq<Record>): seq<Message>
    requires AllMessages(records)
  {
    if records == [] then []
    else
      var rest := records[..|records| - 1];
      var m := WithFlag(records[|records| - 1]);
      KeptMessages(whatsapp, rest) + if ProtocolRecord(whatsapp, m) then [] else [m]
  }

  lemma KeptStep(whatsapp: bool, records: seq<Record>, i: nat)
    requires i < |records| && AllMessages(records[..i]) && records[i].data.MessageData?
    ensures AllMessages(records[..i + 1])
    ensures var m := WithFlag(records[i]);
      KeptMessages(whatsapp, records[..i + 1]) == KeptMessages(whatsapp, records[..i]) + if ProtocolRecord(whatsapp, m) then [] else [m]
  {
    assert records[..i + 1][..i] == records[..i];
  }

  method NewestMessages(whatsapp: bool, records: seq<Record>) returns (sorted: Option<seq<Message>>)
    ensures sorted.Some? <==> AllMessages(records)
    ensures sorted.Some? ==> NewestFirst(sorted.value) && multiset(sorted.value) == multiset(KeptMessages(whatsapp, records))
  {
    var messages: seq<Message> := [];
    var i := 0;
    while i < |records|
      invariant 0 <= i <= |records| && AllMessages(records[..i]) && NewestFirst(messages)
      invariant multiset(messages) == multiset(KeptMessages(whatsapp, records[..i]))
    {
      if !records[i].data.MessageData? { return None; }
      KeptStep(whatsapp, records, i);
      messages := Add(messages, WithFlag(records[i]), whatsapp);
      i := i + 1;
    }
    assert records[..i] == records;
    return Some(messages);
  }

  method Add(ms: seq<Message>, m: Message, whatsapp: bool) returns (r: seq<Message>)
    requires NewestFirst(ms)
    ensures NewestFirst(r) && multiset(r) == multiset(ms + if ProtocolRecord(whatsapp, m) then [] else [m])
  {
    if ProtocolRecord(whatsapp, m) {
      assert ms + [] == ms;
      return ms;
    }
    r := Insert(ms, m);
  }

  method Insert(ms: seq<Message>, m: Message) returns (r: seq<Message>)
    requires NewestFirst(ms)
    ensures NewestFirst(r) && multiset(r) == multiset(ms) + multiset{m}
  {
    var at := |ms|;
    while at > 0 && Before(m, ms[at - 1])
      invariant 0 <= at <= |ms|
      invariant forall i :: at <= i < |ms| ==> Before(m, ms[i])
    {
      at := at - 1;
    }
    InsertKeepsOrder(ms, m, at);
    r := ms[..at] + [m] + ms[at..];
    assert ms == ms[..at] + ms[at..];
  }

  lemma InsertKeepsOrder(ms: seq<Message>, m: Message, at: nat)
    requires NewestFirst(ms) && at <= |ms|
    requires at > 0 ==> !Before(m, ms[at - 1])
    requires forall i :: at <= i < |ms| ==> Before(m, ms[i])
    ensures NewestFirst(ms[..at] + [m] + ms[at..])
  {
    forall i | 0 <= i < at ensures !Before(m, ms[i]) {
      if i < at - 1 { BeforeTransitive(ms[i], ms[at - 1], m); }
    }
    forall i | at <= i < |ms| ensures !Before(ms[i], m) { LessTotal(m.id, ms[i].id); }
  }

  // ---- one page, whichever scan produced it ----

  ghost predicate DistinctMessages(ms: seq<Message>)
  {
    forall i, j :: 0 <= i < j < |ms| ==> ms[i].id != ms[j].id
  }

  lemma TailMember(ms: seq<Message>, m: Message)
    requires DistinctMessages(ms) && ms != []
    ensures m in ms[1..] <==> m in ms && m != ms[0]
  {
    assert ms == [ms[0]] + ms[1..];
  }

  /** Sorting leaves no choice when ids are distinct. */
  lemma {:induction false} SortedSame(a: seq<Message>, b: seq<Message>)
    requires NewestFirst(a) && NewestFirst(b) && DistinctMessages(a) && DistinctMessages(b)
    requires forall m :: m in a <==> m in b
    ensures a == b
  {
    assert b != [] ==> b[0] in a;
    if a != [] {
      assert a[0] in b;
      var i :| 0 <= i < |b| && b[i] == a[0];
      var j :| 0 <= j < |a| && a[j] == b[0];
      LessTotal(a[0].id, b[0].id);
      assert a[0] == b[0];
      forall m ensures m in a[1..] <==> m in b[1..] {
        TailMember(a, m);
        TailMember(b, m);
      }
      SortedSame(a[1..], b[1..]);
    }
  }

  predicate Hit(db: DB, since: Time, m: Message)
  {
    Key(MessageKind, m.id) in db.log.latest && Findable(db, since, m.id)
  }

  function Hits(db: DB, since: Time, ms: seq<Message>): seq<Message>
  {
    if ms == [] then [] else (if Hit(db, since, ms[0]) then [ms[0]] else []) + Hits(db, since, ms[1..])
  }

  lemma {:induction false} HitsMember(db: DB, since: Time, ms: seq<Message>, m: Message)
    ensures m in Hits(db, since, ms) <==> m in ms && Hit(db, since, m)
  {
    if ms != [] {
      HitsMember(db, since, ms[1..], m);
      assert ms == [ms[0]] + ms[1..];
    }
  }

  /** Leaving messages out of a sorted list of distinct messages keeps it one. */
  lemma {:induction false} HitsOrdered(db: DB, since: Time, ms: seq<Message>)
    requires NewestFirst(ms) && DistinctMessages(ms)
    ensures NewestFirst(Hits(db, since, ms)) && DistinctMessages(Hits(db, since, ms))
  {
    if ms != [] {
      var rest := Hits(db, since, ms[1..]);
      HitsOrdered(db, since, ms[1..]);
      forall i | 0 <= i < |rest| ensures !Before(rest[i], ms[0]) && rest[i].id != ms[0].id {
        HitsMember(db, since, ms[1..], rest[i]);
        assert rest[i] in ms[1..];
        var j :| 0 <= j < |ms[1..]| && ms[1..][j] == rest[i];
        assert ms[j + 1] == rest[i];
      }
    }
  }

  /** What a page read from a list of ids contains. */
  ghost predicate PageOf(db: DB, whatsapp: bool, ids: seq<string>, page: seq<Message>)
  {
    && Stored(db, MessageKind, ids) && AllMessages(RecordsOf(db, MessageKind, ids))
    && NewestFirst(page) && multiset(page) == multiset(KeptMessages(whatsapp, RecordsOf(db, MessageKind, ids)))
  }

  lemma {:induction false} KeptMember(db: DB, whatsapp: bool, ids: seq<string>, m: Message)
    requires MessagesNamed(db) && Stored(db, MessageKind, ids) && AllMessages(RecordsOf(db, MessageKind, ids))
    ensures m in KeptMessages(whatsapp, RecordsOf(db, MessageKind, ids)) <==>
      m.id in ids && Key(MessageKind, m.id) in db.log.latest && db.log.latest[Key(MessageKind, m.id)].MessageData?
      && m == WithFlag(RecordAt(db, MessageKind, m.id)) && !ProtocolRecord(whatsapp, m)
    decreases |ids|
  {
    if ids != [] {
      var n := |ids| - 1;
      var records := RecordsOf(db, MessageKind, ids);
      assert ids == ids[..n] + [ids[n]];
      assert Stored(db, MessageKind, ids[..n]);
      assert records[..n] == RecordsOf(db, MessageKind, ids[..n]);
      KeptMember(db, whatsapp, ids[..n], m);
      assert ids[n] in ids && MessageNamed(db, ids[n]);
      assert records[n] == RecordAt(db, MessageKind, ids[n]);
    }
  }

  lemma {:induction false} KeptOnce(db: DB, whatsapp: bool, ids: seq<string>, m: Message)
    requires MessagesNamed(db) && DistinctIds(ids) && Stored(db, MessageKind, ids) && AllMessages(RecordsOf(db, MessageKind, ids))
    ensures multiset(KeptMessages(whatsapp, RecordsOf(db, MessageKind, ids)))[m] <= 1
    decreases |ids|
  {
    if ids != [] {
      var n := |ids| - 1;
      var records := RecordsOf(db, MessageKind, ids);
      assert ids == ids[..n] + [ids[n]];
      assert Stored(db, MessageKind, ids[..n]);
      assert records[..n] == RecordsOf(db, MessageKind, ids[..n]);
      KeptOnce(db, whatsapp, ids[..n], m);
      KeptMember(db, whatsapp, ids[..n], m);
      assert ids[n] in ids && MessageNamed(db, ids[n]);
      assert records[n] == RecordAt(db, MessageKind, ids[n]);
      assert ids[n] !in ids[..n];
    }
  }

  lemma TwiceCounts(ms: seq<Message>, i: nat, j: nat)
    requires i < j < |ms| && ms[i] == ms[j]
    ensures multiset(ms)[ms[i]] >= 2
  {
    assert ms == ms[..j] + [ms[j]] + ms[j + 1..];
    assert ms[..j][i] == ms[i];
    assert ms[i] in multiset(ms[..j]);
  }

  lemma PageDistinct(db: DB, whatsapp: bool, ids: seq<string>, page: seq<Message>)
    requires MessagesNamed(db) && DistinctIds(ids) && PageOf(db, whatsapp, ids, page)
    ensures DistinctMessages(page)
  {
    var kept := KeptMessages(whatsapp, RecordsOf(db, MessageKind, ids));
    forall i, j | 0 <= i < j < |page| ensures page[i].id != page[j].id {
      assert page[i] in multiset(page) && page[j] in multiset(page);
      assert page[i] in kept && page[j] in kept;
      KeptMember(db, whatsapp, ids, page[i]);
      KeptMember(db, whatsapp, ids, page[j]);
      KeptOnce(db, whatsapp, ids, page[i]);
      if page[i].id == page[j].id { TwiceCounts(page, i, j); }
    }
  }

  lemma PageMember(db: DB, whatsapp: bool, ids: seq<string>, page: seq<Message>, m: Message)
    requires MessagesNamed(db) && PageOf(db, whatsapp, ids, page)
    ensures m in page <==>
      m.id in ids && Key(MessageKind, m.id) in db.log.latest && db.log.latest[Key(MessageKind, m.id)].MessageData?
      && m == WithFlag(RecordAt(db, MessageKind, m.id)) && !ProtocolRecord(whatsapp, m)
  {
    KeptMember(db, whatsapp, ids, m);
    assert m in page <==> m in multiset(page);
  }

  /**
   * The narrowed search is the full search: of the session's messages at or after
   * since that show something, in stored conversations, both pages hold exactly
   * the same ones, once each, in the same order.
   */
  lemma SearchPagesAgree(db: DB, since: Time, whatsapp: bool, narrow: seq<Message>, full: seq<Message>)
    requires Searchable(db) && since > 0 && ReadableRows(StoredRows(db))
    requires PageOf(db, whatsapp, ScannedIds(db, since), narrow) && PageOf(db, whatsapp, AllIds(db), full)
    ensures Hits(db, since, narrow) == Hits(db, since, full)
  {
    NarrowScanOnce(db, since);
    SortedKeysSorted(KindIds(db.log.latest, MessageKind));
    SortedDistinct(AllIds(db));
    PageDistinct(db, whatsapp, ScannedIds(db, since), narrow);
    PageDistinct(db, whatsapp, AllIds(db), full);
    HitsOrdered(db, since, narrow);
    HitsOrdered(db, since, full);
    forall m ensures m in Hits(db, since, narrow) <==> m in Hits(db, since, full) {
      HitsMember(db, since, narrow, m);
      HitsMember(db, since, full, m);
      PageMember(db, whatsapp, ScannedIds(db, since), narrow, m);
      PageMember(db, whatsapp, AllIds(db), full, m);
      KindIdMember(db.log.latest, MessageKind, m.id);
      if Hit(db, since, m) { NarrowScanFinds(db, since, m.id); }
    }
    SortedSame(Hits(db, since, narrow), Hits(db, since, full));
  }

  // ---- every run ----

  ghost predicate AllOrderly(db: DB, ts: seq<Txn>)
    decreases |ts|
  {
    ts == [] || (Placed(db, ts[0]) && Grounded(db, ts[0]) && Filed(ts[0]) && AllOrderly(Step(db, ts[0]), ts[1..]))
  }

  lemma StepSearchable(db: DB, t: Txn, next: DB)
    requires Searchable(db) && Counters.Stamped(db.own) && Placed(db, t) && Grounded(db, t) && Filed(t) && next == Step(db, t)
    ensures Searchable(next)
  {
    StepIndexed(db, t);
    forall id ensures MessageNamed(next, id) {
      assert MessageNamed(db, id);
      Newest.StepNamed(db, t, id);
    }
    forall c ensures RowNamed(next, c) {
      assert RowNamed(db, c);
      StepNamed(db, t, c);
    }
    forall c ensures Floors(next, c) {
      assert Floors(db, c);
      StepFloors(db, t, c);
    }
  }

  lemma {:induction false} RunSearchable(db: DB, ts: seq<Txn>)
    requires Searchable(db) && Counters.Stamped(db.own) && AllOrderly(db, ts)
    ensures Searchable(Run(db, ts))
    decreases |ts|
  {
    if ts != [] {
      StepSearchable(db, ts[0], Step(db, ts[0]));
      Counters.StepStamped(db, ts[0]);
      RunSearchable(Step(db, ts[0]), ts[1..]);
    }
  }

  lemma EmptySearchable()
    ensures Searchable(EMPTY) && Counters.Stamped(EMPTY.own)
  {
  }

  /** From an empty file, after any orderly run: the narrowed search answers like the full one. */
  lemma SearchAfterRun(ts: seq<Txn>, since: Time, whatsapp: bool, narrow: seq<Message>, full: seq<Message>)
    requires AllOrderly(EMPTY, ts) && since > 0 && ReadableRows(StoredRows(Run(EMPTY, ts)))
    requires PageOf(Run(EMPTY, ts), whatsapp, ScannedIds(Run(EMPTY, ts), since), narrow)
    requires PageOf(Run(EMPTY, ts), whatsapp, AllIds(Run(EMPTY, ts)), full)
    ensures Hits(Run(EMPTY, ts), since, narrow) == Hits(Run(EMPTY, ts), since, full)
  {
    EmptySearchable();
    RunSearchable(EMPTY, ts);
    SearchPagesAgree(Run(EMPTY, ts), since, whatsapp, narrow, full);
  }
}
