/** What a conversation row shows of its newest message: the text, who wrote it, which way it went, and when. */
module Previews {
  import opened Records
  import opened Buckets
  import opened StoreSpec
  import opened Frames
  import opened Newest
  import opened Rows
  import Counters

  const DELETED := "Message deleted"

  /** A complete message with something to show. */
  predicate Presentable(m: Message)
  {
    && m.schema == SCHEMA && m.id != "" && m.conversationID != "" && m.time != 0
    && (m.deleted || !Blank(m.text) || m.attachments != [])
  }

  function ShownText(m: Message): string
  {
    if m.deleted then DELETED else PreviewText(m)
  }

  /** The entry describes the message. */
  predicate Describes(l: LatestMessage, m: Message)
  {
    l.messageID == m.id && l.time == m.time && l.preview == ShownText(m) && l.senderID == m.senderID && l.direction == m.direction
  }

  lemma CollapseFirst(word: string, tail: string)
    requires word != "" && forall i :: 0 <= i < |word| ==> !IsSpace(word[i])
    requires tail == "" || IsSpace(tail[0])
    ensures Collapse(word + tail) == if Collapse(tail) == "" then word else word + " " + Collapse(tail)
  {
    WordEnds(word, tail);
    assert (word + tail)[|word|..] == tail && (word + tail)[..|word|] == word;
    assert (word + tail)[0] == word[0];
  }

  lemma CollapseTwo(first: string, second: string, s: string)
    requires first != "" && forall i :: 0 <= i < |first| ==> !IsSpace(first[i])
    requires second != "" && forall i :: 0 <= i < |second| ==> !IsSpace(second[i])
    requires s == first + (" " + second)
    ensures Collapse(s) == s
  {
    var tail := " " + second;
    CollapseFirst(second, "");
    assert second + "" == second && tail[1..] == second;
    CollapseFirst(first, tail);
    assert first + " " + second == s;
  }

  lemma DeletedIsTidy(s: string)
    requires s == DELETED
    ensures Collapse(s) == s && |s| == 15
  {
    var first, second := s[..7], s[8..];
    assert first == "Message" && second == "deleted";
    CollapseTwo(first, second, s);
  }

  lemma DeletedText(m: Message)
    requires m.text == DELETED && m.attachments == []
    ensures PreviewText(m) == DELETED
  {
    DeletedIsTidy(m.text);
  }

  lemma SourceDescribes(m: Message)
    ensures PreviewSource(m).Some? <==> Presentable(m)
    ensures PreviewSource(m).Some? ==> Describes(PreviewSource(m).value, m)
  {
    PreviewTextMeaning(m);
    if m.deleted { DeletedText(m.(text := DELETED, attachments := [])); }
  }

  // ---- a message and the row of its conversation ----

  /** The remembered message of the conversation is later than m, in (time, id). */
  predicate Behind(newest: map<string, LatestMessage>, m: Message)
  {
    && m.conversationID in newest
    && var l := newest[m.conversationID];
    l.time > m.time || (l.time == m.time && Less(m.id, l.messageID))
  }

  /** The applied message goes to the head of its conversation's row. */
  predicate Heads(db: DB, e: Incoming, watermark: Option<nat>)
    requires e.data.MessageData?
  {
    var m := e.data.message;
    && e.key.kind.MessageKind? && !Stale(db, e.key, watermark)
    && Presentable(m) && !Behind(db.newest, m)
    && IsConversation(db, m.conversationID) && RowOf(db, m.conversationID).updated <= m.time
  }

  /** The row shows the message. */
  predicate Shows(row: Conversation, m: Message)
  {
    && row.preview == ShownText(m) && row.previewSenderID == m.senderID
    && row.previewDirection == m.direction && row.updated == m.time
  }

  /** At most what a row shows, when it was updated and its badge differ. */
  predicate SameButSummary(a: Conversation, b: Conversation)
  {
    b == a.(preview := b.preview, previewSenderID := b.previewSenderID, previewDirection := b.previewDirection,
            updated := b.updated, unread := b.unread, unreadCount := b.unreadCount)
  }

  /** What a message that may raise or clear the badge makes of it; only WhatsApp rows count. */
  predicate BadgeMoved(a: Conversation, b: Conversation, unread: Option<bool>)
  {
    match unread
    case None => b.unread == a.unread && b.unreadCount == a.unreadCount
    case Some(true) =>
      b.unread && b.unreadCount == if a.protocol == "whatsapp" then (a.unreadCount + 1) % UINT32 else a.unreadCount
    case Some(false) =>
      !b.unread && b.unreadCount == if a.protocol == "whatsapp" then 0 else a.unreadCount
  }

  lemma MergeShows(row: Conversation, m: Message, l: LatestMessage, unread: Option<bool>)
    requires Describes(l, m) && row.updated <= m.time
    ensures var merged := MergeLatest(row, l, unread).0;
      Shows(merged, m) && SameButSummary(row, merged) && BadgeMoved(row, merged, unread)
    ensures !MergeLatest(row, l, unread).1 ==> MergeLatest(row, l, unread).0 == row
  {
  }

  ghost predicate RowTakes(db: DB, r: DB, m: Message, unread: Option<bool>, heads: bool, x: string)
    requires IsConversation(db, x)
  {
    && IsConversation(r, x)
    && (if heads && x == m.conversationID
        then Shows(RowOf(r, x), m) && SameButSummary(RowOf(db, x), RowOf(r, x)) && BadgeMoved(RowOf(db, x), RowOf(r, x), unread)
        else RowOf(r, x) == RowOf(db, x))
  }

  lemma UpdateShows(db: DB, m: Message, l: LatestMessage, unread: Option<bool>, now: Time, x: string)
    requires Describes(l, m) && IsConversation(db, x)
    requires UpdateConversationTx(db, m.conversationID, Merge(l, unread), now).Done?
    ensures var r := UpdateConversationTx(db, m.conversationID, Merge(l, unread), now).db;
      RowTakes(db, r, m, unread, x == m.conversationID && RowOf(db, x).updated <= m.time, x)
  {
    RowFrame(db, m.conversationID, Merge(l, unread), now, Key(ConversationKind, x));
    if x == m.conversationID && RowOf(db, x).updated <= m.time { MergeShows(RowOf(db, x), m, l, unread); }
  }

  lemma RefreshShows(db: DB, m: Message, isNew: bool, status: string, now: Time, x: string)
    requires RefreshConversationTx(db, m, isNew, status, now).Done? && IsConversation(db, x)
    ensures var heads := Presentable(m) && !Behind(db.newest, m) && x == m.conversationID && RowOf(db, x).updated <= m.time;
      RowTakes(db, RefreshConversationTx(db, m, isNew, status, now).db, m, UnreadAfter(m, isNew, status, now), heads, x)
  {
    SourceDescribes(m);
    if Presentable(m) && !Behind(db.newest, m) {
      var l := PreviewSource(m).value;
      UpdateShows(db.(newest := db.newest[m.conversationID := l]), m, l, UnreadAfter(m, isNew, status, now), now, x);
    }
  }

  /** What applying the message makes of the badge, by what was stored before. */
  function News(db: DB, e: Incoming, now: Time): Option<bool>
    requires e.data.MessageData?
  {
    UnreadAfter(e.data.message, e.key !in db.log.latest && !e.historical, PreviousStatus(db, e.key), now)
  }

  /**
   * Applying a message: if it goes to the head of its conversation, the row shows
   * its text, sender, direction and time; every other row stays, and so does this
   * one if the message is stale, shows nothing, is behind the remembered one or
   * earlier than the row.
   */
  lemma AppliedShows(db: DB, e: Incoming, private: map<string, Bytes>, watermark: Option<nat>, now: Time, x: string)
    requires e.key.kind.MessageKind? && Apply(db, e, private, watermark, now).Done? && IsConversation(db, x)
    ensures RowTakes(db, Apply(db, e, private, watermark, now).db, e.data.message, News(db, e, now), Heads(db, e, watermark), x)
  {
    var key, m := Key(ConversationKind, x), e.data.message;
    var applied := if Stale(db, e.key, watermark) then Done(db, false) else ApplyFresh(db, e, private, now);
    ConfirmFrame(applied.db, m, now, key);
    if !Stale(db, e.key, watermark) {
      ClaimFrame(db, e, private, now, key);
      RefreshShows(ClaimAndStore(db, e, private, now).db, m, e.key !in db.log.latest && !e.historical, PreviousStatus(db, e.key), now, x);
    }
  }

  // ---- a row snapshot ----

  predicate ShowsEntry(row: Conversation, l: LatestMessage)
  {
    row.preview == l.preview && row.previewSenderID == l.senderID && row.previewDirection == l.direction
  }

  predicate SameSummary(a: Conversation, b: Conversation)
  {
    && a.preview == b.preview && a.previewSenderID == b.previewSenderID && a.previewDirection == b.previewDirection
    && a.updated == b.updated
  }

  /** The session's stored row, unless the snapshot is as late. */
  function LaterRow(db: DB, sent: Conversation): Conversation
  {
    var key := Key(ConversationKind, sent.id);
    if key in db.log.latest && db.log.latest[key].ConversationData? && EntityCurrent(db, key)
       && db.log.latest[key].conversation.updated > sent.updated
    then db.log.latest[key].conversation else sent
  }

  /** The later summary, unless the remembered message is as late: then that message. */
  predicate Summarised(newest: map<string, LatestMessage>, later: Conversation, row: Conversation)
  {
    if row.id in newest && newest[row.id].time >= later.updated
    then ShowsEntry(row, newest[row.id]) && row.updated == newest[row.id].time
    else SameSummary(row, later)
  }

  /**
   * The snapshot's own row in everything but its summary and badge; those are of
   * the later one of the snapshot and the session's stored row.
   */
  predicate TakenFrom(db: DB, sent: Conversation, row: Conversation)
  {
    var later := LaterRow(db, sent);
    && SameButSummary(sent, row) && Summarised(db.newest, later, row)
    && row.unread == later.unread && row.unreadCount == later.unreadCount
  }

  lemma MergeEntry(row: Conversation, l: LatestMessage)
    ensures var merged := MergeLatest(row, l, None).0;
      if l.time < row.updated then merged == row
      else ShowsEntry(merged, l) && merged.updated == l.time && SameButSummary(row, merged) && BadgeMoved(row, merged, None)
  {
  }

  lemma CarriedIsLater(sent: Conversation, stored: Conversation, later: Conversation)
    requires later == if stored.updated > sent.updated then stored else sent
    ensures var row := CarryOver(sent, stored);
      SameButSummary(sent, row) && SameSummary(row, later) && row.unread == later.unread && row.unreadCount == later.unreadCount
  {
  }

  lemma PreviewTakes(db: DB, sent: Conversation)
    requires sent.schema == SCHEMA && sent.id != "" && PreviewConversation(db, ConversationData(sent)).Some?
    ensures var row := PreviewConversation(db, ConversationData(sent)).value;
      row.ConversationData? && row.conversation.schema == SCHEMA && TakenFrom(db, sent, row.conversation)
  {
    var key, later := Key(ConversationKind, sent.id), LaterRow(db, sent);
    var carried := if key in db.log.latest && EntityCurrent(db, key) then CarryOver(sent, db.log.latest[key].conversation) else sent;
    if key in db.log.latest && EntityCurrent(db, key) { CarriedIsLater(sent, db.log.latest[key].conversation, later); }
    if sent.id in db.newest { MergeEntry(carried, db.newest[sent.id]); }
  }

  /** A preview derived from a newer message survives an older snapshot of the same row, and a newer snapshot replaces it. */
  lemma SnapshotShows(db: DB, e: Incoming, private: map<string, Bytes>, watermark: Option<nat>, now: Time)
    requires e.key.kind.ConversationKind? && WellFormed(e) && !Stale(db, e.key, watermark)
    requires Apply(db, e, private, watermark, now).Done?
    ensures var r := Apply(db, e, private, watermark, now).db;
      IsConversation(r, e.key.id) && TakenFrom(db, e.data.conversation, RowOf(r, e.key.id))
  {
    ClaimFrame(db, e, private, now, e.key);
    PreviewTakes(db, e.data.conversation);
  }

  // ---- every run ----

  /** A row as late as the remembered message shows that message. */
  ghost predicate RowShowsNewest(db: DB, c: string)
  {
    IsConversation(db, c) && c in db.newest && RowOf(db, c).updated == db.newest[c].time ==> ShowsEntry(RowOf(db, c), db.newest[c])
  }

  /** The provider's row is fenced off, or shows the remembered message if it is exactly as late. */
  ghost predicate ResultShows(db: DB, e: Incoming, mark: nat)
  {
    || Stale(db, e.key, Some(mark))
    || !e.data.ConversationData? || e.data.conversation.schema != SCHEMA
    || e.key.id !in db.newest || e.data.conversation.updated != db.newest[e.key.id].time
    || ShowsEntry(e.data.conversation, db.newest[e.key.id])
  }

  /** FinishConversation stores the provider's row as it is: rows go on showing the remembered message if and only if that row does. */
  lemma FinishShowsIff(db: DB, id: string, e: Incoming, private: map<string, Bytes>, mark: nat, now: Time)
    requires RowShowsNewest(db, e.key.id) && FinishConversation(db, id, e, private, mark, now).Done?
    ensures RowShowsNewest(FinishConversation(db, id, e, private, mark, now).db, e.key.id) <==> ResultShows(db, e, mark)
  {
    FinishRow(db, id, e, private, mark, now);
    FinishMessages(db, id, e, private, mark, now, e.key.id, "");
  }

  lemma MessageShows(db: DB, e: Incoming, private: map<string, Bytes>, watermark: Option<nat>, now: Time, c: string)
    requires RowShowsNewest(db, c) && e.key.kind.MessageKind? && Apply(db, e, private, watermark, now).Done?
    ensures RowShowsNewest(Apply(db, e, private, watermark, now).db, c)
  {
    var r, m := Apply(db, e, private, watermark, now).db, e.data.message;
    var applied := if Stale(db, e.key, watermark) then Done(db, false) else ApplyFresh(db, e, private, now);
    var key := Key(ConversationKind, c);
    if !Stale(db, e.key, watermark) {
      FreshRemembers(db, e, private, now);
      FreshFrame(db, e, private, now, key);
    }
    ConfirmFrame(applied.db, m, now, key);
    SourceDescribes(m);
    MessageNewest(db, m, c);
    if IsConversation(db, c) { AppliedShows(db, e, private, watermark, now, c); }
    else { MessageMakesNoRow(db, e, private, watermark, now, c); }
  }

  lemma MessageNewest(db: DB, m: Message, c: string)
    ensures if Presentable(m) && !Behind(db.newest, m)
            then PreviewSource(m).Some? && Remember(db.newest, m) == db.newest[m.conversationID := PreviewSource(m).value]
            else Remember(db.newest, m) == db.newest
  {
    SourceDescribes(m);
  }

  lemma MessageMakesNoRow(db: DB, e: Incoming, private: map<string, Bytes>, watermark: Option<nat>, now: Time, c: string)
    requires !IsConversation(db, c) && e.key.kind.MessageKind? && Apply(db, e, private, watermark, now).Done?
    ensures !IsConversation(Apply(db, e, private, watermark, now).db, c)
  {
    var key, m := Key(ConversationKind, c), e.data.message;
    var applied := if Stale(db, e.key, watermark) then Done(db, false) else ApplyFresh(db, e, private, now);
    ConfirmFrame(applied.db, m, now, key);
    if !Stale(db, e.key, watermark) {
      ClaimFrame(db, e, private, now, key);
      var isNew, status := e.key !in db.log.latest && !e.historical, PreviousStatus(db, e.key);
      var source := PreviewSource(m);
      var kept := ClaimAndStore(db, e, private, now).db;
      if source.Some? && !(m.conversationID in kept.newest && Ahead(kept.newest[m.conversationID], source.value)) {
        UpdateReaches(kept.(newest := kept.newest[m.conversationID := source.value]), m.conversationID,
                      Merge(source.value, UnreadAfter(m, isNew, status, now)), now, c);
      }
    }
  }

  /** What a run must keep to: rows come well formed, and finished conversation requests bring rows that show what they should. */
  ghost predicate Faithful(db: DB, t: Txn)
  {
    match t
    case ApplyTxn(e, _, _, _) => WellFormed(e)
    case FinishConversationTxn(_, e, _, mark, _) => ResultShows(db, e, mark)
    case _ => true
  }

  lemma ApplyKeepsShown(db: DB, t: Txn, c: string)
    requires RowShowsNewest(db, c) && t.ApplyTxn? && WellFormed(t.e) && Apply(db, t.e, t.private, t.watermark, t.now).Done?
    ensures RowShowsNewest(Apply(db, t.e, t.private, t.watermark, t.now).db, c)
  {
    if t.e.key.kind.MessageKind? {
      MessageShows(db, t.e, t.private, t.watermark, t.now, c);
    } else {
      ApplyNonMessage(db, t.e, t.private, t.watermark, t.now, "");
      if !Stale(db, t.e.key, t.watermark) {
        ClaimFrame(db, t.e, t.private, t.now, Key(ConversationKind, c));
        if t.e.key == Key(ConversationKind, c) { SnapshotShows(db, t.e, t.private, t.watermark, t.now); }
      }
    }
  }

  lemma FinishKeepsShown(db: DB, t: Txn, c: string)
    requires RowShowsNewest(db, c) && t.FinishConversationTxn? && ResultShows(db, t.e, t.mark)
    requires FinishConversation(db, t.id, t.e, t.private, t.mark, t.now).Done?
    ensures RowShowsNewest(FinishConversation(db, t.id, t.e, t.private, t.mark, t.now).db, c)
  {
    if c == t.e.key.id {
      FinishShowsIff(db, t.id, t.e, t.private, t.mark, t.now);
    } else {
      FinishConversationFrame(db, t.id, t.e, t.private, t.mark, t.now, Key(ConversationKind, c));
    }
  }

  lemma StepShows(db: DB, t: Txn, c: string)
    requires RowShowsNewest(db, c) && Faithful(db, t) && Counters.Stamped(db.own)
    ensures RowShowsNewest(Step(db, t), c)
  {
    var key := Key(ConversationKind, c);
    if t.ApplyTxn? {
      if Apply(db, t.e, t.private, t.watermark, t.now).Done? { ApplyKeepsShown(db, t, c); }
    } else if t.ReadTxn? {
      if ReadConversation(db, t.id, t.through, t.now).Done? { RowFrame(db, t.id, ReadThrough(t.through), t.now, key); }
    } else if t.FinishConversationTxn? {
      if FinishConversation(db, t.id, t.e, t.private, t.mark, t.now).Done? { FinishKeepsShown(db, t, c); }
    } else if t.SavePairedTxn? && t.newPhone {
      if SavePairedSession(db, t.session, true, t.now).Done? { NewPhoneTable(db, t.session, t.now); }
    } else {
      StepFrame(db, t, key);
      if t.AdoptTxn? { AdoptAt(db, ""); } else { StepTable(db, t, ""); }
    }
  }

  ghost predicate AllFaithful(db: DB, ts: seq<Txn>)
    decreases |ts|
  {
    ts == [] || (Faithful(db, ts[0]) && AllFaithful(Step(db, ts[0]), ts[1..]))
  }

  lemma {:induction false} RunShows(db: DB, ts: seq<Txn>, c: string)
    requires RowShowsNewest(db, c) && AllFaithful(db, ts) && Counters.Stamped(db.own)
    ensures RowShowsNewest(Run(db, ts), c)
    decreases |ts|
  {
    if ts != [] {
      StepShows(db, ts[0], c);
      Counters.StepStamped(db, ts[0]);
      RunShows(Step(db, ts[0]), ts[1..], c);
    }
  }

  // ---- after a rebuild ----

  /** The row is no earlier than the remembered message, and shows it if it is as late. */
  ghost predicate RowFollows(db: DB, c: string)
  {
    RowFloor(db, c) && RowShowsNewest(db, c)
  }

  lemma UpdateFollows(db: DB, id: string, now: Time, c: string)
    requires id in db.newest && UpdateConversationTx(db, id, Merge(db.newest[id], None), now).Done?
    requires c == id || RowFollows(db, c)
    ensures RowFollows(UpdateConversationTx(db, id, Merge(db.newest[id], None), now).db, c)
  {
    UpdateReaches(db, id, Merge(db.newest[id], None), now, c);
    RowFrame(db, id, Merge(db.newest[id], None), now, Key(ConversationKind, c));
    if c == id && IsConversation(db, c) { MergeEntry(RowOf(db, c), db.newest[c]); }
  }

  lemma {:induction false} MergeRowsFollow(db: DB, newest: map<string, LatestMessage>, ids: seq<string>, now: Time, c: string)
    requires (forall id :: id in ids ==> id in newest) && db.newest == newest
    requires MergeRows(db, newest, ids, now).Done? && (c in ids || RowFollows(db, c))
    ensures RowFollows(MergeRows(db, newest, ids, now).db, c)
    decreases |ids|
  {
    if ids != [] {
      var next := UpdateConversationTx(db, ids[0], Merge(newest[ids[0]], None), now).db;
      RowFrame(db, ids[0], Merge(newest[ids[0]], None), now, Key(ConversationKind, c));
      if c == ids[0] || RowFollows(db, c) { UpdateFollows(db, ids[0], now, c); }
      MergeRowsFollow(next, newest, ids[1..], now, c);
    }
  }

  /** Rebuilding the cache brings every row up to its newest message. */
  lemma RebuildFollows(db: DB, now: Time, c: string)
    requires EnsureConversationPreviews(db, now).Done?
    ensures RowFollows(EnsureConversationPreviews(db, now).db, c)
  {
    var newest := NewestFrom(Messages(db, SortedKeys(KindIds(db.log.latest, MessageKind))), map[]);
    if c in newest {
      assert c in SortedKeys(newest.Keys);
    } else {
      assert RowFollows(db.(newest := newest), c);
    }
    MergeRowsFollow(db.(newest := newest), newest, SortedKeys(newest.Keys), now, c);
  }

  // ---- the newest message, over every run ----

  /** The session message of c that no other is later than, in (time, id). */
  ghost predicate NewestOf(db: DB, c: string, id: string)
  {
    && Shown(db, c, id)
    && forall x :: Shown(db, c, x) ==>
         TimeOf(db, x) < TimeOf(db, id) || (TimeOf(db, x) == TimeOf(db, id) && !Less(id, x))
  }

  /**
   * Over every run: a row exactly as late as its session's newest message shows
   * that message's text, sender and direction, whatever redeliveries, receipts,
   * history pages and older snapshots came before or after it.
   */
  lemma RowShowsNewestMessage(ts: seq<Txn>, c: string, id: string)
    requires AllSteady(EMPTY, ts) && AllFaithful(EMPTY, ts)
    requires var db := Run(EMPTY, ts);
      IsConversation(db, c) && NewestOf(db, c, id) && RowOf(db, c).updated == TimeOf(db, id)
    ensures Shows(RowOf(Run(EMPTY, ts), c), Run(EMPTY, ts).log.latest[Key(MessageKind, id)].message)
  {
    var db := Run(EMPTY, ts);
    EmptyExact();
    RunExact(EMPTY, ts);
    RunShows(EMPTY, ts, c);
    NewestIsCached(db, c, id);
  }

  lemma NewestIsCached(db: DB, c: string, id: string)
    requires CacheExact(db) && MessagesNamed(db) && NewestOf(db, c, id)
    ensures c in db.newest && Describes(db.newest[c], db.log.latest[Key(MessageKind, id)].message)
  {
    var messages := CurrentMessages(db);
    assert ExactAt(db.newest, messages, c);
    CurrentAt(db, id);
    assert ShownIn(messages, c, id) && MessageNamed(db, id);
    var other := db.newest[c].messageID;
    CurrentAt(db, other);
    assert MessageNamed(db, other);
    assert Shown(db, c, other);
    SourceDescribes(messages[id]);
    SourceDescribes(messages[other]);
    LessTotal(id, other);
  }
}
