/** Unread badges: what lights one, and what puts it out. */
module Badges {
  import opened Records
  import opened Buckets
  import opened StoreSpec
  import opened Frames
  import opened Rows
  import opened Previews

  /** A live message from someone else that was not stored yet, was not displayed elsewhere, and is at most five minutes old. */
  predicate Fresh(db: DB, e: Incoming, now: Time)
  {
    && e.key.kind.MessageKind? && e.data.MessageData? && e.key !in db.log.latest && !e.historical
    && e.data.message.direction == "incoming" && !Contains(e.data.message.status, "displayed")
    && now <= e.data.message.time + UNREAD_WINDOW
  }

  predicate Lit(db: DB, c: string)
  {
    IsConversation(db, c) && RowOf(db, c).unread
  }

  lemma MergeBadge(row: Conversation, l: LatestMessage, unread: Option<bool>)
    ensures MergeLatest(row, l, unread).0.unread ==> row.unread || unread == Some(true)
  {
  }

  lemma UnreadIsFresh(m: Message, isNew: bool, status: string, now: Time)
    ensures UnreadAfter(m, isNew, status, now) == Some(true) ==>
              isNew && m.direction == "incoming" && !Contains(m.status, "displayed") && now <= m.time + UNREAD_WINDOW
  {
  }

  lemma UpdateBadge(db: DB, id: string, mutation: Mutation, now: Time, c: string)
    requires UpdateConversationTx(db, id, mutation, now).Done? && !Lit(db, c)
    ensures Lit(UpdateConversationTx(db, id, mutation, now).db, c) ==> c == id && mutation.Merge? && mutation.unread == Some(true)
  {
    RowFrame(db, id, mutation, now, Key(ConversationKind, c));
    if c == id && IsConversation(db, c) && mutation.Merge? { MergeBadge(RowOf(db, c), mutation.latest, mutation.unread); }
  }

  lemma RefreshBadge(db: DB, m: Message, isNew: bool, status: string, now: Time, c: string)
    requires RefreshConversationTx(db, m, isNew, status, now).Done? && !Lit(db, c)
    ensures Lit(RefreshConversationTx(db, m, isNew, status, now).db, c) ==>
              c == m.conversationID && UnreadAfter(m, isNew, status, now) == Some(true)
  {
    var source := PreviewSource(m);
    if source.Some? && !(m.conversationID in db.newest && Ahead(db.newest[m.conversationID], source.value)) {
      UpdateBadge(db.(newest := db.newest[m.conversationID := source.value]), m.conversationID,
                  Merge(source.value, UnreadAfter(m, isNew, status, now)), now, c);
    }
  }

  /** Only a fresh message of the conversation, or a snapshot of its own row, lights its badge. */
  lemma ApplyLights(db: DB, e: Incoming, private: map<string, Bytes>, watermark: Option<nat>, now: Time, c: string)
    requires Apply(db, e, private, watermark, now).Done? && !Lit(db, c)
    requires Lit(Apply(db, e, private, watermark, now).db, c)
    ensures e.key == Key(ConversationKind, c) || (Fresh(db, e, now) && e.data.message.conversationID == c)
  {
    var key := Key(ConversationKind, c);
    if e.key.kind.MessageKind? {
      var m := e.data.message;
      var applied := if Stale(db, e.key, watermark) then Done(db, false) else ApplyFresh(db, e, private, now);
      ConfirmFrame(applied.db, m, now, key);
      if !Stale(db, e.key, watermark) {
        var isNew, status := e.key !in db.log.latest && !e.historical, PreviousStatus(db, e.key);
        ClaimFrame(db, e, private, now, key);
        RefreshBadge(ClaimAndStore(db, e, private, now).db, m, isNew, status, now, c);
        UnreadIsFresh(m, isNew, status, now);
      }
    } else if !Stale(db, e.key, watermark) {
      ClaimFrame(db, e, private, now, key);
    }
  }

  /** The phone has displayed the message since it was last stored, or one of the owner's devices has just sent it. */
  predicate PutsOut(db: DB, e: Incoming)
  {
    && e.key.kind.MessageKind? && e.data.MessageData?
    && var m := e.data.message;
    || (m.direction == "incoming" && Contains(m.status, "displayed") && !Contains(PreviousStatus(db, e.key), "displayed"))
    || (m.direction == "outgoing" && e.key !in db.log.latest && !e.historical)
  }

  lemma NewsMeaning(db: DB, e: Incoming, now: Time)
    requires e.key.kind.MessageKind? && e.data.MessageData?
    ensures News(db, e, now) == (if Fresh(db, e, now) then Some(true) else if PutsOut(db, e) then Some(false) else None)
  {
  }

  /** How a badge stands after an event: of the message at the head of the row, of a snapshot of the row, or as it was. */
  ghost predicate LitAfter(db: DB, e: Incoming, watermark: Option<nat>, now: Time, c: string)
    requires IsConversation(db, c)
  {
    if e.key == Key(ConversationKind, c) && e.data.ConversationData? && !Stale(db, e.key, watermark) then LaterRow(db, e.data.conversation).unread
    else if e.data.MessageData? && Heads(db, e, watermark) && e.data.message.conversationID == c
    then Fresh(db, e, now) || (Lit(db, c) && !PutsOut(db, e))
    else Lit(db, c)
  }

  /**
   * A stored row's badge after any applied event. A fresh message that goes to the
   * head of its row lights it; one displayed on the phone, or sent by the owner,
   * puts it out; a snapshot of the row sets it unless the session's row is later.
   */
  lemma ApplyLightsIff(db: DB, e: Incoming, private: map<string, Bytes>, watermark: Option<nat>, now: Time, c: string)
    requires WellFormed(e) && IsConversation(db, c) && Apply(db, e, private, watermark, now).Done?
    ensures Lit(Apply(db, e, private, watermark, now).db, c) <==> LitAfter(db, e, watermark, now, c)
  {
    if e.key.kind.MessageKind? {
      AppliedShows(db, e, private, watermark, now, c);
      NewsMeaning(db, e, now);
    } else if !Stale(db, e.key, watermark) {
      ClaimFrame(db, e, private, now, Key(ConversationKind, c));
      if e.key == Key(ConversationKind, c) { SnapshotShows(db, e, private, watermark, now); }
    }
  }

  /** On WhatsApp a fresh message at the head of its row counts one more unread, up to the counter's wrap-around, and one that puts the badge out resets the count. */
  lemma ApplyCounts(db: DB, e: Incoming, private: map<string, Bytes>, watermark: Option<nat>, now: Time)
    requires e.data.MessageData? && Heads(db, e, watermark) && Apply(db, e, private, watermark, now).Done?
    ensures var c := e.data.message.conversationID;
      var r := Apply(db, e, private, watermark, now).db;
      && IsConversation(r, c)
      && RowOf(r, c).unreadCount ==
           if RowOf(db, c).protocol != "whatsapp" then RowOf(db, c).unreadCount
           else if Fresh(db, e, now) then (RowOf(db, c).unreadCount + 1) % UINT32
           else if PutsOut(db, e) then 0
           else RowOf(db, c).unreadCount
  {
    AppliedShows(db, e, private, watermark, now, e.data.message.conversationID);
    NewsMeaning(db, e, now);
  }

  /** Of all transactions only an applied event or a finished conversation request can light a badge. */
  lemma OnlyNewsLights(db: DB, t: Txn, c: string)
    requires !Lit(db, c) && Lit(Step(db, t), c)
    ensures t.ApplyTxn? || (t.FinishConversationTxn? && t.e.key == Key(ConversationKind, c))
    ensures t.ApplyTxn? ==> t.e.key == Key(ConversationKind, c) || (Fresh(db, t.e, t.now) && t.e.data.message.conversationID == c)
  {
    var key := Key(ConversationKind, c);
    match t
    case ApplyTxn(e, private, watermark, now) =>
      if Apply(db, e, private, watermark, now).Done? { ApplyLights(db, e, private, watermark, now, c); }
    case ReadTxn(id, through, now) =>
      if ReadConversation(db, id, through, now).Done? { UpdateBadge(db, id, ReadThrough(through), now, c); }
    case FinishConversationTxn(id, e, private, mark, now) =>
      if FinishConversation(db, id, e, private, mark, now).Done? { FinishConversationFrame(db, id, e, private, mark, now, key); }
    case _ => StepFrame(db, t, key);
  }

  ghost predicate NoNews(db: DB, ts: seq<Txn>, c: string)
    decreases |ts|
  {
    ts == [] ||
    (var t := ts[0];
      && (t.ApplyTxn? ==> t.e.key != Key(ConversationKind, c) && !(Fresh(db, t.e, t.now) && t.e.data.message.conversationID == c))
      && (t.FinishConversationTxn? ==> t.e.key != Key(ConversationKind, c))
      && NoNews(Step(db, t), ts[1..], c))
  }

  /** Read through its newest message, a conversation stays read through redelivery, receipts, history and restarts until something new arrives. */
  lemma {:induction false} ReadStaysRead(db: DB, ts: seq<Txn>, c: string)
    requires !Lit(db, c) && NoNews(db, ts, c)
    ensures !Lit(Run(db, ts), c)
    decreases |ts|
  {
    if ts != [] {
      if Lit(Step(db, ts[0]), c) { OnlyNewsLights(db, ts[0], c); }
      ReadStaysRead(Step(db, ts[0]), ts[1..], c);
    }
  }

  /** Reading through the row's own time puts the badge and the count out; reading through less does nothing. */
  lemma ReadingClears(db: DB, c: string, through: Time, now: Time)
    requires c != "" && IsConversation(db, c)
    ensures var r := Step(db, ReadTxn(c, through, now));
      && IsConversation(r, c)
      && (RowOf(db, c).updated <= through ==> !RowOf(r, c).unread && RowOf(r, c).unreadCount == 0)
      && (RowOf(db, c).updated > through ==> RowOf(r, c) == RowOf(db, c))
  {
    RowFrame(db, c, ReadThrough(through), now, Key(ConversationKind, c));
  }
}
