/** History pages fetched before a newer observation of a record can no longer overwrite it. */
module Fence {
  import opened Records
  import opened Buckets
  import opened StoreSpec
  import opened Frames

  /** A row the newest-message path rewrites, or at least looks at, when message m is applied. */
  ghost predicate TouchesRow(db: DB, m: Message, k: Key)
  {
    && k == Key(ConversationKind, m.conversationID)
    && PreviewSource(m).Some?
    && !(m.conversationID in db.newest && Ahead(db.newest[m.conversationID], PreviewSource(m).value))
    && IsRow(db, k)
  }

  /** Transaction t, committed from db, observes record k. */
  ghost predicate Observes(db: DB, t: Txn, k: Key)
  {
    match t
    case ApplyTxn(e, private, watermark, now) =>
      && Apply(db, e, private, watermark, now).Done?
      && !Stale(db, e.key, watermark)
      && (k == e.key || (e.key.kind.MessageKind? && e.data.MessageData? && TouchesRow(db, e.data.message, k)))
    case ReadTxn(id, _, _) => k == Key(ConversationKind, id) && IsRow(db, k) && id != ""
    case FinishConversationTxn(id, e, private, mark, now) =>
      && FinishConversation(db, id, e, private, mark, now).Done?
      && k == e.key && !Stale(db, e.key, Some(mark))
    case _ => false
  }

  ghost predicate ObservedSince(db: DB, k: Key, mark: nat)
  {
    k in db.seen.versions && db.seen.versions[k] > mark
  }

  lemma RowObserved(db: DB, id: string, mutation: Mutation, now: Time)
    requires IsRow(db, Key(ConversationKind, id))
    requires UpdateConversationTx(db, id, mutation, now).Done?
    ensures ObservedSince(UpdateConversationTx(db, id, mutation, now).db, Key(ConversationKind, id), db.seen.versionSeq)
  {
  }

  lemma FreshObserved(db: DB, e: Incoming, private: map<string, Bytes>, now: Time, k: Key)
    requires ApplyFresh(db, e, private, now).Done? && Numbered(db.seen, k)
    requires k == e.key || (e.key.kind.MessageKind? && e.data.MessageData? && TouchesRow(db, e.data.message, k))
    ensures ObservedSince(ApplyFresh(db, e, private, now).db, k, db.seen.versionSeq)
  {
    ClaimFrame(db, e, private, now, k);
    var kept := ClaimAndStore(db, e, private, now).db;
    if e.key.kind.MessageKind? && e.data.MessageData? {
      var m := e.data.message;
      var isNew, status := e.key !in db.log.latest && !e.historical, PreviousStatus(db, e.key);
      if k == e.key {
        RefreshEvolves(kept, m, isNew, status, now, k);
      } else {
        var l := PreviewSource(m).value;
        RowObserved(kept.(newest := kept.newest[m.conversationID := l]), m.conversationID,
                    Merge(l, UnreadAfter(m, isNew, status, now)), now);
      }
    }
  }

  /** An observation is numbered above every watermark read before it. */
  lemma StepObserved(db: DB, t: Txn, k: Key)
    requires Numbered(db.seen, k) && Observes(db, t, k)
    ensures ObservedSince(Step(db, t), k, db.seen.versionSeq)
  {
    match t
    case ApplyTxn(e, private, watermark, now) =>
      FreshObserved(db, e, private, now, k);
      var stored := ApplyFresh(db, e, private, now).db;
      if e.key.kind.MessageKind? { ConfirmFrame(stored, e.data.message, now, k); }
    case ReadTxn(id, through, now) =>
      RowObserved(db, id, ReadThrough(through), now);
    case FinishConversationTxn(id, e, private, mark, now) =>
      SnapshotFrame(db, e.key, e.data, private, now, k);
      var stored := StoreResult(db, e, private, mark, now).db;
      WriteFrame(StampEpoch(stored, e.key), Finished(db.sends.outbox[id], e.key.id, now), now, k);
  }

  /** A watermark is read, then anything happens, then k is observed, then anything happens again. */
  ghost function Fenced(start: seq<Txn>, before: seq<Txn>, observing: Txn, after: seq<Txn>): DB
  {
    Run(Step(Run(Run(EMPTY, start), before), observing), after)
  }

  lemma ObservationLasts(start: seq<Txn>, before: seq<Txn>, observing: Txn, after: seq<Txn>, k: Key)
    requires Observes(Run(Run(EMPTY, start), before), observing, k)
    ensures ObservedSince(Fenced(start, before, observing, after), k, Run(EMPTY, start).seen.versionSeq)
  {
    var marked := Run(EMPTY, start);
    var mid := Run(marked, before);
    RunEvolves(EMPTY, start, k);
    RunEvolves(marked, before, k);
    StepObserved(mid, observing, k);
    StepEvolves(mid, observing, k);
    RunEvolves(Step(mid, observing), after, k);
  }

  /** A fenced page can still confirm a send, and does nothing else. */
  lemma FencedApply(db: DB, e: Incoming, private: map<string, Bytes>, mark: nat, now: Time)
    requires ObservedSince(db, e.key, mark)
    ensures Commit(db, Apply(db, e, private, Some(mark), now))
         == if e.key.kind.MessageKind? && e.data.MessageData? then Commit(db, ConfirmSendTx(db, e.data.message, now)) else db
  {
  }

  /**
   * From the observation on, applying k under the earlier watermark leaves its
   * snapshot, all private data, the newest-message cache and session ownership
   * exactly as they are; at most a send is confirmed.
   */
  lemma HistoryFence(
    start: seq<Txn>, before: seq<Txn>, observing: Txn, after: seq<Txn>,
    e: Incoming, private: map<string, Bytes>, now: Time)
    requires Observes(Run(Run(EMPTY, start), before), observing, e.key)
    ensures var db := Fenced(start, before, observing, after);
      var next := Step(db, ApplyTxn(e, private, Some(Run(EMPTY, start).seen.versionSeq), now));
      && next == db.(log := next.log, sends := next.sends)
      && (e.key.kind.MessageKind? ==> SameAt(db.log, next.log, e.key))
      && (!e.key.kind.MessageKind? ==> next == db)
  {
    var db := Fenced(start, before, observing, after);
    ObservationLasts(start, before, observing, after, e.key);
    FencedApply(db, e, private, Run(EMPTY, start).seen.versionSeq, now);
    if e.key.kind.MessageKind? && e.data.MessageData? && ConfirmSendTx(db, e.data.message, now).Done? {
      ConfirmFrame(db, e.data.message, now, e.key);
    }
  }

  /** The same fence on the row a conversation request returns: its snapshot and private data stay. */
  lemma FinishFence(
    start: seq<Txn>, before: seq<Txn>, observing: Txn, after: seq<Txn>,
    id: string, e: Incoming, private: map<string, Bytes>, now: Time)
    requires Observes(Run(Run(EMPTY, start), before), observing, e.key) && e.key.kind.ConversationKind?
    ensures var db := Fenced(start, before, observing, after);
      var next := Step(db, FinishConversationTxn(id, e, private, Run(EMPTY, start).seen.versionSeq, now));
      SameAt(db.log, next.log, e.key) && next == db.(log := next.log, sends := next.sends, own := next.own)
  {
    var db, mark := Fenced(start, before, observing, after), Run(EMPTY, start).seen.versionSeq;
    ObservationLasts(start, before, observing, after, e.key);
    FencedFinish(db, id, e, private, mark, now);
  }

  lemma FencedFinish(db: DB, id: string, e: Incoming, private: map<string, Bytes>, mark: nat, now: Time)
    requires ObservedSince(db, e.key, mark) && e.key.kind.ConversationKind?
    ensures var next := Commit(db, FinishConversation(db, id, e, private, mark, now));
      SameAt(db.log, next.log, e.key) && next == db.(log := next.log, sends := next.sends, own := next.own)
  {
    assert StoreResult(db, e, private, mark, now) == Done(db, false);
    if FinishConversation(db, id, e, private, mark, now).Done? {
      WriteFrame(StampEpoch(db, e.key), Finished(db.sends.outbox[id], e.key.id, now), now, e.key);
    }
  }
}
