/** What applying a page of history can and cannot do to what is stored already. */
module PageEffects {
  import opened Records
  import opened Buckets
  import opened StoreSpec
  import opened Frames
  import opened Committed
  import opened Rows
  import HistoryWorker
  import Fence
  import Badges

  /** A page never overwrites what was observed since its watermark was read; at most it confirms a send. */
  lemma PageIsFenced(db: DB, snapshot: Snapshot, mark: nat, now: Time)
    requires Fence.ObservedSince(db, snapshot.event.key, mark)
    ensures var next := Step(db, HistoryWorker.PageTxn(snapshot, mark, now));
      && next == db.(log := next.log, sends := next.sends) && SameAt(db.log, next.log, snapshot.event.key)
  {
    var e := snapshot.event.(historical := true);
    Fence.FencedApply(db, e, snapshot.private, mark, now);
    if e.key.kind.MessageKind? && e.data.MessageData? && ConfirmSendTx(db, e.data.message, now).Done? {
      ConfirmFrame(db, e.data.message, now, e.key);
    }
  }

  /** And it lights no badge, but with a snapshot of the very row. */
  lemma PageLightsNothing(db: DB, snapshot: Snapshot, mark: nat, now: Time, c: string)
    requires !Badges.Lit(db, c) && snapshot.event.key != Key(ConversationKind, c)
    ensures !Badges.Lit(Step(db, HistoryWorker.PageTxn(snapshot, mark, now)), c)
  {
    var t := HistoryWorker.PageTxn(snapshot, mark, now);
    if Badges.Lit(Step(db, t), c) { Badges.OnlyNewsLights(db, t, c); }
  }

  /**
   * In a round of the worker: once the watermark is read, anything may observe the
   * record before a snapshot of the page is applied; then that application changes
   * neither the record nor any private data.
   */
  lemma RoundNeverOverwrites(marked: DB, ts: seq<Txn>, i: int, snapshot: Snapshot, now: Time)
    requires Through(marked, ts, HistoryWorker.PageTxn(snapshot, marked.seen.versionSeq, now), i)
    requires Fence.ObservedSince(Run(marked, ts[..i]), snapshot.event.key, marked.seen.versionSeq)
    ensures var before, after := Run(marked, ts[..i]), Run(marked, ts[..i + 1]);
      after == before.(log := after.log, sends := after.sends) && SameAt(before.log, after.log, snapshot.event.key)
  {
    var before := Run(marked, ts[..i]);
    assert ts[..i + 1] == ts[..i] + [ts[i]];
    RunSplit(marked, ts[..i], [ts[i]]);
    RunOne(before, ts[i]);
    PageIsFenced(before, snapshot, marked.seen.versionSeq, now);
  }
}
