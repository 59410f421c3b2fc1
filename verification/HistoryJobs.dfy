/** Import jobs over whole runs: generations, cursors and the pages behind them. */
module HistoryJobs {
  import opened Records
  import opened Buckets
  import opened StoreSpec
  import opened Frames

  /** Everything the store keeps for one job. */
  datatype Track = Track(job: Option<HistoryJob>, cursor: Bytes, seen: set<Bytes>)

  function JobOf(lookup: JobLookup): Option<HistoryJob>
  {
    if lookup.Found? then Some(lookup.job) else None
  }

  function TrackOf(db: DB, h: string): Track
  {
    Track(JobOf(HistoryTx(db, h)), HistoryCursor(db, h), SeenPages(db, h))
  }

  /** Zero before the job exists. */
  function Generation(track: Track): nat
  {
    if track.job.Some? then track.job.value.generation else 0
  }

  predicate IsQueued(track: Track)
  {
    track.job.Some? && track.job.value.state.JobQueued?
  }

  // ---- what a transaction may do to one job ----

  /** At most timestamps, details and ownership change. */
  predicate Quiet(a: Track, b: Track)
  {
    && b.cursor == a.cursor && b.seen == a.seen
    && (a.job.None? <==> b.job.None?)
    && (a.job.Some? ==> b.job.value == a.job.value.(
          updated := b.job.value.updated, retryAt := b.job.value.retryAt,
          detail := b.job.value.detail, sessionEpoch := b.job.value.sessionEpoch))
  }

  /** Paused from anywhere short of complete, or failed from the queue; the generation stays. */
  predicate Stopped(a: Track, b: Track)
  {
    && b.cursor == a.cursor && b.seen == a.seen && a.job.Some? && b.job.Some?
    && b.job.value.generation == a.job.value.generation
    && b.job.value.pages == a.job.value.pages && b.job.value.records == a.job.value.records
    && ((b.job.value.state.JobPaused? && !a.job.value.state.JobComplete?)
        || (b.job.value.state.JobFailed? && a.job.value.state.JobQueued?))
  }

  /** Queued under a new generation, going on where it stopped. */
  predicate Resumed(a: Track, b: Track)
  {
    && b.cursor == a.cursor && b.seen == a.seen && IsQueued(b) && Generation(b) > Generation(a)
    && !IsQueued(a) && b.job.value.pages == (if a.job.Some? then a.job.value.pages else 0)
    && b.job.value.records == (if a.job.Some? then a.job.value.records else 0)
    && (a.job.Some? ==> !a.job.value.state.JobComplete?)
  }

  /** Under a new generation with nothing read: an explicit restart, or a new phone. */
  predicate Restarted(a: Track, b: Track)
  {
    && b.cursor == [] && b.seen == {} && b.job.Some? && Generation(b) > Generation(a)
    && b.job.value.pages == 0 && b.job.value.records == 0 && (b.job.value.state.JobQueued? || b.job.value.state.JobPaused?)
  }

  /** A new phone forgets every cursor; a job that never existed has no more to lose. */
  predicate Emptied(a: Track, b: Track)
  {
    a.job.None? && b == a.(cursor := [])
  }

  /** A page is read: the cursor moves, and the job ends, fails or goes on by what the next cursor is. */
  predicate Turned(a: Track, b: Track, next: Bytes)
  {
    && IsQueued(a) && b.job.Some?
    && b.cursor == next && b.seen == a.seen + {a.cursor}
    && b.job.value.generation == a.job.value.generation && b.job.value.pages == a.job.value.pages + 1
    && b.job.value.state == (if next == [] then JobComplete else if next in b.seen then JobFailed else JobQueued)
    && (b.job.value.state.JobFailed? ==> b.job.value.detail == REPEATED_CURSOR)
  }

  /** The transaction is a successful page turn of job h. */
  predicate Turns(db: DB, t: Txn, h: string)
  {
    && t.CheckpointTxn? && t.id == h && h != "" && t.detail == "" && IsQueued(TrackOf(db, h))
    && t.generation == Generation(TrackOf(db, h)) && t.previous == HistoryCursor(db, h)
  }

  /** A committed restart of job h, or a committed new phone. */
  ghost predicate StartsOver(db: DB, t: Txn, next: DB, h: string)
  {
    next != db && ((t.QueueHistoryTxn? && t.restart && t.job.id == h) || (t.SavePairedTxn? && t.newPhone))
  }

  predicate Stops(t: Txn, h: string)
  {
    (t.PauseHistoryTxn? || t.FailHistoryTxn?) && t.id == h
  }

  predicate Queues(t: Txn, h: string)
  {
    t.QueueHistoryTxn? && t.job.id == h
  }

  ghost predicate JobMoves(db: DB, t: Txn, next: DB, h: string)
  {
    var a, b := TrackOf(db, h), TrackOf(next, h);
    if Turns(db, t, h) then Turned(a, b, t.next) && b.job.value.records == a.job.value.records + t.records
    else if StartsOver(db, t, next, h) then (Restarted(a, b) && (IsQueued(b) ==> Queues(t, h))) || Emptied(a, b)
    else Quiet(a, b) || (Stops(t, h) && Stopped(a, b)) || (Queues(t, h) && Resumed(a, b))
  }

  // ---- which transactions reach the store ----

  predicate NoCursor(private: map<string, Bytes>)
  {
    forall name :: name in private ==> !HasPrefix(name, "history:")
  }

  /** Snapshots never name a job or its cursor, and a job starts with nothing read. */
  predicate KeepsCursors(t: Txn)
  {
    match t
    case ApplyTxn(e, private, _, _) => Owned(e.key.kind) && NoCursor(private)
    case FinishConversationTxn(_, _, private, _, _) => NoCursor(private)
    case PutPrivateTxn(name, _) => !HasPrefix(name, "history:")
    case QueueHistoryTxn(job, _, _) => job.pages == 0 && job.records == 0
    case _ => true
  }

  lemma CursorKeyPrefix(h: string)
    ensures HasPrefix(CursorKey(h), "history:")
  {
    assert CursorKey(h)[..8] == "history:";
  }

  lemma CursorKeyInjective(h: string, other: string)
    requires CursorKey(h) == CursorKey(other)
    ensures h == other
  {
    assert CursorKey(h)[8..] == h && CursorKey(other)[8..] == other;
  }

  /** Jobs are stored under their own ids, as jobs. */
  ghost predicate JobNamed(db: DB, h: string)
  {
    !HistoryTx(db, h).Broken? && (HistoryTx(db, h).Found? ==> HistoryTx(db, h).job.id == h)
  }

  ghost predicate JobsNamed(db: DB)
  {
    forall h :: JobNamed(db, h)
  }

  // ---- transactions that leave jobs alone ----

  lemma SameTrack(a: DB, b: DB, h: string)
    requires SameAt(a.log, b.log, Key(HistoryKind, h)) && b.pages == a.pages
    requires CursorKey(h) in a.private <==> CursorKey(h) in b.private
    requires CursorKey(h) in a.private ==> a.private[CursorKey(h)] == b.private[CursorKey(h)]
    ensures TrackOf(b, h) == TrackOf(a, h) && HistoryTx(b, h) == HistoryTx(a, h)
  {
  }

  lemma ApplyTrack(db: DB, t: Txn, next: DB, h: string)
    requires t.ApplyTxn? && KeepsCursors(t) && next == Commit(db, Apply(db, t.e, t.private, t.watermark, t.now))
    ensures TrackOf(next, h) == TrackOf(db, h) && HistoryTx(next, h) == HistoryTx(db, h)
  {
    var k := Key(HistoryKind, h);
    if Apply(db, t.e, t.private, t.watermark, t.now).Done? {
      CursorKeyPrefix(h);
      var applied := if Stale(db, t.e.key, t.watermark) then Done(db, false) else ApplyFresh(db, t.e, t.private, t.now);
      if !Stale(db, t.e.key, t.watermark) { FreshFrame(db, t.e, t.private, t.now, k); }
      if t.e.key.kind.MessageKind? { ConfirmFrame(applied.db, t.e.data.message, t.now, k); }
      SameTrack(db, next, h);
    }
  }

  lemma FinishTrack(db: DB, t: Txn, next: DB, h: string)
    requires t.FinishConversationTxn? && KeepsCursors(t)
    requires next == Commit(db, FinishConversation(db, t.id, t.e, t.private, t.mark, t.now))
    ensures TrackOf(next, h) == TrackOf(db, h) && HistoryTx(next, h) == HistoryTx(db, h)
  {
    if FinishConversation(db, t.id, t.e, t.private, t.mark, t.now).Done? {
      CursorKeyPrefix(h);
      FinishConversationFrame(db, t.id, t.e, t.private, t.mark, t.now, Key(HistoryKind, h));
      FinishPrivate(db, t.id, t.e, t.private, t.mark, t.now);
      SameTrack(db, next, h);
    }
  }

  lemma FinishPrivate(db: DB, id: string, e: Incoming, private: map<string, Bytes>, mark: nat, now: Time)
    requires FinishConversation(db, id, e, private, mark, now).Done?
    ensures FinishConversation(db, id, e, private, mark, now).db.private
         == if Stale(db, e.key, Some(mark)) then db.private else db.private + private
  {
    var stored := StoreResult(db, e, private, mark, now);
    if !Stale(db, e.key, Some(mark)) { SnapshotFrame(db, e.key, e.data, private, now, e.key); }
    WriteFrame(StampEpoch(stored.db, e.key), Finished(db.sends.outbox[id], e.key.id, now), now, e.key);
  }

  /** Transactions about sends, rows and pairing attempts. */
  ghost predicate LeavesJobs(t: Txn)
  {
    || t.OpenTxn? || t.ReadTxn? || t.EnqueueTxn? || t.ClaimTxn? || t.FinishTxn? || t.RejectTxn? || t.CancelTxn?
    || t.RecoverSendingTxn? || t.BeginPairingTxn? || t.ClearAttemptTxn? || t.RecoverAttemptTxn? || t.AdoptTxn?
    || t.SaveSessionTxn? || t.PutPrivateTxn?
  }

  lemma LeavesJobsFrame(db: DB, t: Txn, k: Key)
    requires LeavesJobs(t) && k.kind.HistoryKind?
    ensures SameAt(db.log, Step(db, t).log, k) && Step(db, t).pages == db.pages
    ensures !t.PutPrivateTxn? ==> Step(db, t).private == db.private
  {
    match t
    case ReadTxn(id, through, now) =>
      if ReadConversation(db, id, through, now).Done? { RowFrame(db, id, ReadThrough(through), now, k); }
    case RecoverSendingTxn(now) =>
      var known := Relinked(db);
      if RecoverSending(db, now).Done? { RewriteFrame(known, MarkAmbiguous, now, k); }
    case BeginPairingTxn(started, expires, now) =>
      if BeginPairingAttempt(db, started, expires, now).Done? { RewriteFrame(db, CancelForPairing, now, k); }
    case EnqueueTxn(_, _, _, _) => OutboxFrame(db, t, k);
    case ClaimTxn(_, _) => OutboxFrame(db, t, k);
    case FinishTxn(_, _, _, _) => OutboxFrame(db, t, k);
    case RejectTxn(_, _, _) => OutboxFrame(db, t, k);
    case CancelTxn(_, _) => OutboxFrame(db, t, k);
    case _ =>
  }

  lemma LeavesJobsTrack(db: DB, t: Txn, h: string)
    requires LeavesJobs(t) && KeepsCursors(t)
    ensures TrackOf(Step(db, t), h) == TrackOf(db, h) && HistoryTx(Step(db, t), h) == HistoryTx(db, h)
  {
    LeavesJobsFrame(db, t, Key(HistoryKind, h));
    CursorKeyPrefix(h);
    SameTrack(db, Step(db, t), h);
  }

  // ---- transactions on one job ----

  lemma WriteTrack(db: DB, job: HistoryJob, now: Time, h: string)
    requires WriteHistory(db, job, now).Done?
    ensures var r := WriteHistory(db, job, now).db;
      && HistoryTx(r, h) == (if h == job.id then Found(job.(updated := now)) else HistoryTx(db, h))
      && r.private == db.private && r.pages == db.pages
  {
    AppendFrame(db, Key(HistoryKind, job.id), HistoryData(job.(updated := now)), now, Key(HistoryKind, h));
  }

  lemma RequeueTrack(db: DB, job: HistoryJob, restart: bool, now: Time, h: string)
    requires Requeue(db, job, restart, now).Done?
    ensures var r := Requeue(db, job, restart, now).db;
      TrackOf(r, h) ==
        if h != job.id then TrackOf(db, h)
        else Track(Some(RequeuedJob(job, restart, db.own.epoch, now)),
                   if restart then [] else HistoryCursor(db, h), if restart then {} else SeenPages(db, h))
    ensures HistoryTx(Requeue(db, job, restart, now).db, h)
         == if h != job.id then HistoryTx(db, h) else Found(RequeuedJob(job, restart, db.own.epoch, now))
  {
    WriteTrack(ClearProgress(db, job.id, restart), RequeuedJob(job, restart, db.own.epoch, now), now, h);
    if CursorKey(h) == CursorKey(job.id) { CursorKeyInjective(h, job.id); }
  }

  lemma QueueTrack(db: DB, t: Txn, next: DB, h: string)
    requires t.QueueHistoryTxn? && JobNamed(db, h) && JobNamed(db, t.job.id)
    requires KeepsCursors(t) && next == Commit(db, QueueHistory(db, t.job, t.restart, t.now))
    ensures JobMoves(db, t, next, h) && JobNamed(next, h)
  {
    var lookup := HistoryTx(db, t.job.id);
    var job := if lookup.Found? then lookup.job else t.job;
    var r := Requeue(db, job, t.restart, t.now);
    if r.Done? && next == r.db {
      RequeueTrack(db, job, t.restart, t.now, h);
      RequeuedMoves(db, t, job, next, h);
    } else {
      assert next == db;
    }
  }

  lemma RequeuedMoves(db: DB, t: Txn, job: HistoryJob, next: DB, h: string)
    requires t.QueueHistoryTxn? && job.id == t.job.id && JobNamed(db, h)
    requires HistoryTx(db, job.id) == Found(job) || (HistoryTx(db, job.id).Missing? && job.pages == 0 && job.records == 0)
    requires t.restart || !(HistoryTx(db, job.id).Found? && (job.state.JobComplete? || job.state.JobQueued?))
    requires var queued := RequeuedJob(job, t.restart, db.own.epoch, t.now);
      && HistoryTx(next, h) == (if h != job.id then HistoryTx(db, h) else Found(queued))
      && TrackOf(next, h) == (if h != job.id then TrackOf(db, h)
                              else Track(Some(queued), if t.restart then [] else HistoryCursor(db, h), if t.restart then {} else SeenPages(db, h)))
    ensures JobMoves(db, t, next, h) && JobNamed(next, h)
  {
  }

  lemma PauseTrack(db: DB, t: Txn, next: DB, h: string)
    requires t.PauseHistoryTxn? && JobNamed(db, h) && JobNamed(db, t.id) && next == Commit(db, PauseHistory(db, t.id, t.now))
    ensures JobMoves(db, t, next, h) && JobNamed(next, h)
  {
    var lookup := HistoryTx(db, t.id);
    if lookup.Found? && next != db { WriteTrack(db, lookup.job.(state := JobPaused, updated := t.now), t.now, h); }
  }

  lemma FailTrack(db: DB, t: Txn, next: DB, h: string)
    requires t.FailHistoryTxn? && JobNamed(db, h) && JobNamed(db, t.id)
    requires next == Commit(db, FailHistory(db, t.id, t.generation, t.detail, t.now))
    ensures JobMoves(db, t, next, h) && JobNamed(next, h)
  {
    var lookup := HistoryTx(db, t.id);
    if lookup.Found? && next != db { WriteTrack(db, lookup.job.(state := JobFailed, detail := t.detail, retryAt := 0), t.now, h); }
  }

  lemma TurnTrack(db: DB, job: HistoryJob, next: Bytes, records: nat, now: Time, h: string)
    requires HistoryTx(db, job.id) == Found(job) && job.state.JobQueued?
    requires var seen := SeenPages(db, job.id) + {HistoryCursor(db, job.id)};
      WriteHistory(TurnPage(db, job.id, seen, next), Advanced(job, seen, next, records), now).Done?
    ensures var seen := SeenPages(db, job.id) + {HistoryCursor(db, job.id)};
      var r := WriteHistory(TurnPage(db, job.id, seen, next), Advanced(job, seen, next, records), now).db;
      && (if h == job.id
          then Turned(TrackOf(db, h), TrackOf(r, h), next) && TrackOf(r, h).job.value.records == job.records + records
          else TrackOf(r, h) == TrackOf(db, h))
      && (JobNamed(db, h) ==> JobNamed(r, h))
  {
    var seen := SeenPages(db, job.id) + {HistoryCursor(db, job.id)};
    WriteTrack(TurnPage(db, job.id, seen, next), Advanced(job, seen, next, records), now, h);
    if CursorKey(h) == CursorKey(job.id) { CursorKeyInjective(h, job.id); }
  }

  lemma CheckpointTrack(db: DB, t: Txn, next: DB, h: string)
    requires t.CheckpointTxn? && JobNamed(db, h) && JobNamed(db, t.id)
    requires next == Commit(db, CheckpointHistory(db, t.id, t.generation, t.previous, t.next, t.records, t.detail, t.now))
    ensures JobMoves(db, t, next, h) && JobNamed(next, h)
  {
    var lookup := HistoryTx(db, t.id);
    if lookup.Found? {
      if t.detail != "" {
        if next != db { WriteTrack(db, lookup.job.(detail := t.detail, retryAt := t.now + RETRY), t.now, h); }
      } else if Turns(db, t, t.id) {
        TurnTrack(db, lookup.job, t.next, t.records, t.now, h);
      } else {
        assert next == db;
      }
    }
  }

  // ---- transactions on every job ----

  lemma {:induction false} AssignAt(db: DB, jobs: seq<HistoryJob>, now: Time, h: string)
    requires AssignJobEpochs(db, jobs, now).Done?
    requires forall i :: 0 <= i < |jobs| ==> jobs[i].id == h ==> HistoryTx(db, h) == Found(jobs[i])
    requires forall i, j :: 0 <= i < j < |jobs| ==> jobs[i].id != jobs[j].id
    ensures var r := AssignJobEpochs(db, jobs, now).db;
      Quiet(TrackOf(db, h), TrackOf(r, h)) && (JobNamed(db, h) ==> JobNamed(r, h))
    decreases |jobs|
  {
    if jobs != [] {
      var job := jobs[0].(sessionEpoch := db.own.epoch);
      var r := if jobs[0].sessionEpoch != 0 then Done(db, true) else WriteHistory(db, job, now);
      if jobs[0].sessionEpoch == 0 { WriteTrack(db, job, now, h); }
      forall i | 0 <= i < |jobs[1..]| && jobs[1..][i].id == h ensures HistoryTx(r.db, h) == Found(jobs[1..][i]) {
        assert jobs[1..][i] == jobs[i + 1];
      }
      AssignAt(r.db, jobs[1..], now, h);
    }
  }

  /** Every listed job is paused under its next generation with no pages; the others stay. */
  lemma {:induction false} PauseAt(db: DB, jobs: seq<HistoryJob>, now: Time, h: string)
    requires PauseJobs(db, jobs, now).Done?
    requires forall i, j :: 0 <= i < j < |jobs| ==> jobs[i].id != jobs[j].id
    ensures var r := PauseJobs(db, jobs, now).db;
      && r.private == db.private
      && (forall i :: 0 <= i < |jobs| ==> jobs[i].id == h ==>
            HistoryTx(r, h) == Found(PausedJob(jobs[i]).(updated := now)) && SeenPages(r, h) == {})
      && ((forall i :: 0 <= i < |jobs| ==> jobs[i].id != h) ==>
            HistoryTx(r, h) == HistoryTx(db, h) && SeenPages(r, h) == SeenPages(db, h))
    decreases |jobs|
  {
    if jobs != [] {
      var cleared := db.(pages := db.pages - {jobs[0].id});
      WriteTrack(cleared, PausedJob(jobs[0]), now, h);
      var r := WriteHistory(cleared, PausedJob(jobs[0]), now);
      PauseAt(r.db, jobs[1..], now, h);
      if jobs[0].id == h {
        forall i | 0 <= i < |jobs[1..]| ensures jobs[1..][i].id != h { assert jobs[1..][i] == jobs[i + 1]; }
      }
      forall i | 0 <= i < |jobs| && jobs[i].id == h
        ensures HistoryTx(PauseJobs(db, jobs, now).db, h) == Found(PausedJob(jobs[i]).(updated := now)) && SeenPages(PauseJobs(db, jobs, now).db, h) == {} {
        if i > 0 { assert jobs[1..][i - 1] == jobs[i]; }
      }
    }
  }

  lemma {:induction false} JobsAt(db: DB, ids: seq<string>)
    requires forall id :: id in ids ==> Key(HistoryKind, id) in db.log.latest && db.log.latest[Key(HistoryKind, id)].HistoryData?
    ensures |Jobs(db, ids)| == |ids|
    ensures forall i :: 0 <= i < |ids| ==> Jobs(db, ids)[i] == db.log.latest[Key(HistoryKind, ids[i])].job
  {
    if ids != [] { JobsAt(db, ids[1..]); }
  }

  /** The listing both bulk transactions walk: every job once, under its own id. */
  ghost predicate Listing(db: DB, ids: seq<string>, jobs: seq<HistoryJob>)
  {
    && |jobs| == |ids| && (forall i, j :: 0 <= i < j < |jobs| ==> jobs[i].id != jobs[j].id)
    && (forall i :: 0 <= i < |ids| ==> jobs[i].id == ids[i] && HistoryTx(db, ids[i]) == Found(jobs[i]))
    && (forall h :: HistoryTx(db, h).Found? ==> h in ids)
  }

  lemma JobAt(db: DB, id: string)
    requires JobNamed(db, id) && JobsReadable(db) && Key(HistoryKind, id) in db.log.latest
    ensures db.log.latest[Key(HistoryKind, id)].HistoryData?
    ensures db.log.latest[Key(HistoryKind, id)].job.id == id && HistoryTx(db, id) == Found(db.log.latest[Key(HistoryKind, id)].job)
  {
    assert Key(HistoryKind, id) in db.log.latest.Keys;
  }

  ghost predicate JobIds(db: DB, ids: seq<string>)
  {
    && Sorted(ids)
    && (forall id :: id in ids ==> HistoryTx(db, id).Found? && HistoryTx(db, id).job.id == id)
    && (forall h :: HistoryTx(db, h).Found? ==> h in ids)
  }

  lemma JobIdsSorted(db: DB)
    requires JobsNamed(db) && JobsReadable(db)
    ensures JobIds(db, SortedKeys(KindIds(db.log.latest, HistoryKind)))
  {
    var ids := SortedKeys(KindIds(db.log.latest, HistoryKind));
    SortedKeysSorted(KindIds(db.log.latest, HistoryKind));
    forall h ensures (h in ids ==> HistoryTx(db, h).Found? && HistoryTx(db, h).job.id == h) && (HistoryTx(db, h).Found? ==> h in ids) {
      KindIdMember(db.log.latest, HistoryKind, h);
      assert JobNamed(db, h);
      if h in ids { JobAt(db, h); }
    }
  }

  lemma ListingOf(db: DB, ids: seq<string>)
    requires JobIds(db, ids)
    ensures forall id :: id in ids ==> Key(HistoryKind, id) in db.log.latest && db.log.latest[Key(HistoryKind, id)].HistoryData?
    ensures Listing(db, ids, Jobs(db, ids))
  {
    JobsAt(db, ids);
    var jobs := Jobs(db, ids);
    forall i | 0 <= i < |ids| ensures jobs[i].id == ids[i] && HistoryTx(db, ids[i]) == Found(jobs[i]) { assert ids[i] in ids; }
    DistinctJobs(ids, jobs);
  }

  lemma ListingJobs(db: DB)
    requires JobsNamed(db) && JobsReadable(db)
    ensures var ids := SortedKeys(KindIds(db.log.latest, HistoryKind)); Listing(db, ids, Jobs(db, ids))
  {
    JobIdsSorted(db);
    ListingOf(db, SortedKeys(KindIds(db.log.latest, HistoryKind)));
  }

  lemma DistinctJobs(ids: seq<string>, jobs: seq<HistoryJob>)
    requires |ids| == |jobs| && Sorted(ids) && forall i :: 0 <= i < |ids| ==> jobs[i].id == ids[i]
    ensures forall i, j :: 0 <= i < j < |jobs| ==> jobs[i].id != jobs[j].id
  {
    forall i, j | 0 <= i < j < |jobs| ensures jobs[i].id != jobs[j].id { LessTotal(ids[i], ids[j]); }
  }

  lemma UpgradeTrack(db: DB, now: Time, next: DB, h: string)
    requires JobsNamed(db) && next == Commit(db, UpgradeSessionMetadata(db, now))
    ensures Quiet(TrackOf(db, h), TrackOf(next, h)) && JobNamed(next, h)
  {
    assert JobNamed(db, h);
    if UpgradeSessionMetadata(db, now).Done? && db.own.epoch != 0 {
      var owned := RewriteOutbox(db, AssignEpoch(db.own.epoch), now).db;
      RewriteTracks(db, AssignEpoch(db.own.epoch), now, owned);
      assert TrackOf(owned, h) == TrackOf(db, h);
      ListingJobs(owned);
      AssignAt(owned, Jobs(owned, SortedKeys(KindIds(owned.log.latest, HistoryKind))), now, h);
    }
  }

  /** A bulk rewrite of the outbox leaves every job alone. */
  lemma RewriteTracks(db: DB, rewrite: Rewrite, now: Time, next: DB)
    requires RewriteOutbox(db, rewrite, now).Done? && next == RewriteOutbox(db, rewrite, now).db
    ensures forall h :: TrackOf(next, h) == TrackOf(db, h) && HistoryTx(next, h) == HistoryTx(db, h)
    ensures JobsNamed(db) ==> JobsNamed(next)
  {
    forall h ensures TrackOf(next, h) == TrackOf(db, h) && HistoryTx(next, h) == HistoryTx(db, h) {
      RewriteFrame(db, rewrite, now, Key(HistoryKind, h));
      SameTrack(db, next, h);
    }
    if JobsNamed(db) {
      forall h ensures JobNamed(next, h) { assert JobNamed(db, h); }
    }
  }

  lemma PausedTrack(db: DB, ids: seq<string>, jobs: seq<HistoryJob>, now: Time, h: string)
    requires Listing(db, ids, jobs) && JobNamed(db, h) && CursorKey(h) !in db.private && PauseJobs(db, jobs, now).Done?
    ensures var r := PauseJobs(db, jobs, now).db;
      && (Restarted(TrackOf(db, h), TrackOf(r, h)) || Emptied(TrackOf(db, h), TrackOf(r, h)))
      && JobNamed(r, h) && !IsQueued(TrackOf(r, h))
  {
    PauseAt(db, jobs, now, h);
    if HistoryTx(db, h).Found? {
      var i :| 0 <= i < |ids| && ids[i] == h;
      assert jobs[i].id == h;
    } else {
      forall i | 0 <= i < |jobs| ensures jobs[i].id != h { assert HistoryTx(db, ids[i]) == Found(jobs[i]); }
    }
  }

  lemma NewEpochTracks(db: DB)
    requires JobsNamed(db)
    ensures JobsNamed(NewEpoch(db))
    ensures forall h :: TrackOf(NewEpoch(db), h) == TrackOf(db, h).(cursor := [])
  {
    var begun := NewEpoch(db);
    forall h ensures JobNamed(begun, h) && TrackOf(begun, h) == TrackOf(db, h).(cursor := []) {
      assert JobNamed(db, h) && HistoryTx(begun, h) == HistoryTx(db, h);
    }
  }

  lemma BeginSessionTrack(db: DB, now: Time, next: DB, h: string)
    requires JobsNamed(db) && BeginSession(db, now).Done? && next == BeginSession(db, now).db
    ensures Restarted(TrackOf(db, h), TrackOf(next, h)) || Emptied(TrackOf(db, h), TrackOf(next, h))
    ensures JobNamed(next, h) && !IsQueued(TrackOf(next, h))
  {
    var begun := NewEpoch(db);
    NewEpochTracks(db);
    assert JobNamed(begun, h);
    ListingJobs(begun);
    var ids := SortedKeys(KindIds(begun.log.latest, HistoryKind));
    PausedTrack(begun, ids, Jobs(begun, ids), now, h);
  }

  lemma SavePairedTrack(db: DB, session: Bytes, newPhone: bool, now: Time, next: DB, h: string)
    requires JobsNamed(db) && next == Commit(db, SavePairedSession(db, session, newPhone, now))
    ensures if newPhone && next != db
            then !IsQueued(TrackOf(next, h)) && (Restarted(TrackOf(db, h), TrackOf(next, h)) || Emptied(TrackOf(db, h), TrackOf(next, h)))
            else Quiet(TrackOf(db, h), TrackOf(next, h))
    ensures JobNamed(next, h)
  {
    assert JobNamed(db, h);
    if SavePairedSession(db, session, newPhone, now).Done? {
      var saved := PairedSession(db, session);
      forall x ensures TrackOf(saved, x) == TrackOf(db, x) && HistoryTx(saved, x) == HistoryTx(db, x) { SameTrack(db, saved, x); }
      forall x ensures JobNamed(saved, x) { assert JobNamed(db, x); }
      var canceled := RewriteOutbox(saved, CancelForPairing, now).db;
      RewriteTracks(saved, CancelForPairing, now, canceled);
      if newPhone { BeginSessionTrack(canceled, now, next, h); }
    }
  }

  // ---- every transaction ----

  lemma HistoryTrack(db: DB, t: Txn, next: DB, h: string)
    requires JobsNamed(db) && KeepsCursors(t) && next == Step(db, t)
    requires t.QueueHistoryTxn? || t.PauseHistoryTxn? || t.CheckpointTxn? || t.FailHistoryTxn?
    ensures JobMoves(db, t, next, h) && JobNamed(next, h)
  {
    assert JobNamed(db, h);
    match t
    case QueueHistoryTxn(job, _, _) =>
      assert JobNamed(db, job.id);
      QueueTrack(db, t, next, h);
    case PauseHistoryTxn(id, _) =>
      assert JobNamed(db, id);
      PauseTrack(db, t, next, h);
    case CheckpointTxn(id, _, _, _, _, _, _) =>
      assert JobNamed(db, id);
      CheckpointTrack(db, t, next, h);
    case FailHistoryTxn(id, _, _, _) =>
      assert JobNamed(db, id);
      FailTrack(db, t, next, h);
  }

  lemma StepTrack(db: DB, t: Txn, h: string)
    requires JobsNamed(db) && KeepsCursors(t)
    ensures JobMoves(db, t, Step(db, t), h) && JobNamed(Step(db, t), h)
  {
    var next := Step(db, t);
    assert JobNamed(db, h);
    if t.QueueHistoryTxn? || t.PauseHistoryTxn? || t.CheckpointTxn? || t.FailHistoryTxn? {
      HistoryTrack(db, t, next, h);
    } else if t.ApplyTxn? {
      ApplyTrack(db, t, next, h);
    } else if t.FinishConversationTxn? {
      FinishTrack(db, t, next, h);
    } else if t.UpgradeTxn? {
      UpgradeTrack(db, t.now, next, h);
    } else if t.SavePairedTxn? {
      SavePairedTrack(db, t.session, t.newPhone, t.now, next, h);
    } else {
      LeavesJobsTrack(db, t, h);
    }
  }

  lemma StepJobsNamed(db: DB, t: Txn)
    requires JobsNamed(db) && KeepsCursors(t)
    ensures JobsNamed(Step(db, t))
  {
    var next := Step(db, t);
    forall h ensures JobNamed(next, h) { StepTrack(db, t, h); }
  }

  /** A generation never comes back, and within one only a page turn moves the cursor. */
  lemma MovesCursor(db: DB, t: Txn, next: DB, h: string)
    requires JobMoves(db, t, next, h)
    ensures Generation(TrackOf(db, h)) <= Generation(TrackOf(next, h))
    ensures Generation(TrackOf(db, h)) == Generation(TrackOf(next, h)) && !t.CheckpointTxn? && TrackOf(db, h).job.Some? ==>
              TrackOf(next, h).cursor == TrackOf(db, h).cursor && TrackOf(next, h).seen == TrackOf(db, h).seen
              && (IsQueued(TrackOf(next, h)) ==> IsQueued(TrackOf(db, h)))
    ensures TrackOf(db, h).job.Some? ==> TrackOf(next, h).job.Some?
  {
  }

  ghost predicate AllKeepCursors(ts: seq<Txn>)
  {
    forall t :: t in ts ==> KeepsCursors(t)
  }

  lemma {:induction false} RunJobsNamed(db: DB, ts: seq<Txn>)
    requires JobsNamed(db) && AllKeepCursors(ts)
    ensures JobsNamed(Run(db, ts))
    decreases |ts|
  {
    if ts != [] {
      assert KeepsCursors(ts[0]);
      StepJobsNamed(db, ts[0]);
      RunJobsNamed(Step(db, ts[0]), ts[1..]);
    }
  }

  /** Whatever pauses, resumes, restarts and pairings intervene: same generation, same cursor. */
  lemma {:induction false} RunCursor(db: DB, ts: seq<Txn>, h: string)
    requires JobsNamed(db) && AllKeepCursors(ts) && TrackOf(db, h).job.Some?
    requires forall t :: t in ts ==> !t.CheckpointTxn?
    ensures var a, b := TrackOf(db, h), TrackOf(Run(db, ts), h);
      && b.job.Some? && Generation(a) <= Generation(b)
      && (Generation(a) == Generation(b) ==> b.cursor == a.cursor)
    decreases |ts|
  {
    if ts != [] {
      assert KeepsCursors(ts[0]) && !ts[0].CheckpointTxn?;
      StepTrack(db, ts[0], h);
      MovesCursor(db, ts[0], Step(db, ts[0]), h);
      StepJobsNamed(db, ts[0]);
      RunCursor(Step(db, ts[0]), ts[1..], h);
    }
  }

  /**
   * A worker that reads the job, then its cursor, then checkpoints, with anything
   * but another worker's page turns between the three, never meets a conflict.
   */
  lemma CheckpointNeverConflicts(
    db: DB, beforeCursor: seq<Txn>, beforeCheckpoint: seq<Txn>, h: string, next: Bytes, records: nat, detail: string, now: Time)
    requires JobsNamed(db) && HistoryTx(db, h).Found?
    requires AllKeepCursors(beforeCursor) && AllKeepCursors(beforeCheckpoint)
    requires forall t :: t in beforeCursor || t in beforeCheckpoint ==> !t.CheckpointTxn?
    ensures var read := Run(db, beforeCursor);
      var r := CheckpointHistory(Run(read, beforeCheckpoint), h, HistoryTx(db, h).job.generation, HistoryCursor(read, h), next, records, detail, now);
      r.Done? || r.error != Conflict
  {
    var read := Run(db, beforeCursor);
    RunCursor(db, beforeCursor, h);
    RunJobsNamed(db, beforeCursor);
    RunCursor(read, beforeCheckpoint, h);
  }

  lemma {:induction false} RunGeneration(db: DB, ts: seq<Txn>, h: string)
    requires JobsNamed(db) && AllKeepCursors(ts)
    ensures Generation(TrackOf(db, h)) <= Generation(TrackOf(Run(db, ts), h))
    decreases |ts|
  {
    if ts != [] {
      assert KeepsCursors(ts[0]);
      StepTrack(db, ts[0], h);
      MovesCursor(db, ts[0], Step(db, ts[0]), h);
      StepJobsNamed(db, ts[0]);
      RunGeneration(Step(db, ts[0]), ts[1..], h);
    }
  }

  /** Once the generation has moved on, a page read under the old one changes nothing, ever. */
  lemma StaleGenerationStops(
    db: DB, ts: seq<Txn>, h: string, generation: nat, previous: Bytes, next: Bytes, records: nat, detail: string, now: Time)
    requires JobsNamed(db) && AllKeepCursors(ts) && Generation(TrackOf(db, h)) > generation
    ensures Step(Run(db, ts), CheckpointTxn(h, generation, previous, next, records, detail, now)) == Run(db, ts)
    ensures Step(Run(db, ts), FailHistoryTxn(h, generation, detail, now)) == Run(db, ts)
  {
    RunGeneration(db, ts, h);
  }
}
