/** Queueing, pausing and failing an import: what each makes of the job, and what the worker does about it afterwards. */
module ImportControl {
  import opened Records
  import opened Buckets
  import opened StoreSpec
  import opened Frames
  import opened Committed
  import opened HistoryJobs
  import HistoryWorker

  // ---- when a request goes through ----

  lemma ControlGoesThroughIff(db: DB, t: Txn, h: string)
    requires JobsNamed(db) && h != ""
    ensures t.PauseHistoryTxn? && t.id == h ==> (GoesThrough(db, t) <==> HistoryTx(db, h).Found?)
    ensures t.FailHistoryTxn? && t.id == h ==> (GoesThrough(db, t) <==> HistoryTx(db, h).Found?)
    ensures t.QueueHistoryTxn? && t.job.id == h ==> GoesThrough(db, t)
    ensures t.CheckpointTxn? && t.id == h ==>
      (GoesThrough(db, t) <==>
         HistoryTx(db, h).Found? &&
         (IsQueued(TrackOf(db, h)) && t.generation == Generation(TrackOf(db, h)) ==> t.previous == HistoryCursor(db, h)))
  {
    assert JobNamed(db, h);
  }

  // ---- what it makes of the job ----

  /** Pausing stops a job that is not complete and keeps all its progress. */
  lemma PauseStops(db: DB, h: string, now: Time)
    requires JobsNamed(db) && GoesThrough(db, PauseHistoryTxn(h, now))
    ensures var a, b := TrackOf(db, h), TrackOf(Step(db, PauseHistoryTxn(h, now)), h);
      && a.job.Some?
      && (if a.job.value.state.JobComplete? then b == a
          else b == a.(job := Some(a.job.value.(state := JobPaused, updated := now))))
  {
    assert JobNamed(db, h);
    var job := HistoryTx(db, h).job;
    if !job.state.JobComplete? { WriteTrack(db, job.(state := JobPaused, updated := now), now, h); }
  }

  /**
   * A failure stops the queued job of its own generation, with its reason, and keeps
   * all progress; any other job it leaves alone.
   */
  lemma FailStops(db: DB, h: string, generation: nat, detail: string, now: Time)
    requires JobsNamed(db) && GoesThrough(db, FailHistoryTxn(h, generation, detail, now))
    ensures var a, b := TrackOf(db, h), TrackOf(Step(db, FailHistoryTxn(h, generation, detail, now)), h);
      && a.job.Some?
      && (if IsQueued(a) && Generation(a) == generation
          then b == a.(job := Some(a.job.value.(state := JobFailed, detail := detail, retryAt := 0, updated := now)))
          else b == a)
  {
    assert JobNamed(db, h);
    var job := HistoryTx(db, h).job;
    if job.state.JobQueued? && job.generation == generation {
      WriteTrack(db, job.(state := JobFailed, detail := detail, retryAt := 0), now, h);
    }
  }

  /** The job the request is about: the one known, or the one it brings. */
  function Known(db: DB, job: HistoryJob): HistoryJob
  {
    if HistoryTx(db, job.id).Found? then HistoryTx(db, job.id).job else job
  }

  /**
   * Queueing makes the job due at once under the next generation, for the current
   * session, where it was; a restart forgets everything read.
   */
  lemma QueueStarts(db: DB, job: HistoryJob, restart: bool, now: Time)
    requires JobsNamed(db) && GoesThrough(db, QueueHistoryTxn(job, restart, now))
    ensures var h, known := job.id, Known(db, job);
      var a, b := TrackOf(db, h), TrackOf(Step(db, QueueHistoryTxn(job, restart, now)), h);
      if a.job.Some? && !restart && (known.state.JobComplete? || known.state.JobQueued?) then b == a
      else
        && IsQueued(b) && Generation(b) == known.generation + 1 && b.job.value.sessionEpoch == db.own.epoch
        && b.job.value.retryAt == 0 && b.job.value.detail == ""
        && b.job.value.kind == known.kind && b.job.value.conversationID == known.conversationID && b.job.value.folder == known.folder
        && (if restart then b.cursor == [] && b.seen == {} && b.job.value.pages == 0 && b.job.value.records == 0
            else b.cursor == a.cursor && b.seen == a.seen && b.job.value.pages == known.pages && b.job.value.records == known.records)
  {
    assert JobNamed(db, job.id);
    var known := Known(db, job);
    if !(HistoryTx(db, job.id).Found? && !restart && (known.state.JobComplete? || known.state.JobQueued?)) {
      RequeueTrack(db, known, restart, now, job.id);
    }
  }

  /** A page that could not be fetched leaves the job queued where it was, not due for half a minute. */
  lemma RetryWaits(db: DB, h: string, next: Bytes, records: nat, detail: string, now: Time)
    requires JobsNamed(db) && h != "" && detail != "" && IsQueued(TrackOf(db, h))
    ensures var a := TrackOf(db, h);
      var b := TrackOf(Step(db, CheckpointTxn(h, Generation(a), a.cursor, next, records, detail, now)), h);
      b == a.(job := Some(a.job.value.(detail := detail, retryAt := now + RETRY, updated := now)))
  {
    assert JobNamed(db, h);
    var job := HistoryTx(db, h).job;
    WriteTrack(db, job.(detail := detail, retryAt := now + RETRY), now, h);
  }

  /** A conversation whose messages were never imported gets an import of its own. */
  lemma ListedConversationIsImported(db: DB, conversation: string, now: Time)
    requires JobsNamed(db) && HistoryTx(db, "messages:" + conversation).Missing?
    ensures var after := Step(db, QueueHistoryTxn(HistoryWorker.MessagesJob(conversation), false, now));
      var b := TrackOf(after, "messages:" + conversation);
      && IsQueued(b) && b.job.value.kind == "messages" && b.job.value.conversationID == conversation
      && b.job.value.pages == 0 && b.job.value.sessionEpoch == db.own.epoch && b.job.value.retryAt == 0
  {
    assert "messages:" + conversation != "";
    QueueStarts(db, HistoryWorker.MessagesJob(conversation), false, now);
  }

  /** Paused under the next generation, with nothing read. */
  predicate PausedAnew(a: HistoryJob, b: Track, now: Time)
  {
    b == Track(Some(a.(state := JobPaused, detail := JOB_PAIRING_CHANGED, generation := a.generation + 1,
                       pages := 0, records := 0, retryAt := 0, updated := now)), [], {})
  }

  lemma BegunPauses(db: DB, now: Time, h: string)
    requires JobsNamed(db) && BeginSession(db, now).Done? && HistoryTx(db, h).Found?
    ensures PausedAnew(HistoryTx(db, h).job, TrackOf(BeginSession(db, now).db, h), now)
  {
    var begun := NewEpoch(db);
    NewEpochTracks(db);
    assert JobNamed(begun, h) && HistoryTx(begun, h) == HistoryTx(db, h);
    ListingJobs(begun);
    var ids := SortedKeys(KindIds(begun.log.latest, HistoryKind));
    var i :| 0 <= i < |ids| && ids[i] == h;
    PauseAt(begun, Jobs(begun, ids), now, h);
  }

  /** A new phone pauses every import and says why. */
  lemma NewPhonePauses(db: DB, session: Bytes, now: Time, h: string)
    requires JobsNamed(db) && SavePairedSession(db, session, true, now).Done? && HistoryTx(db, h).Found?
    ensures PausedAnew(HistoryTx(db, h).job, TrackOf(SavePairedSession(db, session, true, now).db, h), now)
  {
    var saved := PairedSession(db, session);
    forall x ensures JobNamed(saved, x) { assert JobNamed(db, x); }
    var canceled := RewriteOutbox(saved, CancelForPairing, now).db;
    RewriteTracks(saved, CancelForPairing, now, canceled);
    assert HistoryTx(canceled, h) == HistoryTx(saved, h);
    BegunPauses(canceled, now, h);
  }

  // ---- jobs from before sessions were numbered ----

  lemma {:induction false} AssignedAt(db: DB, jobs: seq<HistoryJob>, now: Time, h: string, i: nat)
    requires AssignJobEpochs(db, jobs, now).Done? && i < |jobs| && jobs[i].id == h
    requires forall i, j :: 0 <= i < j < |jobs| ==> jobs[i].id != jobs[j].id
    requires HistoryTx(db, h) == Found(jobs[i])
    ensures var r := AssignJobEpochs(db, jobs, now).db;
      && HistoryTx(r, h).Found?
      && HistoryTx(r, h).job.sessionEpoch == if jobs[i].sessionEpoch == 0 then db.own.epoch else jobs[i].sessionEpoch
    decreases |jobs|
  {
    var job := jobs[0].(sessionEpoch := db.own.epoch);
    var r := if jobs[0].sessionEpoch != 0 then Done(db, true) else WriteHistory(db, job, now);
    if jobs[0].sessionEpoch == 0 { WriteTrack(db, job, now, h); }
    forall x, y | 0 <= x < y < |jobs[1..]| ensures jobs[1..][x].id != jobs[1..][y].id {
      assert jobs[1..][x] == jobs[x + 1] && jobs[1..][y] == jobs[y + 1];
    }
    if i > 0 {
      assert jobs[1..][i - 1] == jobs[i];
      AssignedAt(r.db, jobs[1..], now, h, i - 1);
    } else {
      OthersAssigned(r.db, jobs[1..], now, h);
    }
  }

  lemma {:induction false} OthersAssigned(db: DB, jobs: seq<HistoryJob>, now: Time, h: string)
    requires AssignJobEpochs(db, jobs, now).Done? && forall i :: 0 <= i < |jobs| ==> jobs[i].id != h
    ensures HistoryTx(AssignJobEpochs(db, jobs, now).db, h) == HistoryTx(db, h)
    decreases |jobs|
  {
    if jobs != [] {
      var job := jobs[0].(sessionEpoch := db.own.epoch);
      var r := if jobs[0].sessionEpoch != 0 then Done(db, true) else WriteHistory(db, job, now);
      if jobs[0].sessionEpoch == 0 { WriteTrack(db, job, now, h); }
      forall i | 0 <= i < |jobs[1..]| ensures jobs[1..][i].id != h { assert jobs[1..][i] == jobs[i + 1]; }
      OthersAssigned(r.db, jobs[1..], now, h);
    }
  }

  /** An upgrade gives a job without a session the current one, and leaves the others theirs. */
  lemma UpgradeAssigns(db: DB, now: Time, h: string)
    requires JobsNamed(db) && GoesThrough(db, UpgradeTxn(now)) && HistoryTx(db, h).Found?
    ensures var a, b := TrackOf(db, h), TrackOf(Step(db, UpgradeTxn(now)), h);
      && b.job.Some?
      && b.job.value.sessionEpoch == if a.job.value.sessionEpoch == 0 then db.own.epoch else a.job.value.sessionEpoch
  {
    assert JobNamed(db, h);
    if db.own.epoch != 0 {
      var owned := RewriteOutbox(db, AssignEpoch(db.own.epoch), now).db;
      RewriteTracks(db, AssignEpoch(db.own.epoch), now, owned);
      RewriteFrame(db, AssignEpoch(db.own.epoch), now, Key(HistoryKind, h));
      ListingJobs(owned);
      var ids := SortedKeys(KindIds(owned.log.latest, HistoryKind));
      var i :| 0 <= i < |ids| && ids[i] == h;
      AssignedAt(owned, Jobs(owned, ids), now, h, i);
    }
  }

  // ---- every run ----

  /** No request to queue job h goes through. */
  ghost predicate NotQueuedAgain(db: DB, ts: seq<Txn>, h: string)
    decreases |ts|
  {
    ts == [] || (!(Queues(ts[0], h) && GoesThrough(db, ts[0])) && NotQueuedAgain(Step(db, ts[0]), ts[1..], h))
  }

  /** How many pages of job h a run turns. */
  ghost function PagesTurned(db: DB, ts: seq<Txn>, h: string): nat
    decreases |ts|
  {
    if ts == [] then 0 else PagesTurned(Step(db, ts[0]), ts[1..], h) + if Turns(db, ts[0], h) then 1 else 0
  }

  lemma IdleStays(db: DB, t: Txn, h: string)
    requires JobsNamed(db) && KeepsCursors(t) && !IsQueued(TrackOf(db, h)) && !(Queues(t, h) && GoesThrough(db, t))
    ensures !IsQueued(TrackOf(Step(db, t), h)) && !Turns(db, t, h)
  {
    StepTrack(db, t, h);
    if !GoesThrough(db, t) { AbortChangesNothing(db, t); }
  }

  /**
   * Once a job is paused, failed or complete, nothing happens to it until somebody
   * queues it again: no page of it is turned, and no round of the worker chooses it,
   * whatever else goes on.
   */
  lemma {:induction false} StoppedUntilQueued(db: DB, ts: seq<Txn>, h: string)
    requires JobsNamed(db) && AllKeepCursors(ts) && !IsQueued(TrackOf(db, h)) && NotQueuedAgain(db, ts, h)
    ensures !IsQueued(TrackOf(Run(db, ts), h)) && PagesTurned(db, ts, h) == 0
    ensures forall now: Time, job :: HistoryWorker.Chosen(Run(db, ts), now, job) ==> job.id != h
    decreases |ts|
  {
    if ts != [] {
      assert KeepsCursors(ts[0]);
      IdleStays(db, ts[0], h);
      StepJobsNamed(db, ts[0]);
      StoppedUntilQueued(Step(db, ts[0]), ts[1..], h);
    }
  }

  /** So pausing and failing stop an import for good, up to a new request. */
  lemma PausedUntilQueued(db: DB, stop: Txn, ts: seq<Txn>, h: string)
    requires JobsNamed(db) && Stops(stop, h) && GoesThrough(db, stop)
    requires stop.FailHistoryTxn? ==> stop.generation == Generation(TrackOf(db, h))
    requires AllKeepCursors(ts) && NotQueuedAgain(Step(db, stop), ts, h)
    ensures PagesTurned(Step(db, stop), ts, h) == 0
    ensures forall now: Time, job :: HistoryWorker.Chosen(Run(Step(db, stop), ts), now, job) ==> job.id != h
  {
    if stop.PauseHistoryTxn? { PauseStops(db, h, stop.now); }
    else { FailStops(db, h, stop.generation, stop.detail, stop.now); }
    StepJobsNamed(db, stop);
    StoppedUntilQueued(Step(db, stop), ts, h);
  }

  // ---- records ----

  /** The records of the pages read since the job last started over. */
  ghost function RecordsRead(db: DB, ts: seq<Txn>, h: string, read: nat): nat
    decreases |ts|
  {
    if ts == [] then read else RecordsRead(Step(db, ts[0]), ts[1..], h, ReadAfter(db, ts[0], Step(db, ts[0]), h, read))
  }

  ghost function ReadAfter(db: DB, t: Txn, next: DB, h: string, read: nat): nat
  {
    if Turns(db, t, h) then read + t.records else if StartsOver(db, t, next, h) then 0 else read
  }

  function RecordsOf(track: Track): nat
  {
    if track.job.Some? then track.job.value.records else 0
  }

  lemma MovesRecords(db: DB, t: Txn, next: DB, h: string)
    requires JobMoves(db, t, next, h)
    ensures RecordsOf(TrackOf(next, h)) == ReadAfter(db, t, next, h, RecordsOf(TrackOf(db, h)))
  {
  }

  /** The count shown for a job is the sum over its pages. */
  lemma {:induction false} RecordsAddUp(db: DB, ts: seq<Txn>, h: string)
    requires JobsNamed(db) && AllKeepCursors(ts)
    ensures RecordsOf(TrackOf(Run(db, ts), h)) == RecordsRead(db, ts, h, RecordsOf(TrackOf(db, h)))
    decreases |ts|
  {
    if ts != [] {
      assert KeepsCursors(ts[0]);
      StepTrack(db, ts[0], h);
      MovesRecords(db, ts[0], Step(db, ts[0]), h);
      StepJobsNamed(db, ts[0]);
      RecordsAddUp(Step(db, ts[0]), ts[1..], h);
    }
  }
}
