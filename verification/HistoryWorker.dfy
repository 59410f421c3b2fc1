/**
 * The single history worker (internal/bridge/history.go) over a shared store. It
 * reads the job, its cursor and the watermark in separate transactions and waits
 * for the phone; `schedule` is what the other actors do at each of its pauses.
 */
module HistoryWorker {
  import opened Records
  import opened Buckets
  import opened StoreSpec
  import opened Committed
  import opened Engine
  import opened HistoryJobs
  import opened Pages

  /** What the phone answers; it may also be that the service stops first. */
  datatype Reply =
    | PageReply(snapshots: seq<Snapshot>, next: Bytes)
    | UnusableCursor
    | PhoneUnavailable
    | Stopping

  datatype Failure = StoreFailed(error: Error) | Invalid

  datatype Worked = Idle | Interrupted | PageTaken | WillRetry | ImportStopped | Broke(failure: Failure)

  const UNSUPPORTED := "Provider history cursor is unsupported or invalid; import stopped"
  const WILL_RETRY := "Phone history unavailable; will retry"
  const CONVERSATION_ID_LIMIT := 256

  predicate Due(job: HistoryJob, now: Time)
  {
    job.state.JobQueued? && job.retryAt <= now
  }

  /** The oldest due job. */
  ghost predicate Chosen(db: DB, now: Time, job: HistoryJob)
  {
    && HistoryTx(db, job.id) == Found(job) && Due(job, now)
    && forall h :: HistoryTx(db, h).Found? && Due(HistoryTx(db, h).job, now) ==> job.updated <= HistoryTx(db, h).job.updated
  }

  ghost predicate NobodyDue(db: DB, now: Time)
  {
    forall h :: HistoryTx(db, h).Found? ==> !Due(HistoryTx(db, h).job, now)
  }

  method ChooseJob(db: DB, now: Time) returns (r: Result<Option<HistoryJob>>)
    requires JobsNamed(db)
    ensures r.Err? ==> r.error == Undecodable && !JobsReadable(db)
    ensures r.Ok? && r.value.Some? ==> Chosen(db, now, r.value.value)
    ensures r.Ok? && r.value.None? ==> NobodyDue(db, now)
  {
    var listed := ListJobs(db);
    if listed.Err? { return Err(listed.error); }
    ListingJobs(db);
    ghost var ids := SortedKeys(KindIds(db.log.latest, HistoryKind));
    var best := OldestDue(listed.value, now);
    if best.Some? {
      ghost var i :| 0 <= i < |ids| && listed.value[i] == best.value;
      assert HistoryTx(db, ids[i]) == Found(listed.value[i]);
    }
    forall h | HistoryTx(db, h).Found? ensures HistoryTx(db, h).job in listed.value {
      var i :| 0 <= i < |ids| && ids[i] == h;
      assert HistoryTx(db, ids[i]) == Found(listed.value[i]);
    }
    return Ok(best);
  }

  method OldestDue(jobs: seq<HistoryJob>, now: Time) returns (best: Option<HistoryJob>)
    ensures best.Some? ==> best.value in jobs && Due(best.value, now)
    ensures best.Some? ==> forall job :: job in jobs && Due(job, now) ==> best.value.updated <= job.updated
    ensures best.None? ==> forall job :: job in jobs ==> !Due(job, now)
  {
    best := None;
    for i := 0 to |jobs|
      invariant best.Some? ==> best.value in jobs && Due(best.value, now)
      invariant best.Some? ==> forall k :: 0 <= k < i && Due(jobs[k], now) ==> best.value.updated <= jobs[k].updated
      invariant best.None? ==> forall k :: 0 <= k < i ==> !Due(jobs[k], now)
    {
      if Due(jobs[i], now) && (best.None? || jobs[i].updated < best.value.updated) { best := Some(jobs[i]); }
    }
  }

  // ---- pauses ----

  /** Anything legal but another worker's page turns. */
  ghost predicate Interference(ts: seq<Txn>)
  {
    AllKeepCursors(ts) && forall t :: t in ts ==> !t.CheckpointTxn?
  }

  function Pause(schedule: seq<seq<Txn>>, i: nat): seq<Txn>
  {
    if i < |schedule| then schedule[i] else []
  }

  ghost predicate Scheduled(schedule: seq<seq<Txn>>)
  {
    forall i :: 0 <= i < |schedule| ==> Interference(schedule[i])
  }

  lemma InterferenceConcat(a: seq<Txn>, b: seq<Txn>)
    requires Interference(a) && Interference(b)
    ensures Interference(a + b)
  {
  }

  // ---- applying a page ----

  predicate Clean(snapshots: seq<Snapshot>)
  {
    forall i :: 0 <= i < |snapshots| ==> Owned(snapshots[i].event.key.kind) && NoCursor(snapshots[i].private)
  }

  function PageTxn(snapshot: Snapshot, mark: nat, now: Time): Txn
  {
    ApplyTxn(snapshot.event.(historical := true), snapshot.private, Some(mark), now)
  }

  function MessagesJob(conversation: string): HistoryJob
  {
    HistoryJob(0, 0, 0, "messages:" + conversation, "messages", conversation, "", JobQueued, 0, 0, "", 0, 0)
  }

  /** A listed conversation that may not be imported: no id or too long a one, another session's, or no row. */
  predicate Unimportable(db: DB, conversation: string)
  {
    var key := Key(ConversationKind, conversation);
    conversation == "" || |conversation| > CONVERSATION_ID_LIMIT || !EntityCurrent(db, key) || key !in db.log.latest
  }

  /** A conversations page queues an import of each conversation it lists; each check reads in a transaction of its own. */
  method QueueMessages(store: Store, conversation: string, beforeRecord: seq<Txn>, beforeQueue: seq<Txn>, now: Time)
    returns (failure: Option<Failure>, ghost trace: seq<Txn>)
    requires Interference(beforeRecord) && Interference(beforeQueue)
    modifies store
    ensures store.db == Run(old(store.db), trace) && Interference(trace)
    ensures failure.Some? && failure.value.StoreFailed? ==> failure.value.error != Conflict
    ensures (conversation == "" || !EntityCurrent(old(store.db), Key(ConversationKind, conversation))
             || |conversation| > CONVERSATION_ID_LIMIT) ==> failure == Some(Invalid) && trace == []
    ensures failure.None? ==>
      InOrder(old(store.db), trace, [QueueHistoryTxn(MessagesJob(conversation), false, now)])
      && Key(ConversationKind, conversation) in Run(old(store.db), beforeRecord).log.latest
    ensures failure.Some? ==> EndsRefused(old(store.db), trace) || Unimportable(store.db, conversation)
  {
    trace := [];
    if conversation == "" { return Some(Invalid), trace; }
    var key := Key(ConversationKind, conversation);
    if !EntityCurrent(store.db, key) || |conversation| > CONVERSATION_ID_LIMIT { return Some(Invalid), trace; }
    store.Interleave(beforeRecord);
    trace := beforeRecord;
    if key !in store.db.log.latest { return Some(StoreFailed(NotFound)), trace; }
    store.Interleave(beforeQueue);
    var t := QueueHistoryTxn(MessagesJob(conversation), false, now);
    RunSplit(old(store.db), beforeRecord, beforeQueue);
    var queued := QueueNext(store, t, old(store.db), beforeRecord + beforeQueue);
    trace := beforeRecord + beforeQueue + [t];
    failure := if queued.Ok? then None else Some(StoreFailed(queued.error));
  }

  lemma FreshErrors(db: DB, e: Incoming, private: map<string, Bytes>, now: Time)
    ensures ApplyFresh(db, e, private, now).Abort? ==> ApplyFresh(db, e, private, now).error != Conflict
  {
  }

  lemma ApplyErrors(db: DB, e: Incoming, private: map<string, Bytes>, watermark: Option<nat>, now: Time)
    ensures Apply(db, e, private, watermark, now).Abort? ==> Apply(db, e, private, watermark, now).error != Conflict
  {
    FreshErrors(db, e, private, now);
  }

  /** What taking a page asks of the store, in order: each snapshot applied, and an import queued for each listed conversation. */
  function PageTxns(job: HistoryJob, snapshots: seq<Snapshot>, mark: nat, now: Time): seq<Txn>
  {
    if snapshots == [] then []
    else
      var n := |snapshots| - 1;
      PageTxns(job, snapshots[..n], mark, now) + SnapshotTxns(job, snapshots[n], mark, now)
  }

  lemma PageTxnsGrow(job: HistoryJob, snapshots: seq<Snapshot>, i: nat, mark: nat, now: Time)
    requires i < |snapshots|
    ensures PageTxns(job, snapshots[..i + 1], mark, now) == PageTxns(job, snapshots[..i], mark, now) + SnapshotTxns(job, snapshots[i], mark, now)
  {
    assert snapshots[..i + 1][..i] == snapshots[..i];
  }

  function SnapshotTxns(job: HistoryJob, snapshot: Snapshot, mark: nat, now: Time): seq<Txn>
  {
    [PageTxn(snapshot, mark, now)]
      + if job.kind == "conversations" then [QueueHistoryTxn(MessagesJob(snapshot.event.key.id), false, now)] else []
  }

  /** Pauses before this one belong to the reads and the request. */
  const FIRST_PAGE_PAUSE := 3

  /** Why a page was left: the store refused the last transaction, or a listed conversation may not be imported. */
  ghost predicate PageRefused(job: HistoryJob, snapshots: seq<Snapshot>, start: DB, trace: seq<Txn>)
  {
    || EndsRefused(start, trace)
    || (job.kind == "conversations" && exists k :: 0 <= k < |snapshots| && Unimportable(Run(start, trace), snapshots[k].event.key.id))
  }

  method ApplySnapshot(
    store: Store, job: HistoryJob, snapshot: Snapshot, mark: nat, schedule: seq<seq<Txn>>, at: nat, now: Time)
    returns (failure: Option<Failure>, ghost trace: seq<Txn>)
    requires Owned(snapshot.event.key.kind) && NoCursor(snapshot.private) && Scheduled(schedule)
    modifies store
    ensures store.db == Run(old(store.db), trace) && Interference(trace)
    ensures failure.None? ==> InOrder(old(store.db), trace, SnapshotTxns(job, snapshot, mark, now))
    ensures failure.Some? ==> PageRefused(job, [snapshot], old(store.db), trace)
    ensures failure.Some? && failure.value.StoreFailed? ==> failure.value.error != Conflict
  {
    failure := None;
    var t := PageTxn(snapshot, mark, now);
    var pause := Pause(schedule, at);
    store.Interleave(pause);
    ApplyErrors(store.db, t.e, t.private, t.watermark, t.now);
    var applied := ApplyNext(store, t, old(store.db), pause);
    trace := pause + [t];
    if applied.Err? { return Some(StoreFailed(applied.error)), trace; }
    if job.kind == "conversations" {
      ghost var queueing;
      failure, queueing := QueueMessages(store, snapshot.event.key.id, Pause(schedule, at + 1), Pause(schedule, at + 2), now);
      RunSplit(old(store.db), trace, queueing);
      InterferenceConcat(trace, queueing);
      if failure.None? {
        InOrderConcat(old(store.db), trace, [t], queueing, [QueueHistoryTxn(MessagesJob(snapshot.event.key.id), false, now)]);
      } else {
        if EndsRefused(Run(old(store.db), trace), queueing) { EndsRefusedAfter(old(store.db), trace, queueing); }
        assert [snapshot][0] == snapshot;
      }
      trace := trace + queueing;
    } else {
      assert SnapshotTxns(job, snapshot, mark, now) == [t];
    }
  }

  /** A page is left for what left one of its snapshots. */
  lemma PageLeft(job: HistoryJob, snapshots: seq<Snapshot>, i: nat, start: DB, before: seq<Txn>, one: seq<Txn>)
    requires i < |snapshots| && PageRefused(job, [snapshots[i]], Run(start, before), one)
    ensures PageRefused(job, snapshots, start, before + one)
  {
    if EndsRefused(Run(start, before), one) {
      EndsRefusedAfter(start, before, one);
    } else {
      RunSplit(start, before, one);
      assert [snapshots[i]][0] == snapshots[i];
    }
  }

  method ApplyPage(
    store: Store, job: HistoryJob, snapshots: seq<Snapshot>, mark: nat, schedule: seq<seq<Txn>>, now: Time)
    returns (failure: Option<Failure>, ghost trace: seq<Txn>)
    requires Clean(snapshots) && Scheduled(schedule)
    modifies store
    ensures store.db == Run(old(store.db), trace) && Interference(trace)
    ensures failure.None? ==> InOrder(old(store.db), trace, PageTxns(job, snapshots, mark, now))
    ensures failure.Some? ==> PageRefused(job, snapshots, old(store.db), trace)
    ensures failure.Some? && failure.value.StoreFailed? ==> failure.value.error != Conflict
  {
    ghost var start, applied: seq<Txn> := store.db, [];
    trace := [];
    var i := 0;
    while i < |snapshots|
      invariant 0 <= i <= |snapshots| && store.db == Run(start, trace) && Interference(trace)
      invariant applied == PageTxns(job, snapshots[..i], mark, now) && InOrder(start, trace, applied)
    {
      ghost var one;
      failure, one := ApplySnapshot(store, job, snapshots[i], mark, schedule, FIRST_PAGE_PAUSE + 3 * i, now);
      RunSplit(start, trace, one);
      InterferenceConcat(trace, one);
      if failure.Some? {
        PageLeft(job, snapshots, i, start, trace, one);
        return failure, trace + one;
      }
      PageTxnsGrow(job, snapshots, i, mark, now);
      InOrderConcat(start, trace, applied, one, SnapshotTxns(job, snapshots[i], mark, now));
      applied, trace := applied + SnapshotTxns(job, snapshots[i], mark, now), trace + one;
      i := i + 1;
    }
    assert snapshots[..i] == snapshots;
    failure := None;
  }

  // ---- one round ----

  /** One round's inputs: what the others do meanwhile, what the phone answers, and the clock. */
  datatype Round = Round(before: seq<Txn>, schedule: seq<seq<Txn>>, reply: Reply, now: Time)

  ghost predicate RoundOk(round: Round)
  {
    Interference(round.before) && Scheduled(round.schedule) && (round.reply.PageReply? ==> Clean(round.reply.snapshots))
  }

  predicate Carries(t: Txn, reply: Reply)
    requires t.CheckpointTxn? && reply.PageReply?
  {
    t.next == reply.next && t.records == |reply.snapshots|
  }

  /** The round ends with a checkpoint of its job from the cursor it read; a page turn comes after the whole page went through. */
  ghost predicate ClosesWith(start: DB, trace: seq<Txn>, job: HistoryJob, cursor: Bytes, mark: nat, round: Round)
  {
    trace != [] && var n := |trace| - 1;
      && Interference(trace[..n]) && trace[n].CheckpointTxn?
      && trace[n].id == job.id && trace[n].generation == job.generation && trace[n].previous == cursor
      && (trace[n].detail == "" ==>
            round.reply.PageReply? && Carries(trace[n], round.reply)
            && InOrder(start, trace[..n], PageTxns(job, round.reply.snapshots, mark, round.now)))
  }

  ghost predicate SettledRound(start: DB, trace: seq<Txn>, job: HistoryJob, cursor: Bytes, mark: nat, round: Round)
  {
    Interference(trace) || ClosesWith(start, trace, job, cursor, mark, round)
  }

  /** What the round says it did is what the phone answered and what it made of it. */
  ghost predicate Reported(start: DB, trace: seq<Txn>, job: HistoryJob, cursor: Bytes, worked: Worked, round: Round)
  {
    match worked
    case Idle => false
    case Interrupted => round.reply.Stopping?
    case PageTaken =>
      round.reply.PageReply?
      && EndsThrough(start, trace, CheckpointTxn(job.id, job.generation, cursor, round.reply.next, |round.reply.snapshots|, "", round.now))
    case WillRetry =>
      round.reply.PhoneUnavailable?
      && EndsThrough(start, trace, CheckpointTxn(job.id, job.generation, cursor, cursor, 0, WILL_RETRY, round.now))
    case ImportStopped =>
      round.reply.UnusableCursor? && EndsThrough(start, trace, FailHistoryTxn(job.id, job.generation, UNSUPPORTED, round.now))
    case Broke(_) =>
      EndsRefused(start, trace) || (round.reply.PageReply? && PageRefused(job, round.reply.snapshots, start, trace))
  }

  /** Reads the cursor and the watermark, each in a transaction of its own. */
  method ReadPosition(store: Store, id: string, schedule: seq<seq<Txn>>)
    returns (cursor: Bytes, mark: nat, ghost beforeCursor: seq<Txn>, ghost afterCursor: seq<Txn>)
    requires Scheduled(schedule)
    modifies store
    ensures Interference(beforeCursor) && Interference(afterCursor)
    ensures store.db == Run(Run(old(store.db), beforeCursor), afterCursor)
    ensures cursor == HistoryCursor(Run(old(store.db), beforeCursor), id)
    ensures mark == store.db.seen.versionSeq
  {
    beforeCursor, afterCursor := Pause(schedule, 0), Pause(schedule, 1);
    store.Interleave(Pause(schedule, 0));
    cursor := [];
    if CursorKey(id) in store.db.private { cursor := store.db.private[CursorKey(id)]; }
    store.Interleave(Pause(schedule, 1));
    mark := store.db.seen.versionSeq;
  }

  method Checkpoint(
    store: Store, ghost start: DB, job: HistoryJob, ghost beforeCursor: seq<Txn>, ghost sinceCursor: seq<Txn>,
    cursor: Bytes, t: Txn, ghost from: DB, ghost since: seq<Txn>)
    returns (failure: Option<Failure>)
    requires JobsNamed(start) && HistoryTx(start, job.id) == Found(job)
    requires Interference(beforeCursor) && Interference(sinceCursor)
    requires store.db == Run(Run(start, beforeCursor), sinceCursor) == Run(from, since)
    requires cursor == HistoryCursor(Run(start, beforeCursor), job.id)
    requires t.CheckpointTxn? && t.id == job.id && t.generation == job.generation && t.previous == cursor
    modifies store
    ensures GrownBy(from, since, t, store.db, failure.None?)
    ensures failure.Some? ==> failure.value.StoreFailed? && failure.value.error != Conflict
  {
    CheckpointNeverConflicts(start, beforeCursor, sinceCursor, job.id, t.next, t.records, t.detail, t.now);
    var r := CheckpointNext(store, t, from, since);
    failure := if r.Ok? then None else Some(StoreFailed(r.error));
  }

  /** What a round does once the phone has answered. */
  method Settle(
    store: Store, ghost start: DB, job: HistoryJob, ghost beforeCursor: seq<Txn>, ghost sinceCursor: seq<Txn>,
    cursor: Bytes, mark: nat, round: Round)
    returns (worked: Worked, ghost trace: seq<Txn>)
    requires RoundOk(round) && JobsNamed(start) && HistoryTx(start, job.id) == Found(job)
    requires Interference(beforeCursor) && Interference(sinceCursor)
    requires store.db == Run(Run(start, beforeCursor), sinceCursor)
    requires cursor == HistoryCursor(Run(start, beforeCursor), job.id)
    modifies store
    ensures store.db == Run(old(store.db), trace) && SettledRound(old(store.db), trace, job, cursor, mark, round)
    ensures Reported(old(store.db), trace, job, cursor, worked, round)
    ensures worked.Broke? && worked.failure.StoreFailed? ==> worked.failure.error != Conflict
  {
    match round.reply {
      case Stopping =>
        return Interrupted, [];
      case UnusableCursor =>
        var t := FailHistoryTxn(job.id, job.generation, UNSUPPORTED, round.now);
        var failed := FailNext(store, t, store.db, []);
        trace := [] + [t];
        worked := if failed.Ok? then ImportStopped else Broke(StoreFailed(failed.error));
      case PhoneUnavailable =>
        var t := CheckpointTxn(job.id, job.generation, cursor, cursor, 0, WILL_RETRY, round.now);
        var failure := Checkpoint(store, start, job, beforeCursor, sinceCursor, cursor, t, store.db, []);
        trace := [] + [t];
        worked := if failure.None? then WillRetry else Broke(failure.value);
      case PageReply(snapshots, next) =>
        worked, trace := TakePage(store, start, job, beforeCursor, sinceCursor, cursor, mark, round);
    }
  }

  /** Applies the whole page, then advances the cursor. */
  method TakePage(
    store: Store, ghost start: DB, job: HistoryJob, ghost beforeCursor: seq<Txn>, ghost sinceCursor: seq<Txn>,
    cursor: Bytes, mark: nat, round: Round)
    returns (worked: Worked, ghost trace: seq<Txn>)
    requires RoundOk(round) && round.reply.PageReply? && JobsNamed(start) && HistoryTx(start, job.id) == Found(job)
    requires Interference(beforeCursor) && Interference(sinceCursor)
    requires store.db == Run(Run(start, beforeCursor), sinceCursor)
    requires cursor == HistoryCursor(Run(start, beforeCursor), job.id)
    modifies store
    ensures store.db == Run(old(store.db), trace) && SettledRound(old(store.db), trace, job, cursor, mark, round)
    ensures Reported(old(store.db), trace, job, cursor, worked, round)
    ensures worked.Broke? && worked.failure.StoreFailed? ==> worked.failure.error != Conflict
  {
    var snapshots, next := round.reply.snapshots, round.reply.next;
    ghost var read := Run(start, beforeCursor);
    var failure;
    failure, trace := ApplyPage(store, job, snapshots, mark, round.schedule, round.now);
    RunSplit(read, sinceCursor, trace);
    if failure.Some? { return Broke(failure.value), trace; }
    var t := CheckpointTxn(job.id, job.generation, cursor, next, |snapshots|, "", round.now);
    ghost var applied := trace;
    InterferenceConcat(sinceCursor, applied);
    failure := Checkpoint(store, start, job, beforeCursor, sinceCursor + applied, cursor, t, old(store.db), applied);
    trace := applied + [t];
    assert trace[..|trace| - 1] == applied;
    worked := if failure.None? then PageTaken else Broke(failure.value);
  }

  /** Nothing about a settled round depends on what the others did before it. */
  lemma ReportedAfter(start: DB, before: seq<Txn>, trace: seq<Txn>, job: HistoryJob, cursor: Bytes, worked: Worked, round: Round)
    requires Reported(Run(start, before), trace, job, cursor, worked, round)
    ensures Reported(start, before + trace, job, cursor, worked, round)
  {
    match worked
    case PageTaken =>
      EndsThroughAfter(start, before, trace, CheckpointTxn(job.id, job.generation, cursor, round.reply.next, |round.reply.snapshots|, "", round.now));
    case WillRetry =>
      EndsThroughAfter(start, before, trace, CheckpointTxn(job.id, job.generation, cursor, cursor, 0, WILL_RETRY, round.now));
    case ImportStopped => EndsThroughAfter(start, before, trace, FailHistoryTxn(job.id, job.generation, UNSUPPORTED, round.now));
    case Broke(_) =>
      if EndsRefused(Run(start, before), trace) { EndsRefusedAfter(start, before, trace); }
      else { RunSplit(start, before, trace); }
    case Interrupted =>
  }

  lemma SettledAfter(start: DB, before: seq<Txn>, trace: seq<Txn>, job: HistoryJob, cursor: Bytes, mark: nat, round: Round)
    requires Interference(before) && SettledRound(Run(start, before), trace, job, cursor, mark, round)
    ensures SettledRound(start, before + trace, job, cursor, mark, round)
  {
    if Interference(trace) {
      InterferenceConcat(before, trace);
    } else {
      var all := before + trace;
      var n, m := |trace| - 1, |all| - 1;
      assert all[..m] == before + trace[..n] && all[m] == trace[n];
      InterferenceConcat(before, trace[..n]);
      if trace[n].detail == "" {
        InOrderAfter(start, before, trace[..n], PageTxns(job, round.reply.snapshots, mark, round.now));
      }
    }
  }

  /** What one round did to the store: up to choosing its job, to reading the cursor, to reading the watermark, and from there on. */
  datatype Segment = Segment(
    toJob: seq<Txn>, toCursor: seq<Txn>, toMark: seq<Txn>, rest: seq<Txn>, job: HistoryJob, worked: Worked)

  function Txns(s: Segment): seq<Txn>
  {
    s.toJob + (s.toCursor + (s.toMark + s.rest))
  }

  ghost function AtJob(start: DB, s: Segment): DB
  {
    Run(start, s.toJob)
  }

  ghost function AtCursor(start: DB, s: Segment): DB
  {
    Run(AtJob(start, s), s.toCursor)
  }

  ghost function AtMark(start: DB, s: Segment): DB
  {
    Run(AtCursor(start, s), s.toMark)
  }

  /** Until the watermark was read only the others did anything. */
  ghost predicate Reads(s: Segment)
  {
    Interference(s.toJob) && Interference(s.toCursor) && Interference(s.toMark)
  }

  /** The round checkpoints the job it chose, from the cursor it read, under the watermark it read after that. */
  ghost predicate TurnRound(start: DB, s: Segment, round: Round)
  {
    && Reads(s) && Chosen(AtJob(start, s), round.now, s.job)
    && ClosesWith(AtMark(start, s), s.rest, s.job, HistoryCursor(AtCursor(start, s), s.job.id), AtMark(start, s).seen.versionSeq, round)
  }

  /** What the round reports is what happened: no job was due, none could be read, or this is what became of the one it chose. */
  ghost predicate Honest(start: DB, s: Segment, round: Round)
  {
    if s.worked.Idle? then s.toCursor + (s.toMark + s.rest) == [] && NobodyDue(AtJob(start, s), round.now)
    else
      || (s.worked == Broke(StoreFailed(Undecodable)) && !JobsReadable(AtJob(start, s)))
      || (Chosen(AtJob(start, s), round.now, s.job)
          && Reported(AtMark(start, s), s.rest, s.job, HistoryCursor(AtCursor(start, s), s.job.id), s.worked, round))
  }

  ghost predicate RoundOf(start: DB, s: Segment, round: Round)
  {
    Honest(start, s, round) && ((Reads(s) && Interference(s.rest)) || TurnRound(start, s, round))
  }

  lemma RunSegment(start: DB, s: Segment)
    ensures Run(start, Txns(s)) == Run(AtMark(start, s), s.rest)
  {
    RunSplit(start, s.toJob, s.toCursor + (s.toMark + s.rest));
    RunSplit(AtJob(start, s), s.toCursor, s.toMark + s.rest);
    RunSplit(AtCursor(start, s), s.toMark, s.rest);
  }

  /**
   * One round of the worker, with everything legal happening at its pauses: it never
   * reports a conflict, and if it turns a page it has applied all of it first.
   */
  method HistoryOne(store: Store, round: Round) returns (worked: Worked, ghost segment: Segment)
    requires RoundOk(round) && JobsNamed(store.db)
    modifies store
    ensures store.db == Run(old(store.db), Txns(segment)) && RoundOf(old(store.db), segment, round) && segment.worked == worked
    ensures worked.Broke? && worked.failure.StoreFailed? ==> worked.failure.error != Conflict
  {
    ghost var start := store.db;
    segment := Segment([], [], [], [], MessagesJob(""), Idle);
    RunSegment(start, segment);
    var chosen := ChooseJob(store.db, round.now);
    if chosen.Err? {
      worked := Broke(StoreFailed(chosen.error));
      segment := segment.(worked := worked);
      return;
    }
    if chosen.value.None? { return Idle, segment; }
    worked, segment := WorkOn(store, chosen.value.value, round);
  }

  method WorkOn(store: Store, job: HistoryJob, round: Round) returns (worked: Worked, ghost segment: Segment)
    requires RoundOk(round) && JobsNamed(store.db) && Chosen(store.db, round.now, job)
    modifies store
    ensures store.db == Run(old(store.db), Txns(segment)) && RoundOf(old(store.db), segment, round) && segment.worked == worked
    ensures worked.Broke? && worked.failure.StoreFailed? ==> worked.failure.error != Conflict
  {
    ghost var start := store.db;
    var cursor, mark;
    ghost var toCursor, toMark;
    cursor, mark, toCursor, toMark := ReadPosition(store, job.id, round.schedule);
    var waiting := Pause(round.schedule, 2);
    ghost var marked := store.db;
    store.Interleave(waiting);
    RunSplit(Run(start, toCursor), toMark, waiting);
    InterferenceConcat(toMark, waiting);
    ghost var trace;
    worked, trace := Settle(store, start, job, toCursor, toMark + waiting, cursor, mark, round);
    RunSplit(marked, waiting, trace);
    SettledAfter(marked, waiting, trace, job, cursor, mark, round);
    ReportedAfter(marked, waiting, trace, job, cursor, worked, round);
    segment := Segment([], toCursor, toMark, waiting + trace, job, worked);
    RunSegment(start, segment);
  }

  // ---- the loop ----

  /** A round is the same round after others did something first. */
  lemma RoundLater(start: DB, before: seq<Txn>, s: Segment, round: Round)
    requires Interference(before) && RoundOf(Run(start, before), s, round)
    ensures RoundOf(start, s.(toJob := before + s.toJob), round)
    ensures Run(start, Txns(s.(toJob := before + s.toJob))) == Run(Run(start, before), Txns(s))
  {
    var later := s.(toJob := before + s.toJob);
    RunSplit(start, before, s.toJob);
    InterferenceConcat(before, s.toJob);
    RunSegment(start, later);
    RunSegment(Run(start, before), s);
  }

  function Flat(segments: seq<Segment>): seq<Txn>
  {
    if segments == [] then [] else Flat(segments[..|segments| - 1]) + Txns(segments[|segments| - 1])
  }

  /** Round by round, each from the state the rounds before it left. */
  ghost predicate Lived(start: DB, segments: seq<Segment>, rounds: seq<Round>)
    requires |segments| <= |rounds|
    decreases |segments|
  {
    segments != [] ==>
      var n := |segments| - 1;
      Lived(start, segments[..n], rounds) && RoundOf(Run(start, Flat(segments[..n])), segments[n], rounds[n])
  }

  lemma CloseKeepsCursors(start: DB, rest: seq<Txn>, job: HistoryJob, cursor: Bytes, mark: nat, round: Round)
    requires ClosesWith(start, rest, job, cursor, mark, round)
    ensures AllKeepCursors(rest)
  {
    assert rest == rest[..|rest| - 1] + [rest[|rest| - 1]];
  }

  lemma SegmentKeepsCursors(start: DB, s: Segment, round: Round)
    requires RoundOf(start, s, round)
    ensures AllKeepCursors(Txns(s))
  {
    if !Interference(s.rest) {
      CloseKeepsCursors(AtMark(start, s), s.rest, s.job, HistoryCursor(AtCursor(start, s), s.job.id), AtMark(start, s).seen.versionSeq, round);
    }
    CursorsConcat(s.toMark, s.rest);
    CursorsConcat(s.toCursor, s.toMark + s.rest);
    CursorsConcat(s.toJob, s.toCursor + (s.toMark + s.rest));
  }

  lemma CursorsConcat(a: seq<Txn>, b: seq<Txn>)
    requires AllKeepCursors(a) && AllKeepCursors(b)
    ensures AllKeepCursors(a + b)
  {
  }

  lemma {:induction false} LifeKeepsCursors(start: DB, segments: seq<Segment>, rounds: seq<Round>)
    requires |segments| <= |rounds| && Lived(start, segments, rounds)
    ensures AllKeepCursors(Flat(segments))
    decreases |segments|
  {
    if segments != [] {
      var n := |segments| - 1;
      LifeKeepsCursors(start, segments[..n], rounds);
      SegmentKeepsCursors(Run(start, Flat(segments[..n])), segments[n], rounds[n]);
      CursorsConcat(Flat(segments[..n]), Txns(segments[n]));
    }
  }

  /** The worker's life: rounds until the service stops or a store error ends it; never a conflict. */
  method HistoryLoop(store: Store, rounds: seq<Round>) returns (ended: Option<Failure>, ghost segments: seq<Segment>)
    requires JobsNamed(store.db) && forall r :: 0 <= r < |rounds| ==> RoundOk(rounds[r])
    modifies store
    ensures |segments| <= |rounds| && Lived(old(store.db), segments, rounds)
    ensures store.db == Run(old(store.db), Flat(segments))
    ensures ended.None? ==> |segments| == |rounds|
    ensures ended.Some? ==> segments != [] && segments[|segments| - 1].worked == Broke(ended.value)
    ensures ended.Some? && ended.value.StoreFailed? ==> ended.value.error != Conflict
  {
    ghost var start := store.db;
    ended, segments := None, [];
    var r := 0;
    while r < |rounds|
      invariant 0 <= r <= |rounds| && |segments| == r
      invariant Lived(start, segments, rounds) && store.db == Run(start, Flat(segments))
    {
      LifeKeepsCursors(start, segments, rounds);
      RunJobsNamed(start, Flat(segments));
      var failure;
      ghost var segment;
      failure, segment := TakeRound(store, rounds[r]);
      RunSplit(start, Flat(segments), Txns(segment));
      assert (segments + [segment])[..r] == segments;
      segments := segments + [segment];
      if failure.Some? { return failure, segments; }
      r := r + 1;
    }
  }

  /** What the others did since the last round, then the round. */
  method TakeRound(store: Store, round: Round) returns (failure: Option<Failure>, ghost segment: Segment)
    requires JobsNamed(store.db) && RoundOk(round)
    modifies store
    ensures store.db == Run(old(store.db), Txns(segment)) && RoundOf(old(store.db), segment, round)
    ensures if failure.Some? then segment.worked == Broke(failure.value) else !segment.worked.Broke?
    ensures failure.Some? && failure.value.StoreFailed? ==> failure.value.error != Conflict
  {
    ghost var start := store.db;
    RunJobsNamed(start, round.before);
    store.Interleave(round.before);
    var worked;
    worked, segment := HistoryOne(store, round);
    RoundLater(start, round.before, segment, round);
    segment := segment.(toJob := round.before + segment.toJob);
    failure := if worked.Broke? then Some(worked.failure) else None;
  }

  // ---- every page of a complete import ----

  lemma {:induction false} ChainSplit(db: DB, a: seq<Txn>, b: seq<Txn>, h: string, chain: seq<Page>)
    ensures Chain(db, a + b, h, chain) == Chain(Run(db, a), b, h, Chain(db, a, h, chain))
    decreases |a|
  {
    if a == [] {
      assert a + b == b;
    } else {
      assert (a + b)[0] == a[0] && (a + b)[1..] == a[1..] + b;
      ChainSplit(Step(db, a[0]), a[1..], b, h, ChainAfter(db, a[0], h, chain));
    }
  }

  /** Only a checkpoint adds a page. */
  lemma {:induction false} QuietChain(db: DB, ts: seq<Txn>, h: string, chain: seq<Page>, p: Page)
    requires Interference(ts) && p in Chain(db, ts, h, chain)
    ensures p in chain
    decreases |ts|
  {
    if ts != [] {
      assert !ts[0].CheckpointTxn?;
      QuietChain(Step(db, ts[0]), ts[1..], h, ChainAfter(db, ts[0], h, chain), p);
    }
  }

  ghost predicate NewIn(db: DB, ts: seq<Txn>, h: string, chain: seq<Page>, p: Page)
  {
    p in Chain(db, ts, h, chain) && p !in chain
  }

  lemma NewAfterQuiet(db: DB, a: seq<Txn>, b: seq<Txn>, h: string, chain: seq<Page>, p: Page)
    requires Interference(a) && NewIn(db, a + b, h, chain, p)
    ensures NewIn(Run(db, a), b, h, Chain(db, a, h, chain), p)
  {
    ChainSplit(db, a, b, h, chain);
    if p in Chain(db, a, h, chain) { QuietChain(db, a, h, chain, p); }
  }

  lemma ChainLast(db: DB, t: Txn, h: string, chain: seq<Page>)
    ensures Chain(db, [t], h, chain) == ChainAfter(db, t, h, chain)
  {
    assert [t][1..] == [];
  }

  /** The last of these transactions turns page p of job h. */
  ghost predicate EndsTurning(start: DB, txns: seq<Txn>, h: string, p: Page)
  {
    txns != [] && var n := |txns| - 1;
      Turns(Run(start, txns[..n]), txns[n], h) && p == Page(txns[n].previous, txns[n].next)
  }

  lemma LastPage(start: DB, txns: seq<Txn>, h: string, chain: seq<Page>, p: Page)
    requires txns != [] && Interference(txns[..|txns| - 1]) && NewIn(start, txns, h, chain, p)
    ensures EndsTurning(start, txns, h, p)
  {
    var n := |txns| - 1;
    assert txns == txns[..n] + [txns[n]];
    NewAfterQuiet(start, txns[..n], [txns[n]], h, chain, p);
    ChainLast(Run(start, txns[..n]), txns[n], h, Chain(start, txns[..n], h, chain));
  }

  lemma NewPage(start: DB, s: Segment, round: Round, h: string, chain: seq<Page>, p: Page)
    requires RoundOf(start, s, round) && NewIn(start, Txns(s), h, chain, p)
    ensures TurnRound(start, s, round) && EndsTurning(AtMark(start, s), s.rest, h, p)
  {
    var atJob := Chain(start, s.toJob, h, chain);
    var atCursor := Chain(AtJob(start, s), s.toCursor, h, atJob);
    var atMark := Chain(AtCursor(start, s), s.toMark, h, atCursor);
    NewAfterQuiet(start, s.toJob, s.toCursor + (s.toMark + s.rest), h, chain, p);
    NewAfterQuiet(AtJob(start, s), s.toCursor, s.toMark + s.rest, h, atJob, p);
    NewAfterQuiet(AtCursor(start, s), s.toMark, s.rest, h, atCursor, p);
    if Interference(s.rest) {
      QuietChain(AtMark(start, s), s.rest, h, atMark, p);
    } else {
      LastPage(AtMark(start, s), s.rest, h, atMark, p);
    }
  }

  /** Round r of the worker's life chose job h, read page p from its cursor, applied all of it, and turned it last. */
  ghost predicate TookPage(start: DB, segments: seq<Segment>, rounds: seq<Round>, r: nat, h: string, p: Page)
  {
    && r < |segments| && r < |rounds|
    && var before := Run(start, Flat(segments[..r]));
    && TurnRound(before, segments[r], rounds[r])
    && EndsTurning(AtMark(before, segments[r]), segments[r].rest, h, p)
  }

  lemma TookEarlier(start: DB, segments: seq<Segment>, rounds: seq<Round>, n: nat, r: nat, h: string, p: Page)
    requires n <= |segments| && TookPage(start, segments[..n], rounds, r, h, p)
    ensures TookPage(start, segments, rounds, r, h, p)
  {
    assert segments[..n][..r] == segments[..r] && segments[..n][r] == segments[r];
  }

  lemma {:induction false} EveryPageTaken(start: DB, segments: seq<Segment>, rounds: seq<Round>, h: string, p: Page)
    requires |segments| <= |rounds| && Lived(start, segments, rounds) && p in Chain(start, Flat(segments), h, [])
    ensures exists r :: TookPage(start, segments, rounds, r, h, p)
    decreases |segments|
  {
    if segments != [] {
      var n := |segments| - 1;
      var earlier := Flat(segments[..n]);
      ChainSplit(start, earlier, Txns(segments[n]), h, []);
      if p in Chain(start, earlier, h, []) {
        EveryPageTaken(start, segments[..n], rounds, h, p);
        var r :| TookPage(start, segments[..n], rounds, r, h, p);
        TookEarlier(start, segments, rounds, n, r, h, p);
      } else {
        NewPage(Run(start, earlier), segments[n], rounds[n], h, Chain(start, earlier, h, []), p);
        assert TookPage(start, segments, rounds, n, h, p);
      }
    }
  }

  /**
   * When an import the worker ran is complete, its pages form a chain from the empty
   * cursor to the empty cursor. Each page was turned at the end of a round of its
   * own, which chose the job, read its cursor and then the watermark, applied the
   * whole page under that watermark, and only then moved the cursor.
   */
  lemma CompleteMeansApplied(segments: seq<Segment>, rounds: seq<Round>, h: string)
    requires |segments| <= |rounds| && Lived(EMPTY, segments, rounds)
    requires var db := Run(EMPTY, Flat(segments)); HistoryTx(db, h).Found? && HistoryTx(db, h).job.state.JobComplete?
    ensures var chain := Chain(EMPTY, Flat(segments), h, []);
      && chain != [] && LinkByLink(chain) && Tip(chain) == []
      && (forall p :: p in chain ==> exists r :: TookPage(EMPTY, segments, rounds, r, h, p))
  {
    LifeKeepsCursors(EMPTY, segments, rounds);
    CompleteMeansWholeChain(Flat(segments), h);
    forall p | p in Chain(EMPTY, Flat(segments), h, []) ensures exists r :: TookPage(EMPTY, segments, rounds, r, h, p) {
      EveryPageTaken(EMPTY, segments, rounds, h, p);
    }
  }

  lemma {:induction false} PageTxnsHold(job: HistoryJob, snapshots: seq<Snapshot>, mark: nat, now: Time, k: nat)
    requires k < |snapshots|
    ensures PageTxn(snapshots[k], mark, now) in PageTxns(job, snapshots, mark, now)
    ensures job.kind == "conversations" ==>
      QueueHistoryTxn(MessagesJob(snapshots[k].event.key.id), false, now) in PageTxns(job, snapshots, mark, now)
    decreases |snapshots|
  {
    var n := |snapshots| - 1;
    var t := PageTxn(snapshots[n], mark, now);
    assert t in SnapshotTxns(job, snapshots[n], mark, now) by { assert SnapshotTxns(job, snapshots[n], mark, now)[0] == t; }
    if job.kind == "conversations" {
      assert SnapshotTxns(job, snapshots[n], mark, now)[1] == QueueHistoryTxn(MessagesJob(snapshots[n].event.key.id), false, now);
    }
    if k < n { PageTxnsHold(job, snapshots[..n], mark, now, k); }
  }

  ghost predicate WentThrough(start: DB, ts: seq<Txn>, t: Txn)
  {
    exists i :: Through(start, ts, t, i)
  }

  lemma InOrderWent(start: DB, ts: seq<Txn>, wanted: seq<Txn>, t: Txn)
    requires InOrder(start, ts, wanted) && t in wanted
    ensures WentThrough(start, ts, t)
  {
    var k :| 0 <= k < |wanted| && wanted[k] == t;
    InOrderAt(start, ts, wanted, k);
  }

  /**
   * Each snapshot of a page so taken was applied, and its application committed, after
   * the watermark was read and before the page was turned; so was the import of each
   * conversation the page lists.
   */
  lemma PageWentThrough(start: DB, segments: seq<Segment>, rounds: seq<Round>, r: nat, h: string, p: Page, k: nat)
    requires TookPage(start, segments, rounds, r, h, p)
    requires rounds[r].reply.PageReply? && k < |rounds[r].reply.snapshots|
    ensures var s, now, snapshot := segments[r], rounds[r].now, rounds[r].reply.snapshots[k];
      var marked := AtMark(Run(start, Flat(segments[..r])), s);
      var before := s.rest[..|s.rest| - 1];
      && WentThrough(marked, before, PageTxn(snapshot, marked.seen.versionSeq, now))
      && (s.job.kind == "conversations" ==>
            WentThrough(marked, before, QueueHistoryTxn(MessagesJob(snapshot.event.key.id), false, now)))
  {
    var s, now, snapshots := segments[r], rounds[r].now, rounds[r].reply.snapshots;
    var marked := AtMark(Run(start, Flat(segments[..r])), s);
    var mark := marked.seen.versionSeq;
    var before, wanted := s.rest[..|s.rest| - 1], PageTxns(s.job, snapshots, mark, now);
    PageTxnsHold(s.job, snapshots, mark, now, k);
    InOrderWent(marked, before, wanted, PageTxn(snapshots[k], mark, now));
    if s.job.kind == "conversations" {
      InOrderWent(marked, before, wanted, QueueHistoryTxn(MessagesJob(snapshots[k].event.key.id), false, now));
    }
  }
}
