/** Which transactions of a run went through: an aborted one is part of the run too, and changes nothing. */
module Committed {
  import opened Records
  import opened StoreSpec
  import opened Engine

  /** The transaction commits in this state, rather than aborting. */
  ghost predicate GoesThrough(db: DB, t: Txn)
  {
    match t
    case OpenTxn(now) => Open(db, true, true, now).Done?
    case ApplyTxn(e, private, watermark, now) => Apply(db, e, private, watermark, now).Done?
    case ReadTxn(id, through, now) => ReadConversation(db, id, through, now).Done?
    case FinishConversationTxn(id, e, private, mark, now) => FinishConversation(db, id, e, private, mark, now).Done?
    case QueueHistoryTxn(job, restart, now) => QueueHistory(db, job, restart, now).Done?
    case PauseHistoryTxn(id, now) => PauseHistory(db, id, now).Done?
    case CheckpointTxn(id, generation, previous, next, records, detail, now) =>
      CheckpointHistory(db, id, generation, previous, next, records, detail, now).Done?
    case FailHistoryTxn(id, generation, detail, now) => FailHistory(db, id, generation, detail, now).Done?
    case EnqueueTxn(id, transactionID, request, now) => Enqueue(db, id, transactionID, request, now).Done?
    case ClaimTxn(id, now) => ClaimQueued(db, id, now).Done?
    case FinishTxn(id, state, detail, now) => Finish(db, id, state, detail, now).Done?
    case RejectTxn(id, detail, now) => RejectQueued(db, id, detail, now).Done?
    case CancelTxn(id, now) => CancelQueued(db, id, now).Done?
    case RecoverSendingTxn(now) => RecoverSending(db, now).Done?
    case UpgradeTxn(now) => UpgradeSessionMetadata(db, now).Done?
    case BeginPairingTxn(started, expires, now) => BeginPairingAttempt(db, started, expires, now).Done?
    case RecoverAttemptTxn => RecoverPairingAttempt(db).Done?
    case AdoptTxn => AdoptStoredRecords(db).Done?
    case SavePairedTxn(session, newPhone, now) => SavePairedSession(db, session, newPhone, now).Done?
    case ClearAttemptTxn => true
    case SaveSessionTxn(_) => true
    case PutPrivateTxn(_, _) => true
  }

  /** What did not go through left no trace in the database. */
  lemma AbortChangesNothing(db: DB, t: Txn)
    requires !GoesThrough(db, t)
    ensures Step(db, t) == db
  {
  }

  /** The wanted transactions go through during ts, in this order; anything else may come between. */
  ghost predicate InOrder(start: DB, ts: seq<Txn>, wanted: seq<Txn>)
    decreases |wanted|, 1
  {
    wanted == [] || exists i :: HandledAt(start, ts, wanted, i)
  }

  /** The last of the wanted transactions goes through at position i, after the others. */
  ghost predicate HandledAt(start: DB, ts: seq<Txn>, wanted: seq<Txn>, i: int)
    requires wanted != []
    decreases |wanted|, 0
  {
    && 0 <= i < |ts| && ts[i] == wanted[|wanted| - 1]
    && GoesThrough(Run(start, ts[..i]), ts[i])
    && InOrder(start, ts[..i], wanted[..|wanted| - 1])
  }

  lemma InOrderLater(start: DB, ts: seq<Txn>, more: seq<Txn>, wanted: seq<Txn>)
    requires InOrder(start, ts, wanted)
    ensures InOrder(start, ts + more, wanted)
  {
    if wanted != [] {
      var i :| HandledAt(start, ts, wanted, i);
      assert (ts + more)[..i] == ts[..i];
      assert HandledAt(start, ts + more, wanted, i);
    }
  }

  lemma InOrderNext(start: DB, ts: seq<Txn>, wanted: seq<Txn>, t: Txn)
    requires InOrder(start, ts, wanted) && GoesThrough(Run(start, ts), t)
    ensures InOrder(start, ts + [t], wanted + [t])
  {
    var longer, all := ts + [t], wanted + [t];
    assert longer[..|ts|] == ts && all[..|all| - 1] == wanted;
    assert HandledAt(start, longer, all, |ts|);
  }

  lemma {:induction false} InOrderAfter(start: DB, before: seq<Txn>, ts: seq<Txn>, wanted: seq<Txn>)
    requires InOrder(Run(start, before), ts, wanted)
    ensures InOrder(start, before + ts, wanted)
    decreases |wanted|
  {
    if wanted != [] {
      var i :| HandledAt(Run(start, before), ts, wanted, i);
      InOrderAfter(start, before, ts[..i], wanted[..|wanted| - 1]);
      RunSplit(start, before, ts[..i]);
      assert (before + ts)[..|before| + i] == before + ts[..i];
      assert HandledAt(start, before + ts, wanted, |before| + i);
    }
  }

  lemma {:induction false} InOrderConcat(start: DB, a: seq<Txn>, first: seq<Txn>, b: seq<Txn>, second: seq<Txn>)
    requires InOrder(start, a, first) && InOrder(Run(start, a), b, second)
    ensures InOrder(start, a + b, first + second)
    decreases |second|
  {
    if second == [] {
      assert first + second == first;
      InOrderLater(start, a, b, first);
    } else {
      var n := |second| - 1;
      var i :| HandledAt(Run(start, a), b, second, i);
      InOrderConcat(start, a, first, b[..i], second[..n]);
      RunSplit(start, a, b[..i]);
      assert (a + b)[..|a| + i] == a + b[..i];
      assert (first + second)[..|first + second| - 1] == first + second[..n];
      assert HandledAt(start, a + b, first + second, |a| + i);
    }
  }

  /** Each wanted transaction went through somewhere during ts. */
  ghost predicate Through(start: DB, ts: seq<Txn>, t: Txn, i: int)
  {
    0 <= i < |ts| && ts[i] == t && GoesThrough(Run(start, ts[..i]), t)
  }

  lemma {:induction false} InOrderAt(start: DB, ts: seq<Txn>, wanted: seq<Txn>, k: nat)
    requires InOrder(start, ts, wanted) && k < |wanted|
    ensures exists i :: Through(start, ts, wanted[k], i)
    decreases |wanted|
  {
    var n := |wanted| - 1;
    var i :| HandledAt(start, ts, wanted, i);
    if k == n {
      assert Through(start, ts, wanted[k], i);
    } else {
      InOrderAt(start, ts[..i], wanted[..n], k);
      var j :| Through(start, ts[..i], wanted[k], j);
      assert ts[..i][..j] == ts[..j];
      assert Through(start, ts, wanted[k], j);
    }
  }

  // ---- one more transaction of a run ----

  ghost predicate RefusedAt(start: DB, ts: seq<Txn>, i: int)
  {
    0 <= i < |ts| && !GoesThrough(Run(start, ts[..i]), ts[i])
  }

  /** The last transaction of ts aborted. */
  ghost predicate EndsRefused(start: DB, ts: seq<Txn>)
  {
    exists i :: RefusedAt(start, ts, i) && i == |ts| - 1
  }

  /** The last transaction of ts is t, and it went through. */
  ghost predicate EndsThrough(start: DB, ts: seq<Txn>, t: Txn)
  {
    exists i :: Through(start, ts, t, i) && i == |ts| - 1
  }

  /** The run grown by t, and whether t went through. */
  ghost predicate GrownBy(start: DB, before: seq<Txn>, t: Txn, after: DB, ok: bool)
  {
    && after == Run(start, before + [t])
    && (if ok then InOrder(start, before + [t], [t]) && EndsThrough(start, before + [t], t) else EndsRefused(start, before + [t]))
  }

  lemma Grown(start: DB, before: seq<Txn>, t: Txn, after: DB, ok: bool)
    requires after == Step(Run(start, before), t) && (ok <==> GoesThrough(Run(start, before), t))
    ensures GrownBy(start, before, t, after, ok)
  {
    var all := before + [t];
    RunSplit(start, before, [t]);
    RunOne(Run(start, before), t);
    assert all[..|all| - 1] == before && all[|all| - 1] == t;
    if ok {
      InOrderNext(start, before, [], t);
      assert [] + [t] == [t];
      assert Through(start, all, t, |before|);
    } else {
      assert RefusedAt(start, all, |before|);
    }
  }

  lemma RunAfter(start: DB, before: seq<Txn>, ts: seq<Txn>, i: nat)
    requires i <= |ts|
    ensures Run(start, (before + ts)[..|before| + i]) == Run(Run(start, before), ts[..i])
  {
    assert (before + ts)[..|before| + i] == before + ts[..i];
    RunSplit(start, before, ts[..i]);
  }

  lemma RefusedAfter(start: DB, before: seq<Txn>, one: seq<Txn>, i: nat)
    requires RefusedAt(Run(start, before), one, i)
    ensures RefusedAt(start, before + one, |before| + i)
  {
    RunAfter(start, before, one, i);
  }

  lemma ThroughAfter(start: DB, before: seq<Txn>, one: seq<Txn>, t: Txn, i: nat)
    requires Through(Run(start, before), one, t, i)
    ensures Through(start, before + one, t, |before| + i)
  {
    RunAfter(start, before, one, i);
  }

  lemma EndsThroughAfter(start: DB, before: seq<Txn>, one: seq<Txn>, t: Txn)
    requires EndsThrough(Run(start, before), one, t)
    ensures EndsThrough(start, before + one, t)
  {
    var i: int :| Through(Run(start, before), one, t, i) && i == |one| - 1;
    ThroughAfter(start, before, one, t, i);
  }

  lemma EndsRefusedAfter(start: DB, before: seq<Txn>, one: seq<Txn>)
    requires EndsRefused(Run(start, before), one)
    ensures EndsRefused(start, before + one)
  {
    var i: int :| RefusedAt(Run(start, before), one, i) && i == |one| - 1;
    RefusedAfter(start, before, one, i);
  }

  method ApplyNext(store: Store, t: Txn, ghost start: DB, ghost before: seq<Txn>) returns (r: Result<bool>)
    requires t.ApplyTxn? && store.db == Run(start, before)
    modifies store
    ensures GrownBy(start, before, t, store.db, r.Ok?)
    ensures Engine.Commits(Apply(old(store.db), t.e, t.private, t.watermark, t.now), old(store.db), store.db, r)
  {
    r := store.Apply(t.e, t.private, t.watermark, t.now);
    Grown(start, before, t, store.db, r.Ok?);
  }

  method QueueNext(store: Store, t: Txn, ghost start: DB, ghost before: seq<Txn>) returns (r: Result<HistoryJob>)
    requires t.QueueHistoryTxn? && store.db == Run(start, before)
    modifies store
    ensures GrownBy(start, before, t, store.db, r.Ok?)
    ensures Engine.Commits(QueueHistory(old(store.db), t.job, t.restart, t.now), old(store.db), store.db, r)
  {
    r := store.QueueHistory(t.job, t.restart, t.now);
    Grown(start, before, t, store.db, r.Ok?);
  }

  method CheckpointNext(store: Store, t: Txn, ghost start: DB, ghost before: seq<Txn>) returns (r: Result<bool>)
    requires t.CheckpointTxn? && store.db == Run(start, before)
    modifies store
    ensures GrownBy(start, before, t, store.db, r.Ok?)
    ensures var outcome := CheckpointHistory(old(store.db), t.id, t.generation, t.previous, t.next, t.records, t.detail, t.now);
      Engine.Commits(outcome, old(store.db), store.db, r)
  {
    r := store.CheckpointHistory(t.id, t.generation, t.previous, t.next, t.records, t.detail, t.now);
    Grown(start, before, t, store.db, r.Ok?);
  }

  method FailNext(store: Store, t: Txn, ghost start: DB, ghost before: seq<Txn>) returns (r: Result<bool>)
    requires t.FailHistoryTxn? && store.db == Run(start, before)
    modifies store
    ensures GrownBy(start, before, t, store.db, r.Ok?)
    ensures Engine.Commits(FailHistory(old(store.db), t.id, t.generation, t.detail, t.now), old(store.db), store.db, r)
  {
    r := store.FailHistory(t.id, t.generation, t.detail, t.now);
    Grown(start, before, t, store.db, r.Ok?);
  }
}
