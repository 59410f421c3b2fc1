/**
 * The single send worker (internal/bridge/service.go) over a shared store: it scans
 * the queue, prepares each candidate, claims it, calls the provider and records the
 * result. `Attempt` holds what the others do at its pauses and what it is told.
 */
module SendWorker {
  import opened Records
  import opened Buckets
  import opened StoreSpec
  import opened Committed
  import opened Frames
  import opened Engine
  import opened Sending
  import opened Outcomes
  import opened Fence

  // ---- the scan ----

  /** Outbox records are stored under their own ids, and the log's snapshots are the records. */
  ghost predicate SendsNamed(db: DB)
  {
    Keyed(db) && forall id :: Mirrored(db, id)
  }

  ghost predicate ByCreated(queued: seq<Outbox>)
  {
    forall i, j :: 0 <= i < j < |queued| ==> queued[i].created <= queued[j].created
  }

  predicate Waiting(db: DB, o: Outbox)
  {
    o.id in db.sends.outbox && db.sends.outbox[o.id] == o && o.state.Queued?
  }

  /** The queue, oldest first. */
  ghost predicate Scanned(db: DB, queued: seq<Outbox>)
  {
    && ByCreated(queued)
    && (forall i :: 0 <= i < |queued| ==> Waiting(db, queued[i]))
    && (forall id :: id in db.sends.outbox && db.sends.outbox[id].state.Queued? ==> db.sends.outbox[id] in queued)
  }

  method Insert(queued: seq<Outbox>, o: Outbox) returns (r: seq<Outbox>)
    requires ByCreated(queued)
    ensures ByCreated(r) && forall x :: x in r <==> x in queued || x == o
  {
    var at := |queued|;
    while at > 0 && o.created < queued[at - 1].created
      invariant 0 <= at <= |queued|
      invariant forall i :: at <= i < |queued| ==> o.created < queued[i].created
    {
      at := at - 1;
    }
    r := queued[..at] + ([o] + queued[at..]);
    InsertKeepsOrder(queued, o, at);
    InsertMembers(queued, o, at);
  }

  lemma InsertKeepsOrder(queued: seq<Outbox>, o: Outbox, at: nat)
    requires ByCreated(queued) && at <= |queued| && (at > 0 ==> queued[at - 1].created <= o.created)
    requires forall i :: at <= i < |queued| ==> o.created < queued[i].created
    ensures ByCreated(queued[..at] + ([o] + queued[at..]))
  {
    var r := queued[..at] + ([o] + queued[at..]);
    forall i, j | 0 <= i < j < |r| ensures r[i].created <= r[j].created {
      assert r[i] == if i < at then queued[i] else if i == at then o else queued[i - 1];
      assert r[j] == if j < at then queued[j] else if j == at then o else queued[j - 1];
    }
  }

  lemma InsertMembers(queued: seq<Outbox>, o: Outbox, at: nat)
    requires at <= |queued|
    ensures forall x :: x in queued[..at] + ([o] + queued[at..]) <==> x in queued || x == o
  {
    assert queued == queued[..at] + queued[at..];
  }

  /** The queued records under the first ids, in order. */
  ghost predicate ScannedIn(db: DB, ids: seq<string>, found: seq<Outbox>)
  {
    ByCreated(found) && forall o :: o in found <==> Waiting(db, o) && o.id in ids
  }

  lemma ScanStep(db: DB, ids: seq<string>, id: string, found: seq<Outbox>, grown: seq<Outbox>)
    requires SendsNamed(db) && ScannedIn(db, ids, found) && id in db.sends.outbox && id !in ids
    requires ByCreated(grown)
    requires var o := db.sends.outbox[id];
      forall x :: x in grown <==> x in found || (x == o && o.state.Queued?)
    ensures ScannedIn(db, ids + [id], grown)
  {
  }

  lemma ScanDone(db: DB, ids: seq<string>, found: seq<Outbox>)
    requires SendsNamed(db) && ScannedIn(db, ids, found)
    requires forall id :: id in ids <==> Key(OutboxKind, id) in db.log.latest
    ensures Scanned(db, found)
  {
    forall id | id in db.sends.outbox && db.sends.outbox[id].state.Queued? ensures db.sends.outbox[id] in found {
      assert Mirrored(db, id);
    }
  }

  method ReadQueued(data: Data, found: seq<Outbox>) returns (grown: Option<seq<Outbox>>)
    requires ByCreated(found)
    ensures grown.Some? <==> data.OutboxData?
    ensures grown.Some? ==> ByCreated(grown.value)
    ensures grown.Some? ==> forall x :: x in grown.value <==> x in found || (x == data.record && data.record.state.Queued?)
  {
    if !data.OutboxData? { return None; }
    if !data.record.state.Queued? { return Some(found); }
    var inserted := Insert(found, data.record);
    return Some(inserted);
  }

  lemma ReadStep(db: DB, ids: seq<string>, i: nat, found: seq<Outbox>, grown: Option<seq<Outbox>>)
    requires SendsNamed(db) && Sorted(ids) && i < |ids| && Key(OutboxKind, ids[i]) in db.log.latest
    requires ScannedIn(db, ids[..i], found)
    requires var data := db.log.latest[Key(OutboxKind, ids[i])];
      && (grown.Some? <==> data.OutboxData?)
      && (grown.Some? ==> ByCreated(grown.value))
      && (grown.Some? ==> forall x :: x in grown.value <==> x in found || (x == data.record && data.record.state.Queued?))
    ensures grown.Some? && ScannedIn(db, ids[..i + 1], grown.value)
  {
    assert Mirrored(db, ids[i]);
    NotYetListed(ids, i);
    ScanStep(db, ids[..i], ids[i], found, grown.value);
    assert ids[..i + 1] == ids[..i] + [ids[i]];
  }

  /** Reads the latest outbox snapshots; None when one does not decode, which named records always do. */
  method ScanQueued(db: DB) returns (queued: Option<seq<Outbox>>)
    ensures SendsNamed(db) ==> queued.Some? && Scanned(db, queued.value)
  {
    var ids := ListKeys(KindIds(db.log.latest, OutboxKind));
    forall id ensures id in ids <==> Key(OutboxKind, id) in db.log.latest { KindIdMember(db.log.latest, OutboxKind, id); }
    SortedKeysSorted(KindIds(db.log.latest, OutboxKind));
    queued := Some([]);
    var i := 0;
    while i < |ids| && queued.Some?
      invariant 0 <= i <= |ids| && (queued.Some? ==> ByCreated(queued.value))
      invariant SendsNamed(db) ==> queued.Some? && ScannedIn(db, ids[..i], queued.value)
    {
      assert ids[i] in ids;
      var grown := ReadQueued(db.log.latest[Key(OutboxKind, ids[i])], queued.value);
      if SendsNamed(db) { ReadStep(db, ids, i, queued.value, grown); }
      queued, i := grown, i + 1;
    }
    if SendsNamed(db) {
      assert ids[..i] == ids;
      ScanDone(db, ids, queued.value);
    }
  }

  lemma NotYetListed(ids: seq<string>, i: nat)
    requires Sorted(ids) && i < |ids|
    ensures ids[i] !in ids[..i]
  {
    forall j | 0 <= j < i ensures ids[j] != ids[i] { LessTotal(ids[j], ids[i]); }
  }

  // ---- the other actors ----

  /** Everything but this worker and a restart; new records are created after the scan. */
  ghost predicate Other(t: Txn, scanned: Time)
  {
    && AppliesOwned(t) && !t.ClaimTxn? && !EndsSending(t)
    && (t.EnqueueTxn? ==> t.now >= scanned)
  }

  ghost predicate Others(ts: seq<Txn>, scanned: Time)
  {
    forall t :: t in ts ==> Other(t, scanned)
  }

  /** A record that was not there at the scan was created after it. */
  lemma {:induction false} NewRecordsAreLater(db: DB, ts: seq<Txn>, id: string, scanned: Time)
    requires Keyed(db) && id !in db.sends.outbox && forall t :: t in ts ==> t.EnqueueTxn? ==> t.now >= scanned
    ensures var end := Run(db, ts).sends.outbox; id in end ==> end[id].created >= scanned
    decreases |ts|
  {
    if ts != [] {
      var next := Step(db, ts[0]);
      StepKept(db, ts[0], id);
      StepKeyed(db, ts[0]);
      if id in next.sends.outbox {
        RunReaches(next, ts[1..], id);
      } else {
        NewRecordsAreLater(next, ts[1..], id, scanned);
      }
    }
  }

  /** A claimed conversation request stays `sending` until this worker finishes it: no echo can confirm it. */
  lemma {:induction false} StaysSending(db: DB, ts: seq<Txn>, id: string, scanned: Time)
    requires Keyed(db) && Others(ts, scanned) && id in db.sends.outbox
    requires db.sends.outbox[id].state.Sending? && db.sends.outbox[id].request.kind == "conversation"
    ensures var end := Run(db, ts).sends.outbox;
      id in end && end[id].state.Sending? && end[id].request.kind == "conversation"
    decreases |ts|
  {
    if ts != [] {
      assert Other(ts[0], scanned);
      StepKept(db, ts[0], id);
      StepKeyed(db, ts[0]);
      StaysSending(Step(db, ts[0]), ts[1..], id, scanned);
    }
  }

  // ---- order at the claim ----

  predicate SameConversation(a: Outbox, b: Outbox)
  {
    a.request.conversationID == b.request.conversationID
  }

  /** No record of the same conversation created before o is still queued. */
  ghost predicate FirstInLine(db: DB, o: Outbox)
  {
    forall id :: Held(db, id) && SameConversation(db.sends.outbox[id], o) ==> db.sends.outbox[id].created >= o.created
  }

  /** Every candidate before i was skipped for its conversation, or is no longer queued. */
  ghost predicate PassedOver(db: DB, queued: seq<Outbox>, i: nat, blocked: set<string>)
    requires i <= |queued|
  {
    forall j :: 0 <= j < i ==> queued[j].request.conversationID in blocked || !Held(db, queued[j].id)
  }

  lemma PassedOverLasts(db: DB, ts: seq<Txn>, queued: seq<Outbox>, i: nat, blocked: set<string>)
    requires Keyed(db) && i <= |queued| && PassedOver(db, queued, i, blocked)
    requires forall j :: 0 <= j < |queued| ==> queued[j].id in db.sends.outbox
    ensures PassedOver(Run(db, ts), queued, i, blocked)
  {
    forall j | 0 <= j < i && !Held(db, queued[j].id) ensures !Held(Run(db, ts), queued[j].id) {
      RunReaches(db, ts, queued[j].id);
    }
  }

  /** No record of the candidate's conversation beats it: older ones were passed over, later ones are younger. */
  lemma CandidateBeats(start: DB, end: DB, ts: seq<Txn>, queued: seq<Outbox>, i: nat, blocked: set<string>, scanned: Time, id: string)
    requires Keyed(start) && Scanned(start, queued) && i < |queued| && end == Run(start, ts)
    requires forall t :: t in ts ==> t.EnqueueTxn? ==> t.now >= scanned
    requires queued[i].created <= scanned
    requires PassedOver(end, queued, i, blocked) && queued[i].request.conversationID !in blocked
    requires Held(end, id) && SameConversation(end.sends.outbox[id], queued[i])
    ensures end.sends.outbox[id].created >= queued[i].created
  {
    if id in start.sends.outbox {
      RunReaches(start, ts, id);
      var o := start.sends.outbox[id];
      assert o in queued;
      var j :| 0 <= j < |queued| && queued[j] == o;
      assert j >= i;
    } else {
      NewRecordsAreLater(start, ts, id, scanned);
    }
  }

  /**
   * The candidate at i is first in line if its conversation is not blocked: records
   * of the scan come in order of creation, and records since are younger.
   */
  lemma CandidateIsFirst(start: DB, ts: seq<Txn>, queued: seq<Outbox>, i: nat, blocked: set<string>, scanned: Time)
    requires Keyed(start) && Scanned(start, queued) && i < |queued|
    requires forall t :: t in ts ==> t.EnqueueTxn? ==> t.now >= scanned
    requires forall id :: id in start.sends.outbox ==> start.sends.outbox[id].created <= scanned
    requires PassedOver(Run(start, ts), queued, i, blocked) && queued[i].request.conversationID !in blocked
    ensures FirstInLine(Run(start, ts), queued[i])
  {
    var end := Run(start, ts);
    assert Waiting(start, queued[i]);
    forall id | Held(end, id) && SameConversation(end.sends.outbox[id], queued[i])
      ensures end.sends.outbox[id].created >= queued[i].created {
      CandidateBeats(start, end, ts, queued, i, blocked, scanned, id);
    }
  }

  // ---- one candidate ----

  datatype Prepared = Ready | Unusable | MediaStorageBroken | NotReady

  /** What a provider call can come back with; anything but an answer or a refusal leaves the outcome unknown. */
  datatype Answer = Answered(event: Incoming, private: map<string, Bytes>) | Refused(unregistered: bool) | Unanswered

  /** One candidate's turn: what the others do at each pause, what the provider says, and the clock. */
  datatype Attempt = Attempt(
    preparing: seq<Txn>, stopping: bool, prepared: Prepared, pairing: bool,
    claiming: seq<Txn>, pairingAtClaim: bool, calling: seq<Txn>, answer: Answer, now: Time)

  ghost predicate AttemptOk(attempt: Attempt, scanned: Time)
  {
    Others(attempt.preparing, scanned) && Others(attempt.claiming, scanned) && Others(attempt.calling, scanned)
  }

  datatype Verdict = Skip(block: bool) | Stop | Fail(error: Error) | StorageFail | GaveUp | Claimed(record: Outbox, mark: nat)

  const UNUSABLE := "Conversation has no usable outgoing sender or is read-only"

  ghost predicate Legally(ts: seq<Txn>, scanned: Time)
  {
    forall t :: t in ts ==> AppliesOwned(t) && (t.EnqueueTxn? ==> t.now >= scanned)
  }

  lemma {:induction false} ClaimsSplit(db: DB, a: seq<Txn>, b: seq<Txn>, id: string)
    ensures Claims(db, a + b, id) == Claims(db, a, id) + Claims(Run(db, a), b, id)
    decreases |a|
  {
    if a == [] {
      assert a + b == b;
    } else {
      assert (a + b)[0] == a[0] && (a + b)[1..] == a[1..] + b;
      ClaimsSplit(Step(db, a[0]), a[1..], b, id);
    }
  }

  lemma {:induction false} OthersNeverClaim(db: DB, ts: seq<Txn>, id: string)
    requires forall t :: t in ts ==> !t.ClaimTxn?
    ensures Claims(db, ts, id) == 0
    decreases |ts|
  {
    if ts != [] { OthersNeverClaim(Step(db, ts[0]), ts[1..], id); }
  }

  /** The record's claim as the worker made it, and the state it was made in. */
  ghost predicate JustClaimed(before: DB, after: DB, id: string, now: Time, record: Outbox)
  {
    && Held(before, id) && ClaimQueued(before, id, now).Done? && after == Step(before, ClaimTxn(id, now))
    && record == before.sends.outbox[id].(state := Sending, updated := now)
    && id in after.sends.outbox && after.sends.outbox[id] == record
  }

  /** The candidate can be sent, nobody is stopping, and no pairing was active at either look. */
  predicate Willing(attempt: Attempt)
  {
    attempt.prepared.Ready? && !attempt.stopping && !attempt.pairing && !attempt.pairingAtClaim
  }

  predicate Halted(attempt: Attempt)
  {
    attempt.stopping || (attempt.prepared.Ready? && (attempt.pairing || attempt.pairingAtClaim))
  }

  /** Each verdict has its one reason in how the turn went. */
  predicate Warranted(attempt: Attempt, verdict: Verdict)
  {
    match verdict
    case Stop => Halted(attempt)
    case Skip(block) => !Halted(attempt) && (if block then attempt.prepared.NotReady? else attempt.prepared.Unusable? || Willing(attempt))
    case StorageFail => !Halted(attempt) && attempt.prepared.MediaStorageBroken?
    case GaveUp => !Halted(attempt) && attempt.prepared.Unusable?
    case Fail(_) => !Halted(attempt) && (attempt.prepared.Unusable? || Willing(attempt))
    case Claimed(_, _) => Willing(attempt)
  }

  /** Prepares a candidate and, if it is ready and no pairing is active, claims it. */
  method Consider(store: Store, id: string, attempt: Attempt, ghost scanned: Time)
    returns (verdict: Verdict, ghost before: seq<Txn>, ghost last: seq<Txn>)
    requires Keyed(store.db) && id in store.db.sends.outbox && AttemptOk(attempt, scanned)
    modifies store
    ensures store.db == Run(Run(old(store.db), before), last) && Others(before, scanned) && |last| <= 1
    ensures Warranted(attempt, verdict)
    ensures verdict.Skip? && !verdict.block ==> !Held(store.db, id)
    ensures verdict.Fail? ==> verdict.error != Conflict
    ensures verdict.Claimed? ==> last == [ClaimTxn(id, attempt.now)] && JustClaimed(Run(old(store.db), before), store.db, id, attempt.now, verdict.record)
    ensures verdict.Claimed? ==> before == attempt.preparing + attempt.claiming && verdict.mark == Run(old(store.db), attempt.preparing).seen.versionSeq
    ensures verdict.GaveUp? ==> last == [RejectTxn(id, UNUSABLE, attempt.now)] && Held(Run(old(store.db), before), id)
    ensures verdict.GaveUp? ==>
      id in store.db.sends.outbox && store.db.sends.outbox[id].state.Rejected? && store.db.sends.outbox[id].detail == UNUSABLE
    ensures !verdict.Claimed? ==> last == [] || last[0].RejectTxn? || (last == [ClaimTxn(id, attempt.now)] && store.db == Run(old(store.db), before))
  {
    before, last := attempt.preparing, [];
    store.Interleave(attempt.preparing);
    RunReaches(old(store.db), attempt.preparing, id);
    if attempt.stopping { return Stop, before, last; }
    match attempt.prepared {
      case Unusable =>
        last := [RejectTxn(id, UNUSABLE, attempt.now)];
        var rejected := store.RejectQueued(id, UNUSABLE, attempt.now);
        if rejected.Ok? {
          RunKeyed(old(store.db), before);
          StepTakes(Run(old(store.db), before), last[0], id);
          return GaveUp, before, last;
        }
        verdict := if rejected.error == Conflict then Skip(false) else Fail(rejected.error);
      case MediaStorageBroken =>
        verdict := StorageFail;
      case NotReady =>
        verdict := Skip(true);
      case Ready =>
        if attempt.pairing { return Stop, before, last; }
        var mark := store.db.seen.versionSeq;
        store.Interleave(attempt.claiming);
        RunSplit(old(store.db), before, attempt.claiming);
        before := before + attempt.claiming;
        RunReaches(old(store.db), before, id);
        RunKeyed(old(store.db), before);
        if attempt.pairingAtClaim { return Stop, before, last; }
        last := [ClaimTxn(id, attempt.now)];
        verdict := TryClaim(store, id, attempt.now, mark);
    }
  }

  method TryClaim(store: Store, id: string, now: Time, mark: nat) returns (verdict: Verdict)
    requires Keyed(store.db) && id in store.db.sends.outbox
    modifies store
    ensures store.db == Step(old(store.db), ClaimTxn(id, now))
    ensures verdict.Skip? || verdict.Fail? || verdict.Claimed?
    ensures verdict.Skip? ==> !verdict.block && !Held(store.db, id) && store.db == old(store.db)
    ensures verdict.Fail? ==> verdict.error != Conflict && store.db == old(store.db)
    ensures verdict.Claimed? ==> JustClaimed(old(store.db), store.db, id, now, verdict.record) && verdict.mark == mark
  {
    var claimed := store.ClaimQueued(id, now);
    if claimed.Ok? {
      WriteFrame(old(store.db), claimed.value, now, Key(OutboxKind, id));
      verdict := Claimed(claimed.value, mark);
    } else {
      verdict := if claimed.error == Conflict then Skip(false) else Fail(claimed.error);
    }
  }

  // ---- the provider call and its result ----

  const TAKEN := "Provider accepted the request; delivery is not confirmed"
  const REACTION_TAKEN := "Provider accepted the reaction update"
  const REFUSED := "Provider explicitly rejected the send request"
  const UNREGISTERED := "Recipient is not registered on this network"
  const UNKNOWN := "Send outcome unknown; inspect phone before sending again"

  function Outcome(kind: string, answer: Answer): (OutboxState, string)
  {
    match answer
    case Answered(_, _) => (Accepted, if kind == "reaction" then REACTION_TAKEN else TAKEN)
    case Refused(unregistered) => (Rejected, if unregistered then UNREGISTERED else REFUSED)
    case Unanswered => (Ambiguous, UNKNOWN)
  }

  function ResultTxn(o: Outbox, mark: nat, answer: Answer, now: Time): Txn
  {
    if o.request.kind == "conversation" && answer.Answered?
    then FinishConversationTxn(o.id, answer.event, answer.private, mark, now)
    else
      var (state, detail) := Outcome(o.request.kind, answer);
      FinishTxn(o.id, state, detail, now)
  }

  /** The last transaction went through, or was refused. */
  ghost predicate Recorded(start: DB, trace: seq<Txn>, ok: bool)
  {
    trace != [] && if ok then EndsThrough(start, trace, trace[|trace| - 1]) else EndsRefused(start, trace)
  }

  lemma RecordedAfter(start: DB, before: seq<Txn>, trace: seq<Txn>, ok: bool)
    requires Recorded(Run(start, before), trace, ok)
    ensures Recorded(start, before + trace, ok)
  {
    if ok {
      EndsThroughAfter(start, before, trace, trace[|trace| - 1]);
    } else {
      EndsRefusedAfter(start, before, trace);
    }
  }

  /** A conversation request that is still `sending` is finished or fails for another reason than a conflict. */
  lemma FinishWithoutConflict(db: DB, id: string, e: Incoming, private: map<string, Bytes>, mark: nat, now: Time)
    requires id in db.sends.outbox && db.sends.outbox[id].state.Sending? && db.sends.outbox[id].request.kind == "conversation"
    ensures var r := FinishConversation(db, id, e, private, mark, now); r.Abort? ==> r.error != Conflict
  {
  }

  method RecordResult(store: Store, o: Outbox, mark: nat, answer: Answer, now: Time, ghost start: DB, ghost before: seq<Txn>)
    returns (failed: Option<Error>)
    requires store.db == Run(start, before)
    requires o.request.kind == "conversation" && answer.Answered? ==>
      o.id in store.db.sends.outbox && store.db.sends.outbox[o.id].state.Sending? && store.db.sends.outbox[o.id].request.kind == "conversation"
    modifies store
    ensures GrownBy(start, before, ResultTxn(o, mark, answer, now), store.db, failed.None?)
    ensures store.db == Step(old(store.db), ResultTxn(o, mark, answer, now))
    ensures failed.None? <==> GoesThrough(old(store.db), ResultTxn(o, mark, answer, now))
    ensures failed.Some? ==> failed.value != Conflict
  {
    if o.request.kind == "conversation" && answer.Answered? {
      FinishWithoutConflict(store.db, o.id, answer.event, answer.private, mark, now);
      var r := store.FinishConversation(o.id, answer.event, answer.private, mark, now);
      failed := if r.Ok? then None else Some(r.error);
    } else {
      var (state, detail) := Outcome(o.request.kind, answer);
      var r := store.Finish(o.id, state, detail, now);
      failed := if r.Ok? then None else Some(r.error);
    }
    Grown(start, before, ResultTxn(o, mark, answer, now), store.db, failed.None?);
  }

  /** What the record says of the provider's answer. */
  predicate Tells(r: Outbox, answer: Answer)
  {
    match answer
    case Answered(event, _) =>
      && r.state.Accepted?
      && (if r.request.kind == "conversation" then r.conversationID == event.key.id && r.detail == CONVERSATION_READY
          else r.detail == if r.request.kind == "reaction" then REACTION_TAKEN else TAKEN)
    case Refused(unregistered) => r.state.Rejected? && r.detail == if unregistered then UNREGISTERED else REFUSED
    case Unanswered => r.state.Ambiguous? && r.detail == UNKNOWN
  }

  /**
   * What is stored for a request after its call: that its own echo confirmed it
   * during the call, or else what the provider answered; if that could not be
   * recorded, that it is still being sent.
   */
  ghost predicate Remembered(db: DB, o: Outbox, attempt: Attempt, recorded: bool)
  {
    o.id in db.sends.outbox
    && var r := db.sends.outbox[o.id];
    && r.request == o.request
    && ((r.state.Confirmed? && EchoedIn(attempt.calling, r))
        || (if recorded then Tells(r, attempt.answer) else r.state.Sending?))
  }

  lemma ResultIsRemembered(called: DB, o: Outbox, mark: nat, attempt: Attempt, ok: bool)
    requires Keyed(called) && o.id in called.sends.outbox
    requires var r := called.sends.outbox[o.id];
      r.request == o.request && (r.state.Sending? || (r.state.Confirmed? && EchoedIn(attempt.calling, r)))
    requires ok <==> GoesThrough(called, ResultTxn(o, mark, attempt.answer, attempt.now))
    ensures Remembered(Step(called, ResultTxn(o, mark, attempt.answer, attempt.now)), o, attempt, ok)
  {
    StepTakes(called, ResultTxn(o, mark, attempt.answer, attempt.now), o.id);
  }

  lemma CallIsRemembered(claimed: DB, o: Outbox, mark: nat, attempt: Attempt, scanned: Time, ok: bool)
    requires Keyed(claimed) && o.id in claimed.sends.outbox && claimed.sends.outbox[o.id] == o && o.state.Sending?
    requires Others(attempt.calling, scanned)
    requires var called := Run(claimed, attempt.calling);
      ok <==> GoesThrough(called, ResultTxn(o, mark, attempt.answer, attempt.now))
    ensures Remembered(Step(Run(claimed, attempt.calling), ResultTxn(o, mark, attempt.answer, attempt.now)), o, attempt, ok)
  {
    forall t | t in attempt.calling ensures !EndsSending(t) { assert Other(t, scanned); }
    SendGoesOn(claimed, attempt.calling, o.id);
    RunKeyed(claimed, attempt.calling);
    ResultIsRemembered(Run(claimed, attempt.calling), o, mark, attempt, ok);
  }

  /** The conversation the provider answered with is stored, unless it was observed since the watermark was read: then it stays as it is. */
  lemma AnsweredConversationStored(db: DB, o: Outbox, mark: nat, answer: Answer, now: Time)
    requires o.request.kind == "conversation" && answer.Answered? && GoesThrough(db, ResultTxn(o, mark, answer, now))
    ensures var key, next := answer.event.key, Step(db, ResultTxn(o, mark, answer, now));
      if ObservedSince(db, key, mark) then SameAt(db.log, next.log, key)
      else key in next.log.latest && next.log.latest[key] == answer.event.data && EntityCurrent(next, key)
  {
    FinishConversationFrame(db, o.id, answer.event, answer.private, mark, now, answer.event.key);
  }

  /** Calls the provider for a claimed record and records what it said. */
  method Dispatch(store: Store, o: Outbox, mark: nat, attempt: Attempt, ghost scanned: Time)
    returns (failed: Option<Error>, ghost trace: seq<Txn>)
    requires Keyed(store.db) && o.id in store.db.sends.outbox && store.db.sends.outbox[o.id] == o && o.state.Sending?
    requires Others(attempt.calling, scanned)
    modifies store
    ensures trace == attempt.calling + [ResultTxn(o, mark, attempt.answer, attempt.now)]
    ensures store.db == Run(old(store.db), trace) && Recorded(old(store.db), trace, failed.None?)
    ensures Remembered(store.db, o, attempt, failed.None?)
    ensures failed.Some? ==> failed.value != Conflict
  {
    ghost var t := ResultTxn(o, mark, attempt.answer, attempt.now);
    store.Interleave(attempt.calling);
    trace := attempt.calling + [t];
    if o.request.kind == "conversation" { StaysSending(old(store.db), attempt.calling, o.id, scanned); }
    failed := RecordResult(store, o, mark, attempt.answer, attempt.now, old(store.db), attempt.calling);
    assert trace[|trace| - 1] == t;
    CallIsRemembered(old(store.db), o, mark, attempt, scanned, failed.None?);
  }

  // ---- one round ----

  /** Idle and interrupted rounds both report that nothing was sent. */
  datatype Sent = Idle | Interrupted | Progress | Broke(error: Error) | StorageBroke

  /** A provider call: the run up to the turn that made it, whose turn it was, and the record as claimed. */
  datatype Call = Call(reached: seq<Txn>, at: nat, o: Outbox)

  /** How the worker got to candidate i: nothing claimed so far, every earlier candidate passed over. */
  ghost predicate Reached(start: DB, db: DB, trace: seq<Txn>, queued: seq<Outbox>, i: nat, blocked: set<string>, scanned: Time)
  {
    && i <= |queued| && db == Run(start, trace) && Legally(trace, scanned) && Keyed(db)
    && (forall j :: 0 <= j < |queued| ==> queued[j].id in db.sends.outbox)
    && PassedOver(db, queued, i, blocked)
    && (forall id :: Claims(start, trace, id) == 0)
  }

  lemma StillThere(db: DB, ts: seq<Txn>, queued: seq<Outbox>)
    requires Keyed(db) && forall j :: 0 <= j < |queued| ==> queued[j].id in db.sends.outbox
    ensures forall j :: 0 <= j < |queued| ==> queued[j].id in Run(db, ts).sends.outbox
  {
    forall j | 0 <= j < |queued| ensures queued[j].id in Run(db, ts).sends.outbox { RunReaches(db, ts, queued[j].id); }
  }

  lemma ExtendTrace(start: DB, trace: seq<Txn>, more: seq<Txn>, id: string)
    requires Claims(start, trace, id) == 0
    ensures Run(start, trace + more) == Run(Run(start, trace), more)
    ensures Claims(start, trace + more, id) == Claims(Run(start, trace), more, id)
  {
    RunSplit(start, trace, more);
    ClaimsSplit(start, trace, more, id);
  }

  /** Anything the others do keeps the worker where it is. */
  lemma OthersReach(start: DB, db: DB, trace: seq<Txn>, more: seq<Txn>, queued: seq<Outbox>, i: nat, blocked: set<string>, scanned: Time)
    requires Reached(start, db, trace, queued, i, blocked, scanned)
    requires Legally(more, scanned) && forall id :: Claims(db, more, id) == 0
    ensures Reached(start, Run(db, more), trace + more, queued, i, blocked, scanned)
  {
    RunKeyed(db, more);
    StillThere(db, more, queued);
    PassedOverLasts(db, more, queued, i, blocked);
    forall id ensures Claims(start, trace + more, id) == 0 { ExtendTrace(start, trace, more, id); }
    RunSplit(start, trace, more);
  }

  /** A failed claim and a rejection are not claims. */
  lemma LastIsNoClaim(db: DB, last: seq<Txn>, id: string)
    requires last == [] || (|last| == 1 && (last[0].RejectTxn? || (last[0].ClaimTxn? && Step(db, last[0]) == db)))
    requires Keyed(db)
    ensures Claims(db, last, id) == 0
  {
    if last != [] {
      ClaimIsDispatch(db, last[0], id);
      assert Claims(Step(db, last[0]), last[1..], id) == 0;
    }
  }

  /** After a candidate that was not claimed. */
  lemma PassCandidate(
    start: DB, db: DB, trace: seq<Txn>, before: seq<Txn>, last: seq<Txn>, next: DB,
    queued: seq<Outbox>, i: nat, blocked: set<string>, scanned: Time)
    requires Reached(start, db, trace, queued, i, blocked, scanned)
    requires Others(before, scanned) && next == Run(Run(db, before), last)
    requires last == [] || (|last| == 1 && (last[0].RejectTxn? || (last[0].ClaimTxn? && next == Run(db, before))))
    ensures Reached(start, next, trace + (before + last), queued, i, blocked, scanned)
  {
    RunKeyed(db, before);
    forall id ensures Claims(db, before + last, id) == 0 {
      OthersNeverClaim(db, before, id);
      if last != [] { assert Run(Run(db, before), last) == Step(Run(db, before), last[0]) by { assert last[1..] == []; } }
      LastIsNoClaim(Run(db, before), last, id);
      ClaimsSplit(db, before, last, id);
    }
    RunSplit(db, before, last);
    OthersReach(start, db, trace, before + last, queued, i, blocked, scanned);
  }

  /** At a successful claim the candidate is first in line, and it is the round's only claim. */
  lemma ClaimCandidate(
    start: DB, db: DB, trace: seq<Txn>, before: seq<Txn>, next: DB,
    queued: seq<Outbox>, i: nat, blocked: set<string>, scanned: Time, now: Time, record: Outbox, id: string)
    requires Reached(start, db, trace, queued, i, blocked, scanned) && i < |queued|
    requires Keyed(start) && Scanned(start, queued) && forall x :: x in start.sends.outbox ==> start.sends.outbox[x].created <= scanned
    requires queued[i].request.conversationID !in blocked && Others(before, scanned)
    requires JustClaimed(Run(db, before), next, queued[i].id, now, record)
    ensures FirstInLine(Run(db, before), record)
    ensures Claims(start, trace + (before + [ClaimTxn(queued[i].id, now)]), id) == if id == queued[i].id then 1 else 0
  {
    var t := ClaimTxn(queued[i].id, now);
    PassedOverLasts(db, before, queued, i, blocked);
    RunSplit(start, trace, before);
    CandidateIsFirst(start, trace + before, queued, i, blocked, scanned);
    assert Waiting(start, queued[i]);
    RunReaches(start, trace + before, queued[i].id);
    OthersNeverClaim(db, before, id);
    ClaimsSplit(db, before, [t], id);
    ExtendTrace(start, trace, before + [t], id);
    assert Claims(Step(Run(db, before), t), [t][1..], id) == 0;
  }

  /** Conversation c was skipped because one of its candidates could not be prepared yet. */
  ghost predicate Unready(queued: seq<Outbox>, attempts: seq<Attempt>, c: string)
  {
    exists j :: 0 <= j < |queued| && j < |attempts| && queued[j].request.conversationID == c && attempts[j].prepared.NotReady?
  }

  /** A round that neither sent nor was stopped: every record it saw queued has left the queue, or waits behind one that is not ready. */
  ghost predicate NothingLeft(db: DB, queued: seq<Outbox>, attempts: seq<Attempt>)
  {
    forall j :: 0 <= j < |queued| ==> !Held(db, queued[j].id) || Unready(queued, attempts, queued[j].request.conversationID)
  }

  ghost predicate AllUnready(queued: seq<Outbox>, attempts: seq<Attempt>, blocked: set<string>)
  {
    forall c :: c in blocked ==> Unready(queued, attempts, c)
  }

  lemma StartRound(start: DB, queued: seq<Outbox>, scanned: Time)
    requires Keyed(start) && Scanned(start, queued)
    ensures Reached(start, start, [], queued, 0, {}, scanned)
  {
    forall j | 0 <= j < |queued| ensures queued[j].id in start.sends.outbox { assert Waiting(start, queued[j]); }
  }

  lemma NextCandidate(start: DB, db: DB, trace: seq<Txn>, queued: seq<Outbox>, i: nat, blocked: set<string>, more: set<string>, scanned: Time)
    requires Reached(start, db, trace, queued, i, blocked, scanned) && i < |queued| && blocked <= more
    requires queued[i].request.conversationID in more || !Held(db, queued[i].id)
    ensures Reached(start, db, trace, queued, i + 1, more, scanned)
  {
  }

  lemma RoundIsIdle(start: DB, db: DB, trace: seq<Txn>, queued: seq<Outbox>, attempts: seq<Attempt>, blocked: set<string>, scanned: Time)
    requires Reached(start, db, trace, queued, |queued|, blocked, scanned) && AllUnready(queued, attempts, blocked)
    ensures NothingLeft(db, queued, attempts)
  {
  }

  ghost predicate AttemptsOk(attempts: seq<Attempt>, scanned: Time)
  {
    forall i :: 0 <= i < |attempts| ==> AttemptOk(attempts[i], scanned)
  }

  /** The round up to the claim, and from there on. */
  function UpToClaim(call: Call, a: Attempt): seq<Txn>
  {
    call.reached + (a.preparing + a.claiming)
  }

  /**
   * The round's one call: for the candidate whose turn it was, claimed in the state the
   * round had reached, where no older queued record of its conversation was left; its
   * answer is the last thing recorded, under the watermark read before the claim.
   */
  ghost predicate CallMade(start: DB, trace: seq<Txn>, queued: seq<Outbox>, attempts: seq<Attempt>, call: Call)
  {
    && call.at < |queued| && call.at < |attempts| && queued[call.at].id == call.o.id
    && var a := attempts[call.at];
    && var before := Run(start, UpToClaim(call, a));
    && var mark := Run(start, call.reached + a.preparing).seen.versionSeq;
    && Willing(a)
    && trace == UpToClaim(call, a) + ([ClaimTxn(call.o.id, a.now)] + (a.calling + [ResultTxn(call.o, mark, a.answer, a.now)]))
    && JustClaimed(before, Run(start, UpToClaim(call, a) + [ClaimTxn(call.o.id, a.now)]), call.o.id, a.now, call.o)
    && FirstInLine(before, call.o)
  }

  /** If there was a call, it was made in its turn, its result was the last thing recorded, and what the store says of the request is what came of it. */
  ghost predicate CallStands(
    start: DB, trace: seq<Txn>, queued: seq<Outbox>, attempts: seq<Attempt>, call: Option<Call>, end: DB, recorded: bool)
  {
    match call
    case None => true
    case Some(c) =>
      && CallMade(start, trace, queued, attempts, c) && Recorded(start, trace, recorded)
      && Remembered(end, c.o, attempts[c.at], recorded)
  }

  /** The round's report has its reason in how its turns went. */
  ghost predicate Justified(sent: Sent, queued: seq<Outbox>, attempts: seq<Attempt>, call: Option<Call>, trace: seq<Txn>)
  {
    match sent
    case Idle => call.None?
    case Interrupted => call.None? && (|attempts| < |queued| || exists i :: 0 <= i < |attempts| && Halted(attempts[i]))
    case StorageBroke => call.None? && exists i :: 0 <= i < |attempts| && attempts[i].prepared.MediaStorageBroken?
    case Progress => call.Some? || (trace != [] && trace[|trace| - 1].RejectTxn?)
    case Broke(error) => error != Conflict
  }

  /** The round's provider call, if any, is backed by its one successful claim. */
  ghost predicate OneCall(start: DB, trace: seq<Txn>, call: Option<Call>)
  {
    forall id :: Claims(start, trace, id) == if call.Some? && call.value.o.id == id then 1 else 0
  }

  /**
   * One round of the worker with everything legal happening at its pauses. It makes
   * at most one provider call, after the only successful claim of the round, for a
   * record with no older queued record in its conversation; it never meets a conflict.
   */
  method SendOne(store: Store, attempts: seq<Attempt>, ghost scanned: Time)
    returns (sent: Sent, ghost queued: seq<Outbox>, ghost call: Option<Call>, ghost trace: seq<Txn>)
    requires SendsNamed(store.db)
    requires forall id :: id in store.db.sends.outbox ==> store.db.sends.outbox[id].created <= scanned
    requires AttemptsOk(attempts, scanned)
    modifies store
    ensures store.db == Run(old(store.db), trace) && Scanned(old(store.db), queued)
    ensures Justified(sent, queued, attempts, call, trace)
    ensures CallStands(old(store.db), trace, queued, attempts, call, store.db, sent.Progress?)
    ensures OneCall(old(store.db), trace, call)
    ensures sent.Idle? ==> NothingLeft(store.db, queued, attempts)
  {
    ghost var start := store.db;
    call, trace := None, [];
    var scan := ScanQueued(store.db);
    var candidates := scan.value;
    queued := candidates;
    var blocked: set<string> := {};
    StartRound(start, candidates, scanned);
    var i := 0;
    while i < |candidates|
      invariant i <= |candidates| && Reached(start, store.db, trace, candidates, i, blocked, scanned)
      invariant AllUnready(candidates, attempts, blocked)
    {
      var more := blocked;
      if candidates[i].request.conversationID !in blocked {
        if i >= |attempts| { return Interrupted, queued, call, trace; }
        ghost var here, reached := store.db, trace;
        var verdict;
        ghost var before;
        verdict, before, trace := TryCandidate(store, start, trace, candidates, i, blocked, attempts[i], scanned);
        if verdict.Claimed? {
          sent, call, trace := Send(store, start, here, reached, candidates, i, blocked, scanned, attempts, verdict.record, verdict.mark);
          return;
        }
        if !verdict.Skip? { return Reported(verdict), queued, call, trace; }
        if verdict.block { more := blocked + {candidates[i].request.conversationID}; }
      }
      NextCandidate(start, store.db, trace, candidates, i, blocked, more, scanned);
      blocked, i := more, i + 1;
    }
    sent := Idle;
    RoundIsIdle(start, store.db, trace, candidates, attempts, blocked, scanned);
  }

  /** The claim and whatever follows it make exactly one dispatch. */
  lemma RoundClaims(
    start: DB, here: DB, reached: seq<Txn>, before: seq<Txn>, claimed: DB, finish: seq<Txn>,
    queued: seq<Outbox>, i: nat, blocked: set<string>, scanned: Time, now: Time, record: Outbox)
    requires Reached(start, here, reached, queued, i, blocked, scanned) && i < |queued|
    requires Keyed(start) && Scanned(start, queued) && forall x :: x in start.sends.outbox ==> start.sends.outbox[x].created <= scanned
    requires queued[i].request.conversationID !in blocked && Others(before, scanned)
    requires JustClaimed(Run(here, before), claimed, queued[i].id, now, record)
    requires forall t :: t in finish ==> !t.ClaimTxn?
    ensures FirstInLine(Run(here, before), record)
    ensures Run(start, reached + before) == Run(here, before)
    ensures var t := ClaimTxn(queued[i].id, now);
      && Run(start, (reached + before) + [t]) == claimed
      && Run(start, (reached + before) + ([t] + finish)) == Run(claimed, finish)
      && (forall id :: Claims(start, (reached + before) + ([t] + finish), id) == if record.id == id then 1 else 0)
  {
    var t := ClaimTxn(queued[i].id, now);
    var upTo := reached + (before + [t]);
    assert (reached + before) + [t] == upTo && (reached + before) + ([t] + finish) == upTo + finish;
    RunOne(Run(here, before), t);
    RunSplit(here, before, [t]);
    RunSplit(start, reached, before);
    RunSplit(start, reached, before + [t]);
    RunSplit(start, upTo, finish);
    forall id ensures Claims(start, upTo + finish, id) == if record.id == id then 1 else 0 {
      ClaimCandidate(start, here, reached, before, claimed, queued, i, blocked, scanned, now, record, id);
      ClaimsSplit(start, upTo, finish, id);
      OthersNeverClaim(claimed, finish, id);
    }
    ClaimCandidate(start, here, reached, before, claimed, queued, i, blocked, scanned, now, record, record.id);
  }

  /** A candidate's turn, seen from the round. */
  method TryCandidate(
    store: Store, ghost start: DB, ghost reached: seq<Txn>, queued: seq<Outbox>, i: nat, ghost blocked: set<string>,
    attempt: Attempt, ghost scanned: Time)
    returns (verdict: Verdict, ghost before: seq<Txn>, ghost trace: seq<Txn>)
    requires Reached(start, store.db, reached, queued, i, blocked, scanned) && i < |queued| && AttemptOk(attempt, scanned)
    modifies store
    ensures !verdict.Claimed? ==> Reached(start, store.db, trace, queued, i, blocked, scanned)
    ensures Warranted(attempt, verdict)
    ensures verdict.Skip? && !verdict.block ==> !Held(store.db, queued[i].id)
    ensures verdict.Fail? ==> verdict.error != Conflict
    ensures verdict.GaveUp? ==> trace != [] && trace[|trace| - 1].RejectTxn?
    ensures verdict.Claimed? ==>
      && before == attempt.preparing + attempt.claiming
      && JustClaimed(Run(old(store.db), before), store.db, queued[i].id, attempt.now, verdict.record)
      && verdict.mark == Run(old(store.db), attempt.preparing).seen.versionSeq
  {
    ghost var here, last := store.db, [];
    verdict, before, last := Consider(store, queued[i].id, attempt, scanned);
    trace := reached + (before + last);
    if !verdict.Claimed? { PassCandidate(start, here, reached, before, last, store.db, queued, i, blocked, scanned); }
  }

  function Reported(verdict: Verdict): Sent
    requires !verdict.Skip? && !verdict.Claimed?
  {
    match verdict
    case Stop => Interrupted
    case GaveUp => Progress
    case StorageFail => StorageBroke
    case Fail(error) => Broke(error)
  }

  lemma RecordedAtEnd(start: DB, upTo: seq<Txn>, t: Txn, claimed: DB, finish: seq<Txn>, ok: bool)
    requires Run(start, upTo + [t]) == claimed && Recorded(claimed, finish, ok)
    ensures Recorded(start, upTo + ([t] + finish), ok)
  {
    assert upTo + ([t] + finish) == (upTo + [t]) + finish;
    RecordedAfter(start, upTo + [t], finish, ok);
  }

  lemma MakesCall(
    start: DB, here: DB, reached: seq<Txn>, claimed: DB, finish: seq<Txn>, queued: seq<Outbox>, i: nat, attempts: seq<Attempt>,
    record: Outbox, mark: nat)
    requires i < |queued| && i < |attempts| && Willing(attempts[i]) && here == Run(start, reached)
    requires mark == Run(here, attempts[i].preparing).seen.versionSeq
    requires finish == attempts[i].calling + [ResultTxn(record, mark, attempts[i].answer, attempts[i].now)]
    requires var before := attempts[i].preparing + attempts[i].claiming;
      && JustClaimed(Run(here, before), claimed, queued[i].id, attempts[i].now, record) && queued[i].id == record.id
      && FirstInLine(Run(here, before), record)
      && Run(start, reached + before) == Run(here, before)
      && Run(start, (reached + before) + [ClaimTxn(record.id, attempts[i].now)]) == claimed
    ensures var before := attempts[i].preparing + attempts[i].claiming;
      CallMade(start, (reached + before) + ([ClaimTxn(record.id, attempts[i].now)] + finish), queued, attempts, Call(reached, i, record))
  {
    RunSplit(start, reached, attempts[i].preparing);
  }

  /** The rest of a round once a candidate is claimed. */
  method Send(
    store: Store, ghost start: DB, ghost here: DB, ghost reached: seq<Txn>,
    queued: seq<Outbox>, i: nat, ghost blocked: set<string>, ghost scanned: Time, attempts: seq<Attempt>, record: Outbox, mark: nat)
    returns (sent: Sent, ghost call: Option<Call>, ghost trace: seq<Txn>)
    requires Reached(start, here, reached, queued, i, blocked, scanned) && i < |queued| && i < |attempts|
    requires Keyed(start) && Scanned(start, queued) && forall x :: x in start.sends.outbox ==> start.sends.outbox[x].created <= scanned
    requires queued[i].request.conversationID !in blocked && AttemptOk(attempts[i], scanned) && Willing(attempts[i])
    requires JustClaimed(Run(here, attempts[i].preparing + attempts[i].claiming), store.db, queued[i].id, attempts[i].now, record)
    requires mark == Run(here, attempts[i].preparing).seen.versionSeq
    modifies store
    ensures store.db == Run(start, trace)
    ensures sent.Progress? || (sent.Broke? && sent.error != Conflict)
    ensures call.Some? && CallStands(start, trace, queued, attempts, call, store.db, sent.Progress?)
    ensures OneCall(start, trace, call)
  {
    var attempt := attempts[i];
    ghost var claimed, before := store.db, attempt.preparing + attempt.claiming;
    RunKeyed(here, before);
    StepKeyed(Run(here, before), ClaimTxn(queued[i].id, attempt.now));
    var failed;
    ghost var finish;
    failed, finish := Dispatch(store, record, mark, attempt, scanned);
    RoundClaims(start, here, reached, before, claimed, finish, queued, i, blocked, scanned, attempt.now, record);
    MakesCall(start, here, reached, claimed, finish, queued, i, attempts, record, mark);
    call := Some(Call(reached, i, record));
    trace := (reached + before) + ([ClaimTxn(queued[i].id, attempt.now)] + finish);
    RecordedAtEnd(start, reached + before, ClaimTxn(queued[i].id, attempt.now), claimed, finish, failed.None?);
    sent := if failed.None? then Progress else Broke(failed.value);
  }
}
