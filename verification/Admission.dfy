/**
 * Mutations against pairing (internal/bridge/service.go, internal/bridge/pairing.go).
 * The mutation lock admits one of queueing, claiming, beginning and canceling at a
 * time; committing, expiring and finishing a pairing need only the state lock. Every
 * interleaving of these regions, with crashes, is a sequence of acts.
 */
module Admission {
  import opened Records
  import opened StoreSpec
  import opened Frames
  import opened Sending
  import P = Pairing

  /** Who holds the mutation lock; a queueing or claiming holder has seen no active pairing. */
  datatype Holder = Free | Queueing | Claiming | Canceling

  datatype System = System(desk: P.Desk, holder: Holder)

  datatype Act =
    | Enter(wanted: Holder)
    | Leave
    | StoreQueued(id: string, transactionID: string, request: SendRequest, now: Time)
    | StoreClaim(id: string, now: Time)
    | Protocol(region: P.Region)
    | Other(t: Txn)
    | Crash

  predicate PairingActive(sys: System)
  {
    P.Active(sys.desk.pairing.state)
  }

  /** Regions that begin or cancel a pairing run under the mutation lock; a marker is cleared there only after its attempt was canceled. */
  predicate Permitted(sys: System, r: P.Region)
  {
    && (r.Begin? || r.BeginWhatsApp? ==> sys.holder.Free?)
    && (r.Cancel? || r.ClearMarker? ==> sys.holder.Canceling?)
    && (r.ClearMarker? ==> !PairingActive(sys))
  }

  /** What nobody does outside these regions. */
  predicate Unguarded(t: Txn)
  {
    !t.EnqueueTxn? && !t.ClaimTxn? && !t.BeginPairingTxn? && !t.SavePairedTxn?
  }

  function WithDb(sys: System, db: DB): System
  {
    sys.(desk := sys.desk.(db := db))
  }

  /** An act that is not possible changes nothing. */
  ghost function After(sys: System, a: Act): System
  {
    match a
    case Enter(wanted) =>
      if !sys.holder.Free? || (!wanted.Canceling? && PairingActive(sys)) then sys else sys.(holder := wanted)
    case Leave => sys.(holder := Free)
    case StoreQueued(id, transactionID, request, now) =>
      if !sys.holder.Queueing? then sys
      else WithDb(sys, Step(sys.desk.db, EnqueueTxn(id, transactionID, request, now))).(holder := Free)
    case StoreClaim(id, now) =>
      if !sys.holder.Claiming? then sys
      else WithDb(sys, Step(sys.desk.db, ClaimTxn(id, now))).(holder := Free)
    case Protocol(r) => if Permitted(sys, r) then sys.(desk := P.After(sys.desk, r)) else sys
    case Other(t) => if Unguarded(t) then WithDb(sys, Step(sys.desk.db, t)) else sys
    case Crash => System(P.Desk.Desk(sys.desk.db, P.UNPAIRED, None, None, false), Free)
  }

  // ---- the store transaction behind each act ----

  function RegionTxn(d: P.Desk, r: P.Region): Txn
  {
    match r
    case Begin(_, _, _, _, now) => BeginPairingTxn(now, now + P.GOOGLE_LIFETIME, now)
    case BeginWhatsApp(_, _, now) => BeginPairingTxn(now, now + P.WHATSAPP_LIFETIME, now)
    case CommitSession(g, _, session, now) => SavePairedTxn(session, g != 0 && d.pairing.newPhone, now)
    case RefreshSession(_, session) => SaveSessionTxn(session)
    case _ => ClearAttemptTxn
  }

  lemma StepIsBegin(db: DB, started: Time, expires: Time, now: Time)
    ensures Step(db, BeginPairingTxn(started, expires, now)) == Commit(db, BeginPairingAttempt(db, started, expires, now))
  {
  }

  lemma StepIsSave(db: DB, session: Bytes, newPhone: bool, now: Time)
    ensures Step(db, SavePairedTxn(session, newPhone, now)) == Commit(db, SavePairedSession(db, session, newPhone, now))
  {
  }

  lemma BeginIsTxn(d: P.Desk, r: P.Region, next: DB)
    requires r.Begin? && next == Commit(d.db, BeginPairingAttempt(d.db, r.now, r.now + P.GOOGLE_LIFETIME, r.now))
    ensures P.BeginAfter(d, r).db == d.db || P.BeginAfter(d, r).db == next
  {
  }

  lemma BeginWhatsAppIsTxn(d: P.Desk, r: P.Region, next: DB)
    requires r.BeginWhatsApp? && next == Commit(d.db, BeginPairingAttempt(d.db, r.now, r.now + P.WHATSAPP_LIFETIME, r.now))
    ensures P.BeginWhatsAppAfter(d, r).db == d.db || P.BeginWhatsAppAfter(d, r).db == next
  {
  }

  lemma CommitIsTxn(d: P.Desk, r: P.Region, next: DB)
    requires r.CommitSession?
    requires next == Commit(d.db, SavePairedSession(d.db, r.session, r.generation != 0 && d.pairing.newPhone, r.now))
    ensures P.CommitAfter(d, r).db == d.db || P.CommitAfter(d, r).db == next
  {
  }

  lemma MarkerIsTxn(db: DB)
    ensures Step(db, ClearAttemptTxn) == db.(meta := db.meta.(attempt := None))
  {
  }

  ghost predicate WritesAs(d: P.Desk, r: P.Region, t: Txn)
  {
    P.After(d, r).db == d.db || P.After(d, r).db == Step(d.db, t)
  }

  lemma BeginRegion(d: P.Desk, r: P.Region, t: Txn)
    requires r.Begin? && t == BeginPairingTxn(r.now, r.now + P.GOOGLE_LIFETIME, r.now)
    ensures WritesAs(d, r, t)
  {
    StepIsBegin(d.db, r.now, r.now + P.GOOGLE_LIFETIME, r.now);
    BeginIsTxn(d, r, Step(d.db, t));
  }

  lemma BeginWhatsAppRegion(d: P.Desk, r: P.Region, t: Txn)
    requires r.BeginWhatsApp? && t == BeginPairingTxn(r.now, r.now + P.WHATSAPP_LIFETIME, r.now)
    ensures WritesAs(d, r, t)
  {
    StepIsBegin(d.db, r.now, r.now + P.WHATSAPP_LIFETIME, r.now);
    BeginWhatsAppIsTxn(d, r, Step(d.db, t));
  }

  lemma CommitRegion(d: P.Desk, r: P.Region, t: Txn)
    requires r.CommitSession? && t == SavePairedTxn(r.session, r.generation != 0 && d.pairing.newPhone, r.now)
    ensures WritesAs(d, r, t)
  {
    StepIsSave(d.db, r.session, r.generation != 0 && d.pairing.newPhone, r.now);
    CommitIsTxn(d, r, Step(d.db, t));
  }

  lemma MarkerRegion(d: P.Desk, r: P.Region)
    requires !r.Begin? && !r.BeginWhatsApp? && !r.CommitSession? && !r.RefreshSession?
    ensures WritesAs(d, r, ClearAttemptTxn)
  {
    MarkerIsTxn(d.db);
  }

  lemma RefreshRegion(d: P.Desk, r: P.Region)
    requires r.RefreshSession?
    ensures WritesAs(d, r, SaveSessionTxn(r.session))
  {
  }

  /** Each region writes at most one transaction. */
  lemma RegionIsTxn(d: P.Desk, r: P.Region)
    ensures WritesAs(d, r, RegionTxn(d, r))
  {
    if r.Begin? { BeginRegion(d, r, RegionTxn(d, r)); }
    else if r.BeginWhatsApp? { BeginWhatsAppRegion(d, r, RegionTxn(d, r)); }
    else if r.CommitSession? { CommitRegion(d, r, RegionTxn(d, r)); }
    else if r.RefreshSession? { RefreshRegion(d, r); }
    else { MarkerRegion(d, r); }
  }

  ghost function TxnOf(sys: System, a: Act): seq<Txn>
  {
    match a
    case StoreQueued(id, transactionID, request, now) =>
      if sys.holder.Queueing? then [EnqueueTxn(id, transactionID, request, now)] else []
    case StoreClaim(id, now) => if sys.holder.Claiming? then [ClaimTxn(id, now)] else []
    case Protocol(r) =>
      if Permitted(sys, r) && P.After(sys.desk, r).db != sys.desk.db then [RegionTxn(sys.desk, r)] else []
    case Other(t) => if Unguarded(t) then [t] else []
    case _ => []
  }

  lemma ActIsRun(sys: System, a: Act)
    ensures After(sys, a).desk.db == Run(sys.desk.db, TxnOf(sys, a))
  {
    var db := sys.desk.db;
    match a
    case StoreQueued(id, transactionID, request, now) => RunOne(db, EnqueueTxn(id, transactionID, request, now));
    case StoreClaim(id, now) => RunOne(db, ClaimTxn(id, now));
    case Protocol(r) =>
      RegionIsTxn(sys.desk, r);
      RunOne(db, RegionTxn(sys.desk, r));
    case Other(t) => RunOne(db, t);
    case _ =>
  }

  // ---- nothing is queued while a pairing is active ----

  /** A queued record belongs to the session that will send it. */
  predicate OfSession(db: DB, id: string)
  {
    Held(db, id) ==> db.sends.outbox[id].sessionEpoch == db.own.epoch
  }

  /** Only pairing a new phone starts a new session. */
  lemma EpochStays(db: DB, t: Txn)
    requires !t.SavePairedTxn?
    ensures Step(db, t).own.epoch == db.own.epoch
  {
    var k := Key(ConversationKind, "");
    match t
    case ApplyTxn(e, private, watermark, now) =>
      if Apply(db, e, private, watermark, now).Done? {
        var applied := if Stale(db, e.key, watermark) then Done(db, false) else ApplyFresh(db, e, private, now);
        if !Stale(db, e.key, watermark) { FreshFrame(db, e, private, now, k); }
        if e.key.kind.MessageKind? { ConfirmFrame(applied.db, e.data.message, now, k); }
      }
    case ReadTxn(id, through, now) =>
      if ReadConversation(db, id, through, now).Done? { RowFrame(db, id, ReadThrough(through), now, k); }
    case FinishConversationTxn(id, e, private, mark, now) =>
      if FinishConversation(db, id, e, private, mark, now).Done? {
        FinishConversationFrame(db, id, e, private, mark, now, k);
        ResultFrame(db, e, private, mark, now, k);
      }
    case AdoptTxn =>
    case _ => StepFrame(db, t, k);
  }

  /** Whatever happens to the store, a record still queued is of the current session. */
  lemma StepBelongs(db: DB, t: Txn, id: string)
    requires Keyed(db) && OfSession(db, id)
    ensures OfSession(Step(db, t), id)
  {
    StepKept(db, t, id);
    if t.SavePairedTxn? {
      if Step(db, t) != db { PairingEmptiesQueue(db, t, id); }
    } else {
      EpochStays(db, t);
    }
  }

  lemma {:induction false} RunBelongs(db: DB, ts: seq<Txn>, id: string)
    requires Keyed(db) && OfSession(db, id)
    ensures OfSession(Run(db, ts), id)
    decreases |ts|
  {
    if ts != [] {
      StepBelongs(db, ts[0], id);
      StepKeyed(db, ts[0]);
      RunBelongs(Step(db, ts[0]), ts[1..], id);
    }
  }

  /** In every run from an empty file, a claimed record's session is the store's at the claim. */
  lemma ClaimIsInSession(ts: seq<Txn>, id: string, now: Time)
    requires ClaimQueued(Run(EMPTY, ts), id, now).Done?
    ensures ClaimQueued(Run(EMPTY, ts), id, now).value.sessionEpoch == Run(EMPTY, ts).own.epoch
  {
    RunKeyed(EMPTY, ts);
    RunBelongs(EMPTY, ts, id);
  }

  /** While a pairing is active nothing is queued and nobody has been admitted to queue or claim. */
  ghost predicate Separated(sys: System)
  {
    && Keyed(sys.desk.db)
    && (PairingActive(sys) ==> !sys.holder.Queueing? && !sys.holder.Claiming?)
    && (PairingActive(sys) ==> forall id :: !Held(sys.desk.db, id))
  }

  lemma UnguardedNeverQueues(db: DB, t: Txn, id: string)
    requires Keyed(db) && !t.EnqueueTxn?
    ensures Held(Step(db, t), id) ==> Held(db, id)
  {
    StepKept(db, t, id);
  }

  lemma RegionSeparated(sys: System, r: P.Region)
    requires Separated(sys) && Permitted(sys, r)
    ensures Separated(After(sys, Protocol(r)))
  {
    var next := After(sys, Protocol(r));
    RegionIsTxn(sys.desk, r);
    P.DecidedIsFinal(sys.desk, r);
    var t := RegionTxn(sys.desk, r);
    if next.desk.db != sys.desk.db { StepKeyed(sys.desk.db, t); }
    forall id | PairingActive(next) ensures !Held(next.desk.db, id) {
      if PairingActive(sys) {
        assert !Held(sys.desk.db, id);
        if next.desk.db != sys.desk.db { UnguardedNeverQueues(sys.desk.db, t, id); }
      } else {
        BegunEmptiesQueue(sys.desk, r, id);
      }
    }
  }

  /** A pairing becomes active only in the transaction that cancels everything queued. */
  lemma BegunEmptiesQueue(d: P.Desk, r: P.Region, id: string)
    requires Keyed(d.db) && !P.Active(d.pairing.state) && P.Active(P.After(d, r).pairing.state)
    ensures !Held(P.After(d, r).db, id) && (r.Begin? || r.BeginWhatsApp?)
  {
    P.DecidedIsFinal(d, r);
    var now := r.now;
    if r.Begin? {
      assert BeginPairingAttempt(d.db, now, now + P.GOOGLE_LIFETIME, now).Done?;
    } else {
      assert BeginPairingAttempt(d.db, now, now + P.WHATSAPP_LIFETIME, now).Done?;
    }
    RewriteEvery(d.db, CancelForPairing, now, id);
  }

  lemma StepSeparated(sys: System, a: Act)
    requires Separated(sys)
    ensures Separated(After(sys, a))
  {
    var db := sys.desk.db;
    match a
    case Protocol(r) => if Permitted(sys, r) { RegionSeparated(sys, r); }
    case StoreQueued(id, transactionID, request, now) =>
      if sys.holder.Queueing? { StepKeyed(db, EnqueueTxn(id, transactionID, request, now)); }
    case StoreClaim(id, now) =>
      if sys.holder.Claiming? { StepKeyed(db, ClaimTxn(id, now)); }
    case Other(t) =>
      if Unguarded(t) {
        StepKeyed(db, t);
        forall id | PairingActive(sys) ensures !Held(Step(db, t), id) {
          assert !Held(db, id);
          UnguardedNeverQueues(db, t, id);
        }
      }
    case _ =>
  }

  ghost function RunActs(sys: System, acts: seq<Act>): System
    decreases |acts|
  {
    if acts == [] then sys else RunActs(After(sys, acts[0]), acts[1..])
  }

  /** Over every interleaving with crashes: while a pairing attempt is active, no outbox record is queued. */
  lemma {:induction false} NothingQueuedWhilePairing(sys: System, acts: seq<Act>)
    requires Separated(sys)
    ensures Separated(RunActs(sys, acts))
    decreases |acts|
  {
    if acts != [] {
      StepSeparated(sys, acts[0]);
      NothingQueuedWhilePairing(After(sys, acts[0]), acts[1..]);
    }
  }

  /** A claim is made only while no pairing is active. */
  lemma ClaimsOutsidePairing(sys: System, id: string, now: Time)
    requires Separated(sys) && After(sys, StoreClaim(id, now)).desk.db != sys.desk.db
    ensures !PairingActive(sys) && Held(sys.desk.db, id)
  {
    StepKept(sys.desk.db, ClaimTxn(id, now), id);
  }

  // ---- the whole system as a run of store transactions ----

  ghost function TxnsOf(sys: System, acts: seq<Act>): seq<Txn>
    decreases |acts|
  {
    if acts == [] then [] else TxnOf(sys, acts[0]) + TxnsOf(After(sys, acts[0]), acts[1..])
  }

  /** Whatever the interleaving, the store has seen one run of transactions: every result about runs holds here. */
  lemma {:induction false} SystemIsRun(sys: System, acts: seq<Act>)
    ensures RunActs(sys, acts).desk.db == Run(sys.desk.db, TxnsOf(sys, acts))
    decreases |acts|
  {
    if acts != [] {
      ActIsRun(sys, acts[0]);
      SystemIsRun(After(sys, acts[0]), acts[1..]);
      RunSplit(sys.desk.db, TxnOf(sys, acts[0]), TxnsOf(After(sys, acts[0]), acts[1..]));
    }
  }

  const START := System(P.Desk.Desk(EMPTY, P.UNPAIRED, None, None, false), Free)

  /** How often a claim of record id gets through: each is one permission to call the provider. */
  ghost function Sends(sys: System, acts: seq<Act>, id: string): nat
    decreases |acts|
  {
    if acts == [] then 0
    else
      Sends(After(sys, acts[0]), acts[1..], id)
        + if IsSending(After(sys, acts[0]).desk.db.sends.outbox, id) && !IsSending(sys.desk.db.sends.outbox, id) then 1 else 0
  }

  predicate LeftQueue(db: DB, id: string)
  {
    id in db.sends.outbox && !db.sends.outbox[id].state.Queued?
  }

  /** A record never comes back to the queue, and starts to be sent only by leaving it. */
  ghost predicate SendStep(db: DB, next: DB, id: string)
  {
    && Keyed(next) && (LeftQueue(db, id) ==> LeftQueue(next, id))
    && (IsSending(next.sends.outbox, id) && !IsSending(db.sends.outbox, id) ==> !LeftQueue(db, id) && LeftQueue(next, id))
  }

  lemma TxnSends(db: DB, t: Txn, id: string)
    requires Keyed(db)
    ensures SendStep(db, Step(db, t), id)
  {
    StepKept(db, t, id);
    StepKeyed(db, t);
  }

  lemma ActSends(sys: System, a: Act, id: string)
    requires Keyed(sys.desk.db)
    ensures SendStep(sys.desk.db, After(sys, a).desk.db, id)
  {
    ActIsRun(sys, a);
    var ts := TxnOf(sys, a);
    if ts != [] {
      RunOne(sys.desk.db, ts[0]);
      TxnSends(sys.desk.db, ts[0], id);
    }
  }

  /** With any interleaving of requests, workers, pairings and crashes, a record is sent at most once. */
  lemma {:induction false} SentAtMostOnce(sys: System, acts: seq<Act>, id: string)
    requires Keyed(sys.desk.db)
    ensures Sends(sys, acts, id) <= if LeftQueue(sys.desk.db, id) then 0 else 1
    decreases |acts|
  {
    if acts != [] {
      ActSends(sys, acts[0], id);
      SentAtMostOnce(After(sys, acts[0]), acts[1..], id);
    }
  }

  /** A record waiting when a pairing begins is canceled by it and is never sent, whatever follows. */
  lemma NothingCrossesAPairing(sys: System, r: P.Region, later: seq<Act>, id: string)
    requires Keyed(sys.desk.db) && Permitted(sys, r) && Held(sys.desk.db, id)
    requires !PairingActive(sys) && PairingActive(After(sys, Protocol(r)))
    ensures var end := RunActs(After(sys, Protocol(r)), later).desk.db.sends.outbox;
      id in end && end[id].state.Canceled?
    ensures Sends(After(sys, Protocol(r)), later, id) == 0
  {
    var begun := After(sys, Protocol(r));
    CanceledByBegin(sys.desk, r, id);
    ActSends(sys, Protocol(r), id);
    SentAtMostOnce(begun, later, id);
    SystemIsRun(begun, later);
    RunReaches(begun.desk.db, TxnsOf(begun, later), id);
  }

  lemma CanceledByBegin(d: P.Desk, r: P.Region, id: string)
    requires Keyed(d.db) && Held(d.db, id) && !P.Active(d.pairing.state) && P.Active(P.After(d, r).pairing.state)
    ensures var after := P.After(d, r).db.sends.outbox; id in after && after[id].state.Canceled?
  {
    P.DecidedIsFinal(d, r);
    if r.Begin? {
      assert BeginPairingAttempt(d.db, r.now, r.now + P.GOOGLE_LIFETIME, r.now).Done?;
    } else {
      assert BeginPairingAttempt(d.db, r.now, r.now + P.WHATSAPP_LIFETIME, r.now).Done?;
    }
    RewriteEvery(d.db, CancelForPairing, r.now, id);
  }

  /** Starting from an empty file, a claimed record is always of the store's own session, and no pairing is active. */
  lemma ClaimsStayInSession(acts: seq<Act>, id: string, now: Time)
    requires var sys := RunActs(START, acts); After(sys, StoreClaim(id, now)).desk.db != sys.desk.db
    ensures var sys := RunActs(START, acts);
      !PairingActive(sys) && Held(sys.desk.db, id) && sys.desk.db.sends.outbox[id].sessionEpoch == sys.desk.db.own.epoch
  {
    NothingQueuedWhilePairing(START, acts);
    var sys := RunActs(START, acts);
    ClaimsOutsidePairing(sys, id, now);
    SystemIsRun(START, acts);
    RunBelongs(EMPTY, TxnsOf(START, acts), id);
  }
}
