/** A pairing attempt from its beginning to its end: what it is for, what it is given, what it leaves. */
module Attempts {
  import opened Records
  import opened Buckets
  import opened StoreSpec
  import opened Frames
  import opened Pairing
  import A = Admission
  import O = Outcomes

  // ---- how an attempt begins, and what it hands on ----

  /** The bridge is not offline for good, nothing else is being carried out or asked for, and a saved sign-in is there if one is wanted. */
  predicate MayBegin(d: Desk, r: Region)
    requires r.Begin? || r.BeginWhatsApp?
  {
    && !d.offline
    && (match r
        case Begin(reuse, _, saved, _, _) =>
          && (d.running.Some? ==> Active(d.pairing.state))
          && (Active(d.pairing.state) ==> reuse && d.pairing.state.WaitingForLogin?)
          && (reuse ==> saved.Some?)
        case BeginWhatsApp(_, _, _) => !Active(d.pairing.state) && d.running.None?)
  }

  /** How long an attempt may take. */
  function Lifetime(r: Region): nat
  {
    if r.BeginWhatsApp? then WHATSAPP_LIFETIME else GOOGLE_LIFETIME
  }

  function AskedNewPhone(r: Region): bool
  {
    if r.Begin? then r.newPhone else true
  }

  /** The attempt r asked for is open, under the next generation. */
  predicate OpenedFor(d: Desk, r: Region, after: Desk)
    requires r.Begin? || r.BeginWhatsApp?
  {
    && after.pairing.generation == d.pairing.generation + 1 && Active(after.pairing.state)
    && after.pairing.newPhone == AskedNewPhone(r) && after.pairing.expires == r.now + Lifetime(r)
    && after.pairing.automatic == (r.BeginWhatsApp? && r.automatic)
    && after.db.meta.attempt == Some(Attempt(r.now, r.now + Lifetime(r)))
    && (match r
        case Begin(reuse, _, saved, ticket, _) =>
          if reuse then after.pairing.state.Connecting? && after.cookies == saved && after.pairing.ticket == ""
          else after.pairing.state.WaitingForLogin? && after.pairing.ticket == ticket && after.cookies == d.cookies
        case BeginWhatsApp(phone, _, _) =>
          after.pairing.state.Connecting? && after.cookies == Some(map["phone" := phone]))
  }

  /** An attempt is opened exactly when it may begin and the store can note it; otherwise nothing happens. */
  lemma BeginOpensIff(d: Desk, r: Region)
    requires r.Begin? || r.BeginWhatsApp?
    ensures if MayBegin(d, r) && BeginPairingAttempt(d.db, r.now, r.now + Lifetime(r), r.now).Done?
            then OpenedFor(d, r, After(d, r)) else After(d, r) == d
  {
  }

  /** Nothing but a beginning changes what an attempt is for. */
  lemma PurposeStays(d: Desk, r: Region)
    requires After(d, r).pairing.generation == d.pairing.generation
    ensures After(d, r).pairing.newPhone == d.pairing.newPhone && After(d, r).pairing.automatic == d.pairing.automatic
    ensures After(d, r).pairing.expires == d.pairing.expires
  {
    if r.Begin? || r.BeginWhatsApp? { BeginOpensIff(d, r); }
  }

  lemma {:induction false} PurposeLasts(d: Desk, rs: seq<Region>)
    ensures RunDesk(d, rs).pairing.generation >= d.pairing.generation
    ensures RunDesk(d, rs).pairing.generation == d.pairing.generation ==>
              RunDesk(d, rs).pairing.newPhone == d.pairing.newPhone && RunDesk(d, rs).pairing.expires == d.pairing.expires
    decreases |rs|
  {
    if rs != [] {
      DecidedIsFinal(d, rs[0]);
      PurposeLasts(After(d, rs[0]), rs[1..]);
      if After(d, rs[0]).pairing.generation == d.pairing.generation { PurposeStays(d, rs[0]); }
    }
  }

  /** A new phone starts a new session with nothing remembered or kept from the one before; the same phone goes on with everything. */
  ghost predicate SessionStored(before: DB, after: DB, session: Bytes, newPhone: bool)
  {
    && after.meta.session == Some(session) && after.meta.attempt.None?
    && (if newPhone
        then after.own.epoch == before.own.epoch + 1 && after.newest == map[] && after.private == map[] && after.meta.contacts.None?
        else after.own == before.own && after.newest == before.newest && after.private == before.private
             && after.meta.contacts == before.meta.contacts && after.pages == before.pages)
  }

  lemma SavedStores(db: DB, session: Bytes, newPhone: bool, now: Time)
    requires SavePairedSession(db, session, newPhone, now).Done?
    ensures SessionStored(db, SavePairedSession(db, session, newPhone, now).db, session, newPhone)
  {
    var key := Key(UploadKind, "");
    var canceled := RewriteOutbox(PairedSession(db, session), CancelForPairing, now).db;
    RewriteFrame(PairedSession(db, session), CancelForPairing, now, key);
    if newPhone {
      var begun := NewEpoch(canceled);
      PauseJobsFrame(begun, Jobs(begun, SortedKeys(KindIds(begun.log.latest, HistoryKind))), now, key);
    }
  }

  /**
   * The phone that was asked for is the one that is paired: whatever happens between
   * the request that opened a generation and the commit that replaces the session in
   * its name, the commit starts a new session exactly if that request was for a new phone.
   */
  lemma NewPhoneHonoured(d: Desk, begun: Region, rs: seq<Region>, commit: Region)
    requires (begun.Begin? || begun.BeginWhatsApp?) && After(d, begun) != d
    requires Replaces(RunDesk(After(d, begun), rs), commit, d.pairing.generation + 1)
    ensures var before := RunDesk(After(d, begun), rs);
      SessionStored(before.db, After(before, commit).db, commit.session, AskedNewPhone(begun))
  {
    BeginOpensIff(d, begun);
    PurposeLasts(After(d, begun), rs);
    var before := RunDesk(After(d, begun), rs);
    ReplacedMeansPaired(before, commit, d.pairing.generation + 1);
    SavedStores(before.db, commit.session, before.pairing.newPhone, commit.now);
  }

  /** The saved session of a phone that is already paired is replaced without starting a new one. */
  lemma ConnectedPhoneKeepsSession(d: Desk, commit: Region)
    requires Replaces(d, commit, 0)
    ensures SessionStored(d.db, After(d, commit).db, commit.session, false)
    ensures After(d, commit).pairing == d.pairing
  {
    SavedStores(d.db, commit.session, false, commit.now);
  }

  // ---- credentials ----

  /** The credentials a region gives the attempt, if it gives any. */
  ghost function Gives(d: Desk, r: Region): Option<Cookies>
  {
    if After(d, r) == d then None
    else
      match r
      case Begin(reuse, _, saved, _, _) => if reuse then saved else None
      case BeginWhatsApp(phone, _, _) => Some(map["phone" := phone])
      case Submit(_, cookies, _) => Some(Needed(cookies))
      case _ => None
  }

  /** Credentials wait only for an attempt that can use them. */
  predicate CredentialsKept(d: Desk)
  {
    d.cookies.Some? ==> Active(d.pairing.state) && !d.pairing.state.WaitingForLogin?
  }

  lemma RegionGives(d: Desk, r: Region)
    requires CredentialsKept(d)
    ensures CredentialsKept(After(d, r))
    ensures After(d, r).cookies.Some? ==> After(d, r).cookies == LaterOf(d.cookies, Gives(d, r))
  {
    if r.Begin? || r.BeginWhatsApp? { BeginOpensIff(d, r); }
  }

  ghost function LastGiven(d: Desk, rs: seq<Region>): Option<Cookies>
    decreases |rs|
  {
    if rs == [] then None else LaterOf(Gives(d, rs[0]), LastGiven(After(d, rs[0]), rs[1..]))
  }

  /** Over every interleaving, credentials waiting for the worker are the last ones given. */
  lemma {:induction false} CredentialsAreLastGiven(d: Desk, rs: seq<Region>)
    requires CredentialsKept(d)
    ensures CredentialsKept(RunDesk(d, rs))
    ensures RunDesk(d, rs).cookies.Some? ==> RunDesk(d, rs).cookies == LaterOf(d.cookies, LastGiven(d, rs))
    decreases |rs|
  {
    if rs != [] {
      RegionGives(d, rs[0]);
      CredentialsAreLastGiven(After(d, rs[0]), rs[1..]);
    }
  }

  /** An accepted sign-in hands the worker exactly the cookies pairing needs, and spends the ticket. */
  lemma SubmitHandsOver(d: Desk, r: Region)
    requires r.Submit? && TicketAccepted(d.pairing, r.ticket, r.now) && Complete(r.cookies) && !Oversized(r.cookies)
    ensures var after := After(d, r);
      && after.pairing.state.Connecting? && after.pairing.ticket == "" && after.pairing.generation == d.pairing.generation
      && after.cookies.Some?
      && (forall name :: name in after.cookies.value <==> name in r.cookies && name in REQUIRED_COOKIES + OPTIONAL_COOKIES)
      && (forall name :: name in after.cookies.value ==> after.cookies.value[name] == r.cookies[name])
  {
  }

  // ---- how an attempt ends ----

  /** Nothing of the attempt is shown or kept any more. */
  predicate Wiped(d: Desk)
  {
    d.pairing.ticket == "" && d.pairing.emoji == "" && d.pairing.qr == "" && d.pairing.code == "" && d.cookies.None?
  }

  /** The verdict a region brings for the undecided attempt, if it brings one. */
  ghost function Verdict(d: Desk, r: Region): Option<PairState>
  {
    if !Active(d.pairing.state) then None
    else
      match r
      case Cancel => Some(PairState.Canceled)
      case Expire(now) => if now >= d.pairing.expires && d.running.None? then Some(PairState.Failed) else None
      case Conclude(g, state, _, _) => if g == d.pairing.generation then Some(state) else None
      case CommitSession(g, canceled, session, now) =>
        if g != 0 && g == d.pairing.generation && !canceled && SavePairedSession(d.db, session, d.pairing.newPhone, now).Done?
        then Some(Paired) else None
      case _ => None
  }

  /**
   * An attempt ends when, and only when, one of these brings its verdict: it is
   * then in that state, under its own generation, with nothing left of it.
   */
  lemma VerdictDecides(d: Desk, r: Region)
    requires OnNetwork(r, true) || OnNetwork(r, false)
    ensures var after := After(d, r);
      && (Verdict(d, r).Some? ==>
            && after.pairing.state == Verdict(d, r).value && after.pairing.generation == d.pairing.generation
            && !Active(after.pairing.state) && Wiped(after) && (after.pairing.state.Failed? ==> after.pairing.reason != "")
            && (r.Conclude? ==> after.pairing.detail == r.detail && (r.reason != "" ==> after.pairing.reason == r.reason)))
      && (Verdict(d, r).None? && Active(d.pairing.state) ==> Active(after.pairing.state))
  {
  }

  /** Canceling always ends what is active; apart from that, it does nothing. */
  lemma CancelDecides(d: Desk)
    ensures var after := After(d, Cancel);
      && !Active(after.pairing.state) && after.db == d.db && after.running == d.running
      && (Active(d.pairing.state) ==> after.pairing.state.Canceled? && after.pairing.generation == d.pairing.generation && Wiped(after))
      && (!Active(d.pairing.state) ==> after == d)
  {
  }

  /** A failed or expired attempt takes its marker with it, and so does a stored session. */
  lemma VerdictClearsMarker(d: Desk, r: Region)
    requires Verdict(d, r).Some? && !r.Cancel?
    ensures After(d, r).db.meta.attempt.None?
  {
    if r.CommitSession? { SavePairedFrame(d.db, r.session, d.pairing.newPhone, r.now, Key(UploadKind, "")); }
  }

  /** Whatever follows, a decided generation stays as it is until another begins. */
  lemma {:induction false} DecidedStays(d: Desk, rs: seq<Region>)
    requires !Active(d.pairing.state)
    ensures RunDesk(d, rs).pairing.generation == d.pairing.generation ==> RunDesk(d, rs).pairing == d.pairing
    ensures RunDesk(d, rs).pairing.generation >= d.pairing.generation
    decreases |rs|
  {
    if rs != [] {
      DecidedIsFinal(d, rs[0]);
      if After(d, rs[0]).pairing.generation == d.pairing.generation {
        DecidedStays(After(d, rs[0]), rs[1..]);
      } else {
        GenerationsGrow(After(d, rs[0]), rs[1..]);
      }
    }
  }

  lemma {:induction false} GenerationsGrow(d: Desk, rs: seq<Region>)
    ensures RunDesk(d, rs).pairing.generation >= d.pairing.generation
    decreases |rs|
  {
    if rs != [] {
      DecidedIsFinal(d, rs[0]);
      GenerationsGrow(After(d, rs[0]), rs[1..]);
    }
  }

  /**
   * Once an attempt is canceled, or has failed or expired, it never replaces the
   * session, whatever its worker still does, and its ticket is good for nothing
   * unless it is handed out again.
   */
  lemma EndedForGood(d: Desk, r: Region, rs: seq<Region>)
    requires Verdict(d, r).Some? && !r.CommitSession? && d.pairing.generation != 0
    requires OnNetwork(r, false) && forall x :: x in rs ==> OnNetwork(x, false)
    ensures var after, g := After(d, r), d.pairing.generation;
      && Replacements(after, rs, g) == 0
      && TimesAccepted(after, rs, d.pairing.ticket) <= Issues(rs, d.pairing.ticket)
      && (RunDesk(after, rs).pairing.generation == g ==> RunDesk(after, rs).pairing == after.pairing)
  {
    VerdictDecides(d, r);
    OneOutcome(After(d, r), rs, d.pairing.generation);
    TicketsAcceptedOnce(After(d, r), rs, d.pairing.ticket);
    DecidedStays(After(d, r), rs);
  }

  // ---- carrying an attempt out ----

  /** The worker that takes a connecting attempt has its credentials for itself. */
  lemma TakeTakes(d: Desk, g: nat, token: nat)
    requires d.pairing.generation == g && d.pairing.state.Connecting?
    ensures After(d, Take(g, token)) == d.(cookies := None, running := Some(token))
  {
  }

  /** Anything on either network but the worker's own taking and releasing. */
  predicate LeavesRunning(r: Region, token: nat)
  {
    r != Release(token) && !r.Take? && (OnNetwork(r, true) || OnNetwork(r, false))
  }

  /** While an attempt is being carried out, ended or not, no other begins; releasing it makes room. */
  lemma {:induction false} RunningBlocks(d: Desk, rs: seq<Region>, token: nat)
    requires d.running == Some(token) && !d.pairing.state.WaitingForLogin?
    requires forall r :: r in rs ==> LeavesRunning(r, token)
    ensures var end := RunDesk(d, rs);
      && end.running == Some(token) && end.pairing.generation == d.pairing.generation
      && After(end, Release(token)).running.None?
    decreases |rs|
  {
    if rs != [] {
      assert LeavesRunning(rs[0], token);
      RunningStep(d, rs[0], token);
      RunningBlocks(After(d, rs[0]), rs[1..], token);
    }
  }

  lemma RunningStep(d: Desk, r: Region, token: nat)
    requires d.running == Some(token) && !d.pairing.state.WaitingForLogin? && LeavesRunning(r, token)
    ensures After(d, r).running == Some(token) && After(d, r).pairing.generation == d.pairing.generation
    ensures !After(d, r).pairing.state.WaitingForLogin?
  {
    if r.Begin? || r.BeginWhatsApp? { BeginOpensIff(d, r); }
  }

  // ---- what is shown ----

  /** The emoji the phone must match is shown as it came; a QR code or a pairing code is, and each replaces the one before. */
  lemma CodesAreShown(d: Desk, r: Region)
    requires r.ShowEmoji? || r.ShowCode?
    ensures var p, after := d.pairing, After(d, r).pairing;
      && (r.ShowEmoji? && p.generation == r.generation && p.state.Connecting? ==>
            after.state.ConfirmOnPhone? && after.emoji == r.emoji && after.qr == p.qr && after.code == p.code)
      && (r.ShowCode? && p.generation == r.generation && Active(p.state) && r.kind == "qr" ==>
            after.state.ScanQr? && after.qr == r.code && after.code == "" && after.emoji == p.emoji)
      && (r.ShowCode? && p.generation == r.generation && Active(p.state) && r.kind == "code" ==>
            after.state.EnterPairingCode? && after.code == r.code && after.qr == "" && after.emoji == p.emoji)
      && (p.generation != r.generation || !Active(p.state) ==> after == p)
  {
  }

  // ---- the mutation lock ----

  /** Once admitted, a request is queued: under a new id it waits to be sent. */
  lemma AdmittedIsQueued(sys: A.System, id: string, transactionID: string, request: SendRequest, now: Time)
    requires sys.holder.Free? && !A.PairingActive(sys) && id != "" && id !in sys.desk.db.sends.outbox
    ensures var after := A.After(A.After(sys, A.Enter(A.Queueing)), A.StoreQueued(id, transactionID, request, now));
      && id in after.desk.db.sends.outbox && after.desk.db.sends.outbox[id].state.Queued?
      && after.desk.db.sends.outbox[id].request == request && after.holder.Free?
  {
    O.EnqueueTakes(sys.desk.db, id, transactionID, request, now);
  }

  /** A claim that is admitted takes a waiting record out of the queue, to be sent. */
  lemma AdmittedIsClaimed(sys: A.System, id: string, now: Time)
    requires sys.holder.Free? && !A.PairingActive(sys) && Keyed(sys.desk.db) && id != ""
    requires id in sys.desk.db.sends.outbox && sys.desk.db.sends.outbox[id].state.Queued?
    ensures var after := A.After(A.After(sys, A.Enter(A.Claiming)), A.StoreClaim(id, now));
      id in after.desk.db.sends.outbox && after.desk.db.sends.outbox[id].state.Sending? && after.holder.Free?
  {
    O.StepTakes(sys.desk.db, ClaimTxn(id, now), id);
  }

  /** Canceling under the lock leaves neither an active attempt nor its marker, whatever there was. */
  lemma CancelingClearsUp(sys: A.System)
    requires sys.holder.Canceling?
    ensures var after := A.After(A.After(sys, A.Protocol(Cancel)), A.Protocol(ClearMarker));
      !A.PairingActive(after) && after.desk.db.meta.attempt.None?
  {
    CancelDecides(sys.desk);
  }

  // ---- the marker of an attempt ----

  /** The clock is past the zero time, a session is committed for an attempt, and a verdict is one. */
  predicate Sensible(r: Region)
  {
    && (r.Begin? || r.BeginWhatsApp? ==> r.now > 0)
    && (r.CommitSession? ==> r.generation != 0)
    && (r.Conclude? ==> !Active(r.state))
  }

  /** Markers are left to the pairing regions while the bridge runs. */
  predicate Marks(a: A.Act)
  {
    match a
    case Protocol(r) => Sensible(r)
    case Other(t) => !t.ClearAttemptTxn? && !t.RecoverAttemptTxn?
    case _ => true
  }

  predicate GoodMarker(db: DB)
  {
    db.meta.attempt.Some? && db.meta.attempt.value.started != 0 && db.meta.attempt.value.expires != 0
  }

  lemma RegionMarked(d: Desk, r: Region)
    requires Active(d.pairing.state) ==> GoodMarker(d.db)
    requires Sensible(r)
    requires r.ClearMarker? ==> !Active(d.pairing.state)
    ensures Active(After(d, r).pairing.state) ==> GoodMarker(After(d, r).db)
  {
    if r.Begin? || r.BeginWhatsApp? { BeginOpensIff(d, r); }
    else { DecidedIsFinal(d, r); }
  }

  lemma StepMarked(sys: A.System, a: A.Act)
    requires (A.PairingActive(sys) ==> GoodMarker(sys.desk.db)) && Marks(a)
    ensures A.PairingActive(A.After(sys, a)) ==> GoodMarker(A.After(sys, a).desk.db)
  {
    match a
    case Protocol(r) => if A.Permitted(sys, r) { RegionMarked(sys.desk, r); }
    case StoreQueued(id, transactionID, request, now) => MetaStays(sys.desk.db, EnqueueTxn(id, transactionID, request, now));
    case StoreClaim(id, now) => MetaStays(sys.desk.db, ClaimTxn(id, now));
    case Other(t) => if A.Unguarded(t) && !t.SaveSessionTxn? { MetaStays(sys.desk.db, t); }
    case _ =>
  }

  lemma {:induction false} RunMarked(sys: A.System, acts: seq<A.Act>)
    requires (A.PairingActive(sys) ==> GoodMarker(sys.desk.db)) && forall a :: a in acts ==> Marks(a)
    ensures A.PairingActive(A.RunActs(sys, acts)) ==> GoodMarker(A.RunActs(sys, acts).desk.db)
    decreases |acts|
  {
    if acts != [] {
      assert Marks(acts[0]);
      StepMarked(sys, acts[0]);
      RunMarked(A.After(sys, acts[0]), acts[1..]);
    }
  }

  /**
   * A pairing that was going on when the process died is known to the next one,
   * once: the marker survives the crash, is reported and is gone after that.
   */
  lemma InterruptedPairingIsReported(acts: seq<A.Act>)
    requires A.PairingActive(A.RunActs(A.START, acts)) && forall a :: a in acts ==> Marks(a)
    ensures var db := A.After(A.RunActs(A.START, acts), A.Crash).desk.db;
      var r := RecoverPairingAttempt(db);
      && r.Done? && r.value && r.db == db.(meta := db.meta.(attempt := None))
      && RecoverPairingAttempt(r.db) == Done(r.db, false)
  {
    RunMarked(A.START, acts);
  }
}
