/**
 * The pairing protocol (internal/bridge/pairing.go, internal/bridge/whatsapp.go). Every
 * region the bridge runs under its state lock is one step; any number of requests
 * and one pairing worker interleave them.
 */
module Pairing {
  import opened Records
  import opened Buckets
  import opened StoreSpec
  import Engine
  import Frames

  datatype PairState =
    | NoPairing | ScanQr | EnterPairingCode | WaitingForLogin | Connecting | ConfirmOnPhone
    | Canceled | Failed | Paired

  datatype PairingState = PairingState(
    generation: nat, newPhone: bool, automatic: bool, state: PairState, reason: string, detail: string,
    ticket: string, emoji: string, qr: string, code: string, expires: Time)

  const UNPAIRED := PairingState(0, false, false, NoPairing, "", "", "", "", "", "", 0)

  predicate Active(s: PairState)
  {
    s.ScanQr? || s.EnterPairingCode? || s.WaitingForLogin? || s.Connecting? || s.ConfirmOnPhone?
  }

  type Cookies = map<string, string>

  /** What the state lock guards, with the store the steps write to. `running` is the attempt being carried out. */
  datatype Desk = Desk(db: DB, pairing: PairingState, cookies: Option<Cookies>, running: Option<nat>, offline: bool)

  datatype Refusal = OfflineOnly | StillStopping | BadTicket | BadCookies | BadRequest | Superseded | StoreFailed(error: Error)
  datatype Reply<+T> = Granted(value: T) | Refused(refusal: Refusal)

  const MINUTE: nat := 60 * 1_000_000_000
  const GOOGLE_LIFETIME: nat := 10 * MINUTE
  const WHATSAPP_LIFETIME: nat := 3 * MINUTE
  const TICKET_LENGTH := 43
  const COOKIE_LIMIT := 8192
  const REQUIRED_COOKIES := {"SID", "HSID", "OSID", "SSID", "APISID", "SAPISID"}
  const OPTIONAL_COOKIES := {"__Secure-1PSIDTS"}

  const SIGN_IN := "Sign in to Google using the pairing helper, then return here"
  const RECONNECTING := "Reconnecting with your saved Google sign-in; keep your phone nearby"
  const CONTACTING := "Contacting Google to pair your phone"
  const CONNECTING_WHATSAPP := "Connecting to WhatsApp"
  const CHOOSE_EMOJI := "Choose this emoji in Google Messages on your phone"
  const SCAN := "Scan with WhatsApp → Linked devices"
  const ENTER_CODE := "Enter this code in WhatsApp → Linked devices → Link with phone number"
  const PAIRING_CANCELED := "Pairing canceled"
  const EXPIRED := "Pairing expired; start again"
  const PHONE_PAIRED := "Phone paired; connecting and loading history"

  /** Everything a finished attempt stops showing. */
  function Cleared(p: PairingState): PairingState
  {
    p.(ticket := "", emoji := "", qr := "", code := "")
  }

  // ---- the steps, as functions of the desk ----

  datatype Region =
    | Begin(reuseSignIn: bool, newPhone: bool, saved: Option<Cookies>, ticket: string, now: Time)
    | BeginWhatsApp(phone: string, automatic: bool, now: Time)
    | Submit(ticket: string, cookies: Cookies, now: Time)
    | Cancel
    | ClearMarker
    | Expire(now: Time)
    | Conclude(generation: nat, state: PairState, reason: string, detail: string)
    | ShowEmoji(generation: nat, emoji: string)
    | ShowCode(generation: nat, kind: string, code: string)
    | Take(generation: nat, token: nat)
    | Release(token: nat)
    | CommitSession(generation: nat, canceled: bool, session: Bytes, now: Time)
    | RefreshSession(pairingConnection: bool, session: Bytes)

  function Opened(d: Desk, newPhone: bool, automatic: bool, state: PairState, detail: string, ticket: string, expires: Time): PairingState
  {
    PairingState(d.pairing.generation + 1, newPhone, automatic, state, "", detail, ticket, "", "", "", expires)
  }

  ghost function BeginAfter(d: Desk, s: Region): Desk
    requires s.Begin?
  {
    if d.offline then d
    else if d.running.Some? && !Active(d.pairing.state) then d
    else if Active(d.pairing.state) && (!s.reuseSignIn || !d.pairing.state.WaitingForLogin?) then d
    else if s.reuseSignIn && s.saved.None? then d
    else
      var expires := s.now + GOOGLE_LIFETIME;
      var begun := BeginPairingAttempt(d.db, s.now, expires, s.now);
      if begun.Abort? then d
      else if s.reuseSignIn then
        d.(db := begun.db, cookies := s.saved, pairing := Opened(d, s.newPhone, false, Connecting, RECONNECTING, "", expires))
      else
        d.(db := begun.db, pairing := Opened(d, s.newPhone, false, WaitingForLogin, SIGN_IN, s.ticket, expires))
  }

  ghost function BeginWhatsAppAfter(d: Desk, s: Region): Desk
    requires s.BeginWhatsApp?
  {
    if d.offline || Active(d.pairing.state) || d.running.Some? then d
    else
      var expires := s.now + WHATSAPP_LIFETIME;
      var begun := BeginPairingAttempt(d.db, s.now, expires, s.now);
      if begun.Abort? then d
      else
        d.(db := begun.db, cookies := Some(map["phone" := s.phone]),
           pairing := Opened(d, true, s.automatic, Connecting, CONNECTING_WHATSAPP, "", expires))
  }

  predicate Complete(cookies: Cookies)
  {
    forall name :: name in REQUIRED_COOKIES ==> name in cookies && cookies[name] != ""
  }

  predicate Oversized(cookies: Cookies)
  {
    exists name :: name in REQUIRED_COOKIES + OPTIONAL_COOKIES && name in cookies && |cookies[name]| > COOKIE_LIMIT
  }

  /** Only the cookies pairing needs are kept. */
  function Needed(cookies: Cookies): Cookies
  {
    map name | name in cookies && name in REQUIRED_COOKIES + OPTIONAL_COOKIES :: cookies[name]
  }

  predicate TicketAccepted(p: PairingState, ticket: string, now: Time)
  {
    p.state.WaitingForLogin? && now <= p.expires && |ticket| == TICKET_LENGTH && ticket == p.ticket
  }

  function SubmitAfter(d: Desk, s: Region): Desk
    requires s.Submit?
  {
    if !TicketAccepted(d.pairing, s.ticket, s.now) || !Complete(s.cookies) || Oversized(s.cookies) then d
    else d.(cookies := Some(Needed(s.cookies)), pairing := d.pairing.(state := Connecting, ticket := "", detail := CONTACTING))
  }

  function CancelAfter(d: Desk): Desk
  {
    if !Active(d.pairing.state) then d
    else
      d.(cookies := None,
         pairing := Cleared(d.pairing).(state := PairState.Canceled, reason := "canceled", detail := PAIRING_CANCELED))
  }

  function ExpireAfter(d: Desk, now: Time): Desk
  {
    if !Active(d.pairing.state) || now < d.pairing.expires || d.running.Some? then d
    else
      d.(cookies := None, db := d.db.(meta := d.db.meta.(attempt := None)),
         pairing := Cleared(d.pairing).(state := PairState.Failed, reason := "ticket_expired", detail := EXPIRED))
  }

  /** The worker's verdict counts only for the generation it ran, while that is still undecided. */
  function ConcludeAfter(d: Desk, s: Region): Desk
    requires s.Conclude?
  {
    if d.pairing.generation != s.generation || !Active(d.pairing.state) then d
    else
      var reason := if s.state.Failed? && s.reason == "" then "pairing_failed" else s.reason;
      d.(cookies := None, db := d.db.(meta := d.db.meta.(attempt := None)),
         pairing := Cleared(d.pairing).(state := s.state, reason := reason, detail := s.detail))
  }

  function ShowEmojiAfter(d: Desk, s: Region): Desk
    requires s.ShowEmoji?
  {
    if d.pairing.generation != s.generation || !d.pairing.state.Connecting? then d
    else d.(pairing := d.pairing.(state := ConfirmOnPhone, emoji := s.emoji, detail := CHOOSE_EMOJI))
  }

  function ShowCodeAfter(d: Desk, s: Region): Desk
    requires s.ShowCode?
  {
    if d.pairing.generation != s.generation || !Active(d.pairing.state) then d
    else
      var blank := d.pairing.(qr := "", code := "");
      d.(pairing := if s.kind == "qr" then blank.(state := ScanQr, qr := s.code, detail := SCAN)
                    else if s.kind == "code" then blank.(state := EnterPairingCode, code := s.code, detail := ENTER_CODE)
                    else blank)
  }

  function TakeAfter(d: Desk, s: Region): Desk
    requires s.Take?
  {
    if d.pairing.generation != s.generation || !d.pairing.state.Connecting? then d
    else d.(cookies := None, running := Some(s.token))
  }

  function ReleaseAfter(d: Desk, token: nat): Desk
  {
    if d.running == Some(token) then d.(running := None) else d
  }

  /** Generation 0 is the connected phone saving its own session again. */
  predicate MayCommit(d: Desk, s: Region)
    requires s.CommitSession?
  {
    !s.canceled && (s.generation == 0 || (d.pairing.generation == s.generation && Active(d.pairing.state)))
  }

  ghost function CommitAfter(d: Desk, s: Region): Desk
    requires s.CommitSession?
  {
    if !MayCommit(d, s) then d
    else
      var saved := SavePairedSession(d.db, s.session, s.generation != 0 && d.pairing.newPhone, s.now);
      if saved.Abort? then d
      else if s.generation == 0 then d.(db := saved.db)
      else d.(db := saved.db, cookies := None, pairing := Cleared(d.pairing).(state := Paired, reason := "", detail := PHONE_PAIRED))
  }

  /** The provider renewed its token: an established connection saves its session, one still pairing does not. */
  function RefreshAfter(d: Desk, s: Region): Desk
    requires s.RefreshSession?
  {
    if s.pairingConnection then d else d.(db := SaveSession(d.db, s.session))
  }

  ghost function After(d: Desk, s: Region): Desk
  {
    match s
    case Begin(_, _, _, _, _) => BeginAfter(d, s)
    case BeginWhatsApp(_, _, _) => BeginWhatsAppAfter(d, s)
    case Submit(_, _, _) => SubmitAfter(d, s)
    case Cancel => CancelAfter(d)
    case ClearMarker => d.(db := d.db.(meta := d.db.meta.(attempt := None)))
    case Expire(now) => ExpireAfter(d, now)
    case Conclude(_, _, _, _) => ConcludeAfter(d, s)
    case ShowEmoji(_, _) => ShowEmojiAfter(d, s)
    case ShowCode(_, _, _) => ShowCodeAfter(d, s)
    case Take(_, _) => TakeAfter(d, s)
    case Release(token) => ReleaseAfter(d, token)
    case CommitSession(_, _, _, _) => CommitAfter(d, s)
    case RefreshSession(_, _) => RefreshAfter(d, s)
  }

  // ---- one outcome per generation ----

  /** A bridge serves one network; each has its own way to begin. */
  predicate OnNetwork(r: Region, whatsapp: bool)
  {
    && (r.Begin? ==> !whatsapp && |r.ticket| == TICKET_LENGTH)
    && (r.RefreshSession? ==> !whatsapp)
    && (r.BeginWhatsApp? || r.ShowCode? ==> whatsapp)
    && (r.Conclude? ==> r.state.Failed? || r.state.Paired?)
  }

  /** The generation a region acts for, when it names one. */
  function Names(r: Region): Option<nat>
  {
    match r
    case Conclude(g, _, _, _) => Some(g)
    case ShowEmoji(g, _) => Some(g)
    case ShowCode(g, _, _) => Some(g)
    case Take(g, _) => Some(g)
    case CommitSession(g, _, _, _) => if g == 0 then None else Some(g)
    case _ => None
  }

  /** Generations only grow, a decided one is never touched again, and only beginning opens a new one. */
  ghost predicate Succeeds(before: PairingState, after: PairingState, r: Region)
  {
    && (after.generation == before.generation
        || (after.generation == before.generation + 1 && (r.Begin? || r.BeginWhatsApp?) && Active(after.state)))
    && (after.generation == before.generation && !Active(before.state) ==> after == before)
  }

  lemma BeginSucceeds(d: Desk, r: Region)
    requires r.Begin? || r.BeginWhatsApp?
    ensures Succeeds(d.pairing, After(d, r).pairing, r)
  {
  }

  lemma CommitSucceeds(d: Desk, r: Region)
    requires r.CommitSession?
    ensures Succeeds(d.pairing, After(d, r).pairing, r)
  {
  }

  /** For every region and every desk. */
  lemma DecidedIsFinal(d: Desk, r: Region)
    ensures Succeeds(d.pairing, After(d, r).pairing, r)
  {
    if r.Begin? || r.BeginWhatsApp? { BeginSucceeds(d, r); }
    else if r.CommitSession? { CommitSucceeds(d, r); }
  }

  /** Region r replaces the stored session on behalf of generation g. */
  ghost predicate Replaces(d: Desk, r: Region, g: nat)
  {
    r.CommitSession? && r.generation == g && After(d, r) != d
  }

  /** Committing and reporting are one step: the session is replaced exactly when the generation becomes paired, from being undecided. */
  lemma ReplacedMeansPaired(d: Desk, r: Region, g: nat)
    requires g != 0 && Replaces(d, r, g)
    ensures d.pairing.generation == g && Active(d.pairing.state)
    ensures After(d, r).pairing.generation == g && After(d, r).pairing.state.Paired?
    ensures After(d, r).db.meta.session == Some(r.session)
  {
    var newPhone := d.pairing.newPhone;
    Frames.SavePairedFrame(d.db, r.session, newPhone, r.now, Key(UploadKind, ""));
  }

  ghost function RunDesk(d: Desk, rs: seq<Region>): Desk
    decreases |rs|
  {
    if rs == [] then d else RunDesk(After(d, rs[0]), rs[1..])
  }

  /** A run with everything done in the name of generation g left out. */
  function WithoutGeneration(rs: seq<Region>, g: nat): seq<Region>
  {
    if rs == [] then []
    else (if Names(rs[0]) == Some(g) then [] else [rs[0]]) + WithoutGeneration(rs[1..], g)
  }

  /** Once a generation is superseded, nothing its worker still does has any effect, whatever else goes on. */
  lemma {:induction false} SupersededHasNoEffect(d: Desk, rs: seq<Region>, g: nat)
    requires g < d.pairing.generation
    ensures RunDesk(d, rs) == RunDesk(d, WithoutGeneration(rs, g))
    decreases |rs|
  {
    if rs != [] {
      var next := After(d, rs[0]);
      DecidedIsFinal(d, rs[0]);
      SupersededHasNoEffect(next, rs[1..], g);
      if Names(rs[0]) == Some(g) {
        SupersededDoesNothing(d, rs[0]);
        assert WithoutGeneration(rs, g) == WithoutGeneration(rs[1..], g);
      } else {
        assert ([rs[0]] + WithoutGeneration(rs[1..], g))[1..] == WithoutGeneration(rs[1..], g);
      }
    }
  }

  lemma SupersededDoesNothing(d: Desk, r: Region)
    requires Names(r).Some? && Names(r).value < d.pairing.generation
    ensures After(d, r) == d
  {
  }

  ghost function Replacements(d: Desk, rs: seq<Region>, g: nat): nat
    decreases |rs|
  {
    if rs == [] then 0
    else Replacements(After(d, rs[0]), rs[1..], g) + if Replaces(d, rs[0], g) then 1 else 0
  }

  /** Generation g can still replace the session: it has not begun, or is undecided. */
  predicate MayReplace(p: PairingState, g: nat)
  {
    p.generation < g || (p.generation == g && Active(p.state))
  }

  /** A generation replaces the session at most once, and then it is paired; one that was canceled or failed never did. */
  lemma {:induction false} OneOutcome(d: Desk, rs: seq<Region>, g: nat)
    requires g != 0
    ensures RunDesk(d, rs).pairing.generation >= d.pairing.generation
    ensures Replacements(d, rs, g) <= if MayReplace(d.pairing, g) then 1 else 0
    ensures Replacements(d, rs, g) == 1 && RunDesk(d, rs).pairing.generation == g ==> RunDesk(d, rs).pairing.state.Paired?
    ensures d.pairing.generation == g && d.pairing.state.Paired? && RunDesk(d, rs).pairing.generation == g ==>
              RunDesk(d, rs).pairing.state.Paired?
    decreases |rs|
  {
    if rs != [] {
      DecidedIsFinal(d, rs[0]);
      if Replaces(d, rs[0], g) { ReplacedMeansPaired(d, rs[0], g); }
      OneOutcome(After(d, rs[0]), rs[1..], g);
    }
  }

  // ---- tickets ----

  /** A ticket is shown exactly while a sign-in is awaited; WhatsApp never awaits one. */
  predicate TicketShown(p: PairingState, whatsapp: bool)
  {
    (p.ticket != "" <==> p.state.WaitingForLogin?) && (whatsapp ==> !p.state.WaitingForLogin?)
  }

  lemma TicketStaysShown(d: Desk, r: Region, whatsapp: bool)
    requires TicketShown(d.pairing, whatsapp) && OnNetwork(r, whatsapp)
    ensures TicketShown(After(d, r).pairing, whatsapp)
  {
  }

  lemma {:induction false} TicketAlwaysShown(d: Desk, rs: seq<Region>, whatsapp: bool)
    requires TicketShown(d.pairing, whatsapp) && forall r :: r in rs ==> OnNetwork(r, whatsapp)
    ensures TicketShown(RunDesk(d, rs).pairing, whatsapp)
    decreases |rs|
  {
    if rs != [] {
      assert OnNetwork(rs[0], whatsapp);
      TicketStaysShown(d, rs[0], whatsapp);
      TicketAlwaysShown(After(d, rs[0]), rs[1..], whatsapp);
    }
  }

  ghost predicate Accepts(d: Desk, r: Region, ticket: string)
  {
    r.Submit? && r.ticket == ticket && After(d, r) != d
  }

  ghost function TimesAccepted(d: Desk, rs: seq<Region>, ticket: string): nat
    decreases |rs|
  {
    if rs == [] then 0
    else TimesAccepted(After(d, rs[0]), rs[1..], ticket) + if Accepts(d, rs[0], ticket) then 1 else 0
  }

  function Issues(rs: seq<Region>, ticket: string): nat
  {
    if rs == [] then 0 else Issues(rs[1..], ticket) + if rs[0].Begin? && rs[0].ticket == ticket then 1 else 0
  }

  function Live(p: PairingState, ticket: string): nat
  {
    if p.state.WaitingForLogin? && p.ticket == ticket then 1 else 0
  }

  lemma TicketSpent(d: Desk, r: Region, ticket: string)
    requires OnNetwork(r, false)
    ensures (if Accepts(d, r, ticket) then 1 else 0) + Live(After(d, r).pairing, ticket)
         <= Live(d.pairing, ticket) + if r.Begin? && r.ticket == ticket then 1 else 0
  {
  }

  /** A ticket is accepted no more often than it was issued: once, as tickets are random. */
  lemma {:induction false} TicketsAcceptedOnce(d: Desk, rs: seq<Region>, ticket: string)
    requires forall r :: r in rs ==> OnNetwork(r, false)
    ensures TimesAccepted(d, rs, ticket) <= Issues(rs, ticket) + Live(d.pairing, ticket)
    decreases |rs|
  {
    if rs != [] {
      assert OnNetwork(rs[0], false);
      TicketSpent(d, rs[0], ticket);
      TicketsAcceptedOnce(After(d, rs[0]), rs[1..], ticket);
    }
  }

  // ---- the stored session ----

  /** The session a region stores, if it stores one: a commit that goes through, or a refresh. */
  ghost function StoredBy(d: Desk, r: Region): Option<Bytes>
  {
    if r.RefreshSession? && !r.pairingConnection then Some(r.session)
    else if r.CommitSession? && After(d, r) != d then Some(r.session)
    else None
  }

  function LaterOf<T>(earlier: Option<T>, later: Option<T>): Option<T>
  {
    if later.Some? then later else earlier
  }

  lemma BeginKeepsSession(d: Desk, r: Region)
    requires r.Begin? || r.BeginWhatsApp?
    ensures After(d, r).db.meta.session == d.db.meta.session
  {
    var expires := if r.Begin? then r.now + GOOGLE_LIFETIME else r.now + WHATSAPP_LIFETIME;
    if BeginPairingAttempt(d.db, r.now, expires, r.now).Done? {
      Frames.RewriteFrame(d.db, CancelForPairing, r.now, Key(UploadKind, ""));
    }
  }

  lemma CommitStoresSession(d: Desk, r: Region)
    requires r.CommitSession?
    ensures After(d, r).db.meta.session == LaterOf(d.db.meta.session, StoredBy(d, r))
  {
    var newPhone := r.generation != 0 && d.pairing.newPhone;
    if SavePairedSession(d.db, r.session, newPhone, r.now).Done? {
      Frames.SavePairedFrame(d.db, r.session, newPhone, r.now, Key(UploadKind, ""));
    }
  }

  lemma RegionStoresSession(d: Desk, r: Region)
    ensures After(d, r).db.meta.session == LaterOf(d.db.meta.session, StoredBy(d, r))
  {
    if r.Begin? || r.BeginWhatsApp? { BeginKeepsSession(d, r); }
    else if r.CommitSession? { CommitStoresSession(d, r); }
  }

  ghost function LastStored(d: Desk, rs: seq<Region>): Option<Bytes>
    decreases |rs|
  {
    if rs == [] then None else LaterOf(StoredBy(d, rs[0]), LastStored(After(d, rs[0]), rs[1..]))
  }

  /** Over every interleaving the stored session is the one the last commit or refresh stored; nothing else touches it. */
  lemma {:induction false} SessionIsLastStored(d: Desk, rs: seq<Region>)
    ensures RunDesk(d, rs).db.meta.session == LaterOf(d.db.meta.session, LastStored(d, rs))
    decreases |rs|
  {
    if rs != [] {
      RegionStoresSession(d, rs[0]);
      SessionIsLastStored(After(d, rs[0]), rs[1..]);
    }
  }

  // ---- a refresh changes nothing but the stored session ----

  /** The same database with another session stored. */
  function Holding(db: DB, session: Option<Bytes>): DB
  {
    db.(meta := db.meta.(session := session))
  }

  function HoldingOutcome<T>(outcome: Outcome<T>, session: Option<Bytes>): Outcome<T>
  {
    if outcome.Done? then Done(Holding(outcome.db, session), outcome.value) else outcome
  }

  lemma {:induction false} WriteAllBlind(db: DB, records: seq<Outbox>, now: Time, s: Option<Bytes>)
    ensures WriteAll(Holding(db, s), records, now) == HoldingOutcome(WriteAll(db, records, now), s)
    decreases |records|
  {
    if records != [] {
      var written := WriteOutbox(db, records[0], now);
      assert WriteOutbox(Holding(db, s), records[0], now) == HoldingOutcome(written, s);
      if written.Done? { WriteAllBlind(written.db, records[1..], now, s); }
    }
  }

  lemma RewriteBlind(db: DB, rewrite: Rewrite, now: Time, s: Option<Bytes>)
    ensures RewriteOutbox(Holding(db, s), rewrite, now) == HoldingOutcome(RewriteOutbox(db, rewrite, now), s)
  {
    WriteAllBlind(db, Collect(db.sends.outbox, SortedKeys(db.sends.outbox.Keys), rewrite, now), now, s);
  }

  /** Storing a session does not depend on the one it replaces. */
  lemma SaveBlind(db: DB, session: Bytes, newPhone: bool, now: Time, s: Option<Bytes>)
    ensures SavePairedSession(Holding(db, s), session, newPhone, now) == SavePairedSession(db, session, newPhone, now)
  {
    assert PairedSession(Holding(db, s), session) == PairedSession(db, session);
  }

  lemma BeginBlind(db: DB, started: Time, expires: Time, now: Time, s: Option<Bytes>)
    ensures BeginPairingAttempt(Holding(db, s), started, expires, now) == HoldingOutcome(BeginPairingAttempt(db, started, expires, now), s)
  {
    RewriteBlind(db, CancelForPairing, now, s);
  }

  /** Everything but the stored session agrees. */
  ghost predicate AgreeButSession(a: Desk, b: Desk)
  {
    b == a.(db := Holding(a.db, b.db.meta.session))
  }

  lemma RegionBlind(a: Desk, b: Desk, r: Region)
    requires AgreeButSession(a, b) && !r.RefreshSession?
    ensures AgreeButSession(After(a, r), After(b, r))
  {
    var s := b.db.meta.session;
    if r.Begin? {
      BeginBlind(a.db, r.now, r.now + GOOGLE_LIFETIME, r.now, s);
      BeginKeepsSession(b, r);
    } else if r.BeginWhatsApp? {
      BeginBlind(a.db, r.now, r.now + WHATSAPP_LIFETIME, r.now, s);
      BeginKeepsSession(b, r);
    } else if r.CommitSession? {
      SaveBlind(a.db, r.session, r.generation != 0 && a.pairing.newPhone, r.now, s);
    }
  }

  function WithoutRefreshes(rs: seq<Region>): seq<Region>
  {
    if rs == [] then []
    else (if rs[0].RefreshSession? then [] else [rs[0]]) + WithoutRefreshes(rs[1..])
  }

  /**
   * Refreshes can come at any moment: whatever the interleaving, leaving them out
   * gives the same generations, outcomes, epoch, budget, marker and records, and
   * differs in nothing but the stored session.
   */
  lemma {:induction false} RefreshesChangeNothingElse(a: Desk, b: Desk, rs: seq<Region>)
    requires AgreeButSession(a, b)
    ensures AgreeButSession(RunDesk(a, rs), RunDesk(b, WithoutRefreshes(rs)))
    decreases |rs|
  {
    if rs != [] {
      if rs[0].RefreshSession? {
        RefreshesChangeNothingElse(After(a, rs[0]), b, rs[1..]);
        assert WithoutRefreshes(rs) == WithoutRefreshes(rs[1..]);
      } else {
        RegionBlind(a, b, rs[0]);
        RefreshesChangeNothingElse(After(a, rs[0]), After(b, rs[0]), rs[1..]);
        assert ([rs[0]] + WithoutRefreshes(rs[1..]))[1..] == WithoutRefreshes(rs[1..]);
      }
    }
  }

  // ---- the bridge's methods ----

  method KeepNeeded(cookies: Cookies) returns (clean: Option<Cookies>)
    ensures clean == if Oversized(cookies) then None else Some(Needed(cookies))
  {
    var kept: Cookies := map[];
    var rest := cookies.Keys;
    while rest != {}
      invariant rest <= cookies.Keys
      invariant kept == map name | name in cookies.Keys - rest && name in REQUIRED_COOKIES + OPTIONAL_COOKIES :: cookies[name]
      invariant forall name :: name in cookies.Keys - rest && name in REQUIRED_COOKIES + OPTIONAL_COOKIES ==> |cookies[name]| <= COOKIE_LIMIT
      decreases rest
    {
      var name :| name in rest;
      if name in REQUIRED_COOKIES + OPTIONAL_COOKIES {
        if |cookies[name]| > COOKIE_LIMIT { return None; }
        kept := kept[name := cookies[name]];
      }
      rest := rest - {name};
    }
    assert kept == Needed(cookies);
    return Some(kept);
  }

  class Bridge {
    const store: Engine.Store
    var pairing: PairingState
    var cookies: Option<Cookies>
    var running: Option<nat>
    var offline: bool

    constructor (file: Engine.Store)
      ensures store == file && Now() == Desk.Desk(file.db, UNPAIRED, None, None, false)
    {
      store, pairing, cookies, running, offline := file, UNPAIRED, None, None, false;
    }

    function Now(): Desk
      reads this, store
    {
      Desk.Desk(store.db, pairing, cookies, running, offline)
    }

    method Begin(reuseSignIn: bool, newPhone: bool, saved: Option<Cookies>, ticket: string, now: Time)
      returns (r: Reply<PairingState>)
      modifies this, store
      ensures Now() == After(old(Now()), Region.Begin(reuseSignIn, newPhone, saved, ticket, now))
      ensures r.Granted? ==> r.value == pairing && Active(pairing.state)
      ensures r.Refused? ==> Now() == old(Now())
    {
      if offline { return Refused(OfflineOnly); }
      if running.Some? && !Active(pairing.state) { return Refused(StillStopping); }
      if Active(pairing.state) && (!reuseSignIn || pairing.state != WaitingForLogin) { return Granted(pairing); }
      if reuseSignIn && saved.None? { return Refused(BadRequest); }
      var expires := now + GOOGLE_LIFETIME;
      var state := PairingState(pairing.generation + 1, newPhone, false, WaitingForLogin, "", SIGN_IN, ticket, "", "", "", expires);
      var begun := store.BeginPairingAttempt(now, expires, now);
      if begun.Err? { return Refused(StoreFailed(begun.error)); }
      if reuseSignIn {
        state := state.(state := Connecting, ticket := "", detail := RECONNECTING);
        cookies := saved;
      }
      pairing := state;
      return Granted(state);
    }

    method BeginWhatsApp(phone: string, automatic: bool, now: Time) returns (r: Reply<PairingState>)
      modifies this, store
      ensures Now() == After(old(Now()), Region.BeginWhatsApp(phone, automatic, now))
      ensures r.Granted? ==> r.value == pairing && Active(pairing.state)
      ensures r.Refused? ==> Now() == old(Now())
    {
      if offline { return Refused(OfflineOnly); }
      if Active(pairing.state) { return Granted(pairing); }
      if running.Some? { return Refused(StillStopping); }
      var expires := now + WHATSAPP_LIFETIME;
      var begun := store.BeginPairingAttempt(now, expires, now);
      if begun.Err? { return Refused(StoreFailed(begun.error)); }
      pairing := PairingState(pairing.generation + 1, true, automatic, Connecting, "", CONNECTING_WHATSAPP, "", "", "", "", expires);
      cookies := Some(map["phone" := phone]);
      return Granted(pairing);
    }

    method Submit(ticket: string, given: Cookies, now: Time) returns (r: Reply<bool>)
      modifies this
      ensures Now() == After(old(Now()), Region.Submit(ticket, given, now))
      ensures r.Granted? <==> TicketAccepted(old(pairing), ticket, now) && Complete(given) && !Oversized(given)
      ensures r.Refused? ==> r.refusal == if TicketAccepted(old(pairing), ticket, now) then BadCookies else BadTicket
    {
      if pairing.state != WaitingForLogin || now > pairing.expires || |ticket| != TICKET_LENGTH || ticket != pairing.ticket {
        return Refused(BadTicket);
      }
      if exists name :: name in REQUIRED_COOKIES && (name !in given || given[name] == "") { return Refused(BadCookies); }
      var clean := KeepNeeded(given);
      if clean.None? { return Refused(BadCookies); }
      cookies := clean;
      pairing := pairing.(state := Connecting, ticket := "", detail := CONTACTING);
      return Granted(true);
    }

    method Cancel() returns (changed: bool)
      modifies this
      ensures Now() == After(old(Now()), Region.Cancel) && (changed <==> Active(old(pairing).state))
      ensures !Active(pairing.state) && (changed ==> pairing.state.Canceled? && pairing.generation == old(pairing).generation && cookies.None?)
    {
      changed := Active(pairing.state);
      if changed {
        pairing := pairing.(state := PairState.Canceled, reason := "canceled", detail := PAIRING_CANCELED);
        pairing := pairing.(ticket := "", emoji := "", qr := "", code := "");
        cookies := None;
      }
    }

    method ClearMarker()
      modifies store
      ensures Now() == After(old(Now()), Region.ClearMarker)
    {
      store.ClearPairingAttempt();
    }

    method Expire(now: Time)
      modifies this, store
      ensures Now() == After(old(Now()), Region.Expire(now))
    {
      if Active(pairing.state) && now >= pairing.expires && running.None? {
        pairing := pairing.(state := PairState.Failed, reason := "ticket_expired", detail := EXPIRED);
        pairing := pairing.(ticket := "", emoji := "", qr := "", code := "");
        cookies := None;
        store.ClearPairingAttempt();
      }
    }

    method Conclude(generation: nat, state: PairState, reason: string, detail: string)
      modifies this, store
      ensures Now() == After(old(Now()), Region.Conclude(generation, state, reason, detail))
    {
      if pairing.generation != generation || !Active(pairing.state) { return; }
      pairing := pairing.(state := state, reason := reason);
      if state.Failed? && reason == "" { pairing := pairing.(reason := "pairing_failed"); }
      pairing := pairing.(detail := detail, ticket := "", emoji := "", qr := "", code := "");
      cookies := None;
      store.ClearPairingAttempt();
    }

    method ShowEmoji(generation: nat, emoji: string)
      modifies this
      ensures Now() == After(old(Now()), Region.ShowEmoji(generation, emoji))
    {
      if pairing.generation == generation && pairing.state == Connecting {
        pairing := pairing.(state := ConfirmOnPhone, emoji := emoji, detail := CHOOSE_EMOJI);
      }
    }

    method ShowCode(generation: nat, kind: string, code: string)
      modifies this
      ensures Now() == After(old(Now()), Region.ShowCode(generation, kind, code))
    {
      if pairing.generation != generation || !Active(pairing.state) { return; }
      pairing := pairing.(qr := "", code := "");
      if kind == "qr" { pairing := pairing.(state := ScanQr, qr := code, detail := SCAN); }
      if kind == "code" { pairing := pairing.(state := EnterPairingCode, code := code, detail := ENTER_CODE); }
    }

    /** The worker takes the credentials of the generation it looked up, if that is still the one connecting. */
    method Take(generation: nat, token: nat) returns (taken: Option<Cookies>)
      modifies this
      ensures Now() == After(old(Now()), Region.Take(generation, token))
      ensures taken == if old(pairing).generation == generation && old(pairing).state.Connecting? then old(cookies) else None
    {
      if pairing.generation != generation || pairing.state != Connecting { return None; }
      taken := cookies;
      cookies := None;
      running := Some(token);
    }

    method Release(token: nat)
      modifies this
      ensures Now() == After(old(Now()), Region.Release(token))
    {
      if running == Some(token) { running := None; }
    }

    method RefreshSession(pairingConnection: bool, session: Bytes)
      modifies store
      ensures Now() == After(old(Now()), Region.RefreshSession(pairingConnection, session))
    {
      if !pairingConnection { store.SaveSession(session); }
    }

    method CommitSession(generation: nat, canceled: bool, session: Bytes, now: Time) returns (r: Reply<bool>)
      modifies this, store
      ensures Now() == After(old(Now()), Region.CommitSession(generation, canceled, session, now))
      ensures r.Granted? ==> MayCommit(old(Now()), Region.CommitSession(generation, canceled, session, now))
      ensures r.Refused? ==> Now() == old(Now())
    {
      if canceled || (generation != 0 && (pairing.generation != generation || !Active(pairing.state))) { return Refused(Superseded); }
      var saved := store.SavePairedSession(session, generation != 0 && pairing.newPhone, now);
      if saved.Err? { return Refused(StoreFailed(saved.error)); }
      if generation != 0 {
        pairing := pairing.(state := Paired, reason := "", detail := PHONE_PAIRED);
        pairing := pairing.(ticket := "", emoji := "", qr := "", code := "");
        cookies := None;
      }
      return Granted(true);
    }
  }
}
