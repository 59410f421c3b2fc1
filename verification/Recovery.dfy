/**
 * Unattended re-pairing (internal/bridge/pairing_recovery.go, internal/store/pairing_recovery.go).
 * The budget is durable: an attempt is reserved before anything starts, so a crash
 * can lose an attempt but never win one back.
 */
module Recovery {
  import opened Records
  import opened Buckets
  import opened StoreSpec
  import opened Frames
  import Engine
  import P = Pairing

  const ATTEMPTS: nat := 3
  const COOLDOWN: nat := P.MINUTE
  const GAP: nat := P.WHATSAPP_LIFETIME + COOLDOWN

  const NO_RECOVERY := PairingRecovery(false, "", 0, false, 0)

  function Budget(db: DB): PairingRecovery
  {
    if db.meta.recovery.Some? then db.meta.recovery.value else NO_RECOVERY
  }

  function WithBudget(db: DB, r: PairingRecovery): DB
  {
    db.(meta := db.meta.(recovery := Some(r)))
  }

  // ---- the durable record: read, change, write back ----

  datatype Change = ConfigureBudget(enabled: bool, phone: string, resume: bool) | ReserveAttempt(now: Time) | PauseBudget

  predicate StartsBudget(r: PairingRecovery, c: Change)
  {
    c.ConfigureBudget? && c.enabled && (c.resume || !r.enabled || c.phone != r.phoneNumber)
  }

  predicate Reservable(r: PairingRecovery, now: Time)
  {
    r.enabled && !r.paused && r.attempts < ATTEMPTS && now >= r.nextAttempt
  }

  /** There is an attempt left, and it has to wait. */
  predicate TooEarly(r: PairingRecovery, now: Time)
  {
    r.enabled && !r.paused && r.attempts < ATTEMPTS && now < r.nextAttempt
  }

  function Changed(r: PairingRecovery, c: Change): PairingRecovery
  {
    match c
    case ConfigureBudget(enabled, phone, resume) =>
      (if StartsBudget(r, c) then NO_RECOVERY else r).(enabled := enabled, phoneNumber := if enabled then phone else "")
    case ReserveAttempt(now) =>
      if Reservable(r, now) then r.(attempts := r.attempts + 1, nextAttempt := now + GAP) else r
    case PauseBudget => if r.enabled then r.(paused := true) else r
  }

  function ChangeTo(db: DB, c: Change): DB
  {
    WithBudget(db, Changed(Budget(db), c))
  }

  /** One transaction: the callback's change to the stored record, and for a reservation the phone to pair or the time to wait. */
  method UpdatePairingRecovery(store: Engine.Store, c: Change) returns (phone: string, delay: nat)
    modifies store
    ensures store.db == ChangeTo(old(store.db), c)
    ensures var r := Budget(old(store.db));
      && phone == (if c.ReserveAttempt? && Reservable(r, c.now) then r.phoneNumber else "")
      && (delay > 0 <==> c.ReserveAttempt? && TooEarly(r, c.now))
      && (delay > 0 ==> c.now + delay == r.nextAttempt)
  {
    phone, delay := "", 0;
    var r := NO_RECOVERY;
    if store.db.meta.recovery.Some? { r := store.db.meta.recovery.value; }
    match c {
      case ConfigureBudget(enabled, number, resume) =>
        if enabled && (resume || !r.enabled || number != r.phoneNumber) { r := NO_RECOVERY; }
        r := r.(enabled := enabled, phoneNumber := number);
        if !enabled { r := r.(phoneNumber := ""); }
      case ReserveAttempt(now) =>
        if r.enabled && !r.paused && r.attempts < ATTEMPTS {
          if now < r.nextAttempt {
            delay := r.nextAttempt - now;
          } else {
            r := r.(attempts := r.attempts + 1, nextAttempt := now + GAP);
            phone := r.phoneNumber;
          }
        }
      case PauseBudget =>
        if r.enabled { r := r.(paused := true); }
    }
    store.db := store.db.(meta := store.db.meta.(recovery := Some(r)));
  }

  predicate AllDigits(s: string)
  {
    forall i :: 0 <= i < |s| ==> '0' <= s[i] <= '9'
  }

  /** An international number: a plus, a digit that is not zero, then six to fourteen more. */
  predicate PhoneNumber(s: string)
  {
    8 <= |s| <= 16 && s[0] == '+' && s[1] != '0' && AllDigits(s[1..])
  }

  // ---- the system ----

  /** One automatic attempt: the budget it was reserved from, and when. */
  datatype Reservation = Reservation(budget: nat, at: Time)

  /** Progress of recoverPairing while it holds the mutation lock. */
  datatype Stage = Free | Checked | Reserved(phone: string, reservation: Reservation)

  /** `budget` numbers the budgets handed out so far; `starts` records every automatic start. */
  datatype System = System(desk: P.Desk, stage: Stage, budget: nat, starts: seq<Reservation>)

  datatype Act =
    | Check(eligible: bool)
    | Reserve(now: Time)
    | Start(now: Time)
    | Configure(enabled: bool, phone: string, resume: bool)
    | Pause
    | WorkerPause
    | Protocol(region: P.Region)
    | Other(t: Txn)
    | Crash

  predicate Busy(d: P.Desk)
  {
    P.Active(d.pairing.state) || d.running.Some?
  }

  /** Requests that begin or cancel a pairing wait for the mutation lock. */
  predicate Permitted(sys: System, r: P.Region)
  {
    (r.Begin? || r.BeginWhatsApp? || r.Cancel? || r.ClearMarker? ==> sys.stage.Free?)
    && (r.BeginWhatsApp? ==> !r.automatic)
  }

  function WithDb(sys: System, db: DB): System
  {
    sys.(desk := sys.desk.(db := db))
  }

  function ReserveAfter(sys: System, now: Time): System
  {
    if !sys.stage.Checked? then sys
    else
      var r := Budget(sys.desk.db);
      var next := WithDb(sys, ChangeTo(sys.desk.db, ReserveAttempt(now)));
      if Reservable(r, now) && r.phoneNumber != ""
      then next.(stage := Reserved(r.phoneNumber, Reservation(sys.budget, now)))
      else next.(stage := Free)
  }

  ghost function StartAfter(sys: System, now: Time): System
  {
    if !sys.stage.Reserved? then sys
    else
      var desk := P.After(sys.desk, P.Region.BeginWhatsApp(sys.stage.phone, true, now));
      sys.(desk := desk, stage := Free,
           starts := if desk != sys.desk then sys.starts + [sys.stage.reservation] else sys.starts)
  }

  function ConfigureAfter(sys: System, a: Act): System
    requires a.Configure?
  {
    if !sys.stage.Free? || (a.enabled && (!PhoneNumber(a.phone) || Busy(sys.desk))) then sys
    else
      var c := ConfigureBudget(a.enabled, a.phone, a.resume);
      WithDb(sys, ChangeTo(sys.desk.db, c)).(budget := if StartsBudget(Budget(sys.desk.db), c) then sys.budget + 1 else sys.budget)
  }

  /** A stored session gives back the budget. */
  ghost function ProtocolAfter(sys: System, r: P.Region): System
  {
    if !Permitted(sys, r) then sys
    else
      var desk := P.After(sys.desk, r);
      sys.(desk := desk, budget := if r.CommitSession? && desk != sys.desk then sys.budget + 1 else sys.budget)
  }

  ghost function After(sys: System, a: Act): System
  {
    match a
    case Check(eligible) =>
      if sys.stage.Free? && eligible && !sys.desk.offline && !Busy(sys.desk) then sys.(stage := Checked) else sys
    case Reserve(now) => ReserveAfter(sys, now)
    case Start(now) => StartAfter(sys, now)
    case Configure(_, _, _) => ConfigureAfter(sys, a)
    case Pause => if sys.stage.Free? then WithDb(sys, ChangeTo(sys.desk.db, PauseBudget)) else sys
    case WorkerPause => if sys.desk.running.Some? then WithDb(sys, ChangeTo(sys.desk.db, PauseBudget)) else sys
    case Protocol(r) => ProtocolAfter(sys, r)
    case Other(t) => if t.SavePairedTxn? then sys else WithDb(sys, Step(sys.desk.db, t))
    case Crash => sys.(desk := P.Desk.Desk(sys.desk.db, P.UNPAIRED, None, None, false), stage := Free)
  }

  // ---- the books ----

  function CountIn(starts: seq<Reservation>, budget: nat): nat
  {
    if starts == [] then 0
    else CountIn(starts[..|starts| - 1], budget) + if starts[|starts| - 1].budget == budget then 1 else 0
  }

  /** Every start of the budget was reserved at least a pairing's lifetime and the cooldown before `at`. */
  ghost predicate LongBefore(starts: seq<Reservation>, budget: nat, at: Time)
  {
    forall i :: 0 <= i < |starts| && starts[i].budget == budget ==> starts[i].at + GAP <= at
  }

  ghost predicate Spaced(starts: seq<Reservation>)
  {
    forall i, j :: 0 <= i < j < |starts| && starts[i].budget == starts[j].budget ==> starts[i].at + GAP <= starts[j].at
  }

  ghost predicate Limited(starts: seq<Reservation>, budget: nat)
  {
    && (forall b :: CountIn(starts, b) <= ATTEMPTS)
    && (forall i :: 0 <= i < |starts| ==> starts[i].budget <= budget)
  }

  /** The stored record accounts for every start of the present budget. */
  ghost predicate Accounts(starts: seq<Reservation>, budget: nat, r: PairingRecovery, pending: Option<Reservation>)
  {
    && r.attempts <= ATTEMPTS && LongBefore(starts, budget, r.nextAttempt)
    && CountIn(starts, budget) + (if pending.Some? && pending.value.budget == budget then 1 else 0) <= r.attempts
    && (pending.Some? ==>
          && pending.value.budget <= budget && CountIn(starts, pending.value.budget) < ATTEMPTS
          && LongBefore(starts, pending.value.budget, pending.value.at)
          && (pending.value.budget == budget ==> pending.value.at + GAP <= r.nextAttempt))
  }

  ghost predicate Books(starts: seq<Reservation>, budget: nat, r: PairingRecovery, pending: Option<Reservation>)
  {
    Spaced(starts) && Limited(starts, budget) && Accounts(starts, budget, r, pending)
  }

  lemma {:induction false} NothingCharged(starts: seq<Reservation>, budget: nat)
    requires forall i :: 0 <= i < |starts| ==> starts[i].budget < budget
    ensures CountIn(starts, budget) == 0
  {
    if starts != [] { NothingCharged(starts[..|starts| - 1], budget); }
  }

  lemma BooksReserve(starts: seq<Reservation>, budget: nat, r: PairingRecovery, now: Time)
    requires Books(starts, budget, r, None) && Reservable(r, now)
    ensures Books(starts, budget, Changed(r, ReserveAttempt(now)), Some(Reservation(budget, now)))
    ensures Books(starts, budget, Changed(r, ReserveAttempt(now)), None)
  {
  }

  lemma BooksStart(starts: seq<Reservation>, budget: nat, r: PairingRecovery, pending: Reservation)
    requires Books(starts, budget, r, Some(pending))
    ensures Books(starts + [pending], budget, r, None)
  {
    var longer := starts + [pending];
    assert longer[..|longer| - 1] == starts;
    forall b ensures CountIn(longer, b) == CountIn(starts, b) + if pending.budget == b then 1 else 0 {}
  }

  /** A new budget starts with nothing on its account. */
  lemma BooksReset(starts: seq<Reservation>, budget: nat, r: PairingRecovery, next: PairingRecovery, pending: Option<Reservation>)
    requires Books(starts, budget, r, pending) && next.attempts == 0
    ensures Books(starts, budget + 1, next, pending)
  {
    NothingCharged(starts, budget + 1);
  }

  lemma BooksSame(starts: seq<Reservation>, budget: nat, r: PairingRecovery, next: PairingRecovery, pending: Option<Reservation>)
    requires Books(starts, budget, r, pending) && next.attempts == r.attempts && next.nextAttempt == r.nextAttempt
    ensures Books(starts, budget, next, pending)
    ensures Books(starts, budget, next, None)
  {
  }

  // ---- the budget record under the other steps ----

  lemma BudgetStays(db: DB, t: Txn)
    requires !t.SavePairedTxn?
    ensures Budget(Step(db, t)) == Budget(db)
  {
    if !SessionTxn(t) {
      MetaStays(db, t);
    } else if t.BeginPairingTxn? && BeginPairingAttempt(db, t.started, t.expires, t.now).Done? {
      RewriteFrame(db, CancelForPairing, t.now, Key(UploadKind, ""));
    }
  }

  lemma BeginBudget(d: P.Desk, r: P.Region)
    requires r.Begin? || r.BeginWhatsApp?
    ensures Budget(P.After(d, r).db) == Budget(d.db)
  {
    var expires := if r.Begin? then r.now + P.GOOGLE_LIFETIME else r.now + P.WHATSAPP_LIFETIME;
    if BeginPairingAttempt(d.db, r.now, expires, r.now).Done? {
      RewriteFrame(d.db, CancelForPairing, r.now, Key(UploadKind, ""));
    }
  }

  lemma CommitBudget(d: P.Desk, r: P.Region)
    requires r.CommitSession? && P.After(d, r) != d
    ensures Budget(P.After(d, r).db) == Budget(d.db).(attempts := 0, paused := false, nextAttempt := 0)
  {
    var newPhone := r.generation != 0 && d.pairing.newPhone;
    if SavePairedSession(d.db, r.session, newPhone, r.now).Done? {
      SavePairedFrame(d.db, r.session, newPhone, r.now, Key(UploadKind, ""));
    }
  }

  /** Of the protocol's steps only a commit touches the budget, and it gives it back whole. */
  lemma RegionBudget(d: P.Desk, r: P.Region)
    ensures !r.CommitSession? || P.After(d, r) == d ==> Budget(P.After(d, r).db) == Budget(d.db)
    ensures r.CommitSession? && P.After(d, r) != d ==>
              Budget(P.After(d, r).db) == Budget(d.db).(attempts := 0, paused := false, nextAttempt := 0)
  {
    if r.Begin? || r.BeginWhatsApp? { BeginBudget(d, r); }
    else if r.CommitSession? && P.After(d, r) != d { CommitBudget(d, r); }
  }

  // ---- every interleaving ----

  function Pending(stage: Stage): Option<Reservation>
  {
    if stage.Reserved? then Some(stage.reservation) else None
  }

  /** While an automatic attempt is being decided, nothing else is pairing, and what it was granted on still holds. */
  ghost predicate Undisturbed(sys: System)
  {
    && (!sys.stage.Free? ==> !Busy(sys.desk))
    && (sys.stage.Reserved? ==> Budget(sys.desk.db).enabled && !Budget(sys.desk.db).paused)
  }

  ghost predicate BooksSound(sys: System)
  {
    Undisturbed(sys) && Books(sys.starts, sys.budget, Budget(sys.desk.db), Pending(sys.stage))
  }

  lemma QuietRegion(d: P.Desk, r: P.Region)
    requires !Busy(d) && !r.Begin? && !r.BeginWhatsApp?
    ensures !Busy(P.After(d, r))
  {
    P.DecidedIsFinal(d, r);
  }

  lemma ProtocolSound(sys: System, r: P.Region)
    requires BooksSound(sys) && Permitted(sys, r)
    ensures BooksSound(ProtocolAfter(sys, r))
  {
    var earlier, later := Budget(sys.desk.db), Budget(P.After(sys.desk, r).db);
    RegionBudget(sys.desk, r);
    if !sys.stage.Free? { QuietRegion(sys.desk, r); }
    if r.CommitSession? && P.After(sys.desk, r) != sys.desk {
      BooksReset(sys.starts, sys.budget, earlier, later, Pending(sys.stage));
    }
  }

  lemma StartBooks(sys: System, next: System)
    requires BooksSound(sys) && sys.stage.Reserved? && next.stage.Free? && next.budget == sys.budget
    requires Budget(next.desk.db) == Budget(sys.desk.db)
    requires next.starts == sys.starts || next.starts == sys.starts + [sys.stage.reservation]
    ensures BooksSound(next)
  {
    BooksStart(sys.starts, sys.budget, Budget(sys.desk.db), sys.stage.reservation);
    BooksSame(sys.starts, sys.budget, Budget(sys.desk.db), Budget(sys.desk.db), Pending(sys.stage));
  }

  lemma StartSound(sys: System, now: Time)
    requires BooksSound(sys)
    ensures BooksSound(StartAfter(sys, now))
  {
    if sys.stage.Reserved? {
      RegionBudget(sys.desk, P.Region.BeginWhatsApp(sys.stage.phone, true, now));
      StartBooks(sys, StartAfter(sys, now));
    }
  }

  lemma ConfigureSound(sys: System, a: Act)
    requires BooksSound(sys) && a.Configure?
    ensures BooksSound(ConfigureAfter(sys, a))
  {
    var r := Budget(sys.desk.db);
    var c := ConfigureBudget(a.enabled, a.phone, a.resume);
    if sys.stage.Free? {
      if StartsBudget(r, c) { BooksReset(sys.starts, sys.budget, r, Changed(r, c), None); }
      else { BooksSame(sys.starts, sys.budget, r, Changed(r, c), None); }
    }
  }

  lemma StepSound(sys: System, a: Act)
    requires BooksSound(sys)
    ensures BooksSound(After(sys, a))
  {
    var r := Budget(sys.desk.db);
    match a
    case Reserve(now) =>
      if sys.stage.Checked? && Reservable(r, now) { BooksReserve(sys.starts, sys.budget, r, now); }
    case Start(now) => StartSound(sys, now);
    case Configure(_, _, _) => ConfigureSound(sys, a);
    case Pause => BooksSame(sys.starts, sys.budget, r, Changed(r, PauseBudget), Pending(sys.stage));
    case WorkerPause => BooksSame(sys.starts, sys.budget, r, Changed(r, PauseBudget), Pending(sys.stage));
    case Protocol(region) => if Permitted(sys, region) { ProtocolSound(sys, region); }
    case Other(t) => if !t.SavePairedTxn? { BudgetStays(sys.desk.db, t); }
    case Check(_) =>
    case Crash => BooksSame(sys.starts, sys.budget, r, r, Pending(sys.stage));
  }

  ghost function RunActs(sys: System, acts: seq<Act>): System
    decreases |acts|
  {
    if acts == [] then sys else RunActs(After(sys, acts[0]), acts[1..])
  }

  lemma {:induction false} RunSound(sys: System, acts: seq<Act>)
    requires BooksSound(sys)
    ensures BooksSound(RunActs(sys, acts))
    decreases |acts|
  {
    if acts != [] {
      StepSound(sys, acts[0]);
      RunSound(After(sys, acts[0]), acts[1..]);
    }
  }

  const START := System(P.Desk.Desk(EMPTY, P.UNPAIRED, None, None, false), Free, 0, [])

  /** In every run with crashes: at most three automatic starts to a budget, each pair a lifetime and a cooldown apart. */
  lemma BudgetHolds(acts: seq<Act>, budget: nat)
    ensures var starts := RunActs(START, acts).starts; CountIn(starts, budget) <= ATTEMPTS && Spaced(starts)
  {
    RunSound(START, acts);
  }

  /** An automatic start happens only while recovery is enabled and not paused and nothing else is pairing. */
  lemma StartsOnlyWhenAllowed(acts: seq<Act>, now: Time)
    requires var sys := RunActs(START, acts); After(sys, Start(now)).starts != sys.starts
    ensures var sys := RunActs(START, acts);
      Budget(sys.desk.db).enabled && !Budget(sys.desk.db).paused && !Busy(sys.desk) && !sys.desk.offline
  {
    RunSound(START, acts);
  }

  // ---- what comes before a start ----

  /** The system before act i of a run. */
  ghost function At(acts: seq<Act>, i: nat): System
    requires i <= |acts|
  {
    RunActs(START, acts[..i])
  }

  lemma {:induction false} RunLast(sys: System, acts: seq<Act>)
    requires acts != []
    ensures RunActs(sys, acts) == After(RunActs(sys, acts[..|acts| - 1]), acts[|acts| - 1])
    decreases |acts|
  {
    var n := |acts| - 1;
    if n > 0 {
      RunLast(After(sys, acts[0]), acts[1..]);
      assert acts[1..][..n - 1] == acts[..n][1..];
    }
  }

  lemma AtNext(acts: seq<Act>, i: nat)
    requires i < |acts|
    ensures At(acts, i + 1) == After(At(acts, i), acts[i])
  {
    RunLast(START, acts[..i + 1]);
    assert acts[..i + 1][..i] == acts[..i];
  }

  ghost predicate StartsAt(acts: seq<Act>, i: nat)
    requires i < |acts|
  {
    At(acts, i + 1).starts != At(acts, i).starts
  }

  /** At act j the status called for a new pairing, and nothing else was pairing. */
  ghost predicate ChecksAt(acts: seq<Act>, j: nat)
    requires j < |acts|
  {
    && acts[j].Check? && acts[j].eligible
    && At(acts, j).stage.Free? && !At(acts, j).desk.offline && !Busy(At(acts, j).desk)
  }

  /** Act k takes one attempt off the stored budget. */
  ghost predicate ReservesAt(acts: seq<Act>, k: nat)
    requires k < |acts|
  {
    var r := Budget(At(acts, k).desk.db);
    && acts[k].Reserve? && Reservable(r, acts[k].now)
    && Budget(At(acts, k + 1).desk.db) == r.(attempts := r.attempts + 1, nextAttempt := acts[k].now + GAP)
  }

  ghost predicate NoCrash(acts: seq<Act>, from: nat, to: nat)
  {
    forall i :: from <= i < to && i < |acts| ==> !acts[i].Crash?
  }

  /** The stage moves only by a check, a reservation, a start or a crash. */
  lemma StageMoves(sys: System, a: Act)
    ensures After(sys, a).stage.Checked? && !sys.stage.Checked? ==>
              a.Check? && a.eligible && sys.stage.Free? && !sys.desk.offline && !Busy(sys.desk)
    ensures After(sys, a).stage.Reserved? && !sys.stage.Reserved? ==>
              a.Reserve? && sys.stage.Checked? && Reservable(Budget(sys.desk.db), a.now)
              && Budget(After(sys, a).desk.db) == Changed(Budget(sys.desk.db), ReserveAttempt(a.now))
              && After(sys, a).stage.reservation == Reservation(sys.budget, a.now)
    ensures After(sys, a).stage.Reserved? && sys.stage.Reserved? ==> After(sys, a).stage == sys.stage
    ensures !After(sys, a).stage.Free? ==> !a.Crash?
    ensures After(sys, a).starts != sys.starts ==>
              a.Start? && sys.stage.Reserved? && After(sys, a).starts == sys.starts + [sys.stage.reservation]
  {
  }

  lemma {:induction false} CheckedSince(acts: seq<Act>, i: nat) returns (j: nat)
    requires i <= |acts| && At(acts, i).stage.Checked?
    ensures j < i && ChecksAt(acts, j) && NoCrash(acts, j, i)
    decreases i
  {
    assert acts[..0] == [];
    AtNext(acts, i - 1);
    StageMoves(At(acts, i - 1), acts[i - 1]);
    if At(acts, i - 1).stage.Checked? { j := CheckedSince(acts, i - 1); } else { j := i - 1; }
  }

  lemma {:induction false} ReservedSince(acts: seq<Act>, i: nat) returns (j: nat, k: nat)
    requires i <= |acts| && At(acts, i).stage.Reserved?
    ensures j < k < i && ChecksAt(acts, j) && ReservesAt(acts, k) && NoCrash(acts, j, i)
    ensures At(acts, i).stage.reservation == Reservation(At(acts, k).budget, acts[k].now)
    decreases i
  {
    assert acts[..0] == [];
    AtNext(acts, i - 1);
    StageMoves(At(acts, i - 1), acts[i - 1]);
    if At(acts, i - 1).stage.Reserved? {
      j, k := ReservedSince(acts, i - 1);
    } else {
      k := i - 1;
      j := CheckedSince(acts, k);
    }
  }

  /**
   * In every run with crashes an automatic start follows a check that found the
   * status calling for it and a reservation taken off the stored budget, in this
   * order and with no crash since the check; the start is entered under that reservation.
   */
  lemma CheckedBeforeStart(acts: seq<Act>, i: nat)
    requires i < |acts| && StartsAt(acts, i)
    ensures acts[i].Start? && exists j: nat, k: nat ::
      && j < k < i && ChecksAt(acts, j) && ReservesAt(acts, k) && NoCrash(acts, j, i + 1)
      && At(acts, i + 1).starts == At(acts, i).starts + [Reservation(At(acts, k).budget, acts[k].now)]
  {
    AtNext(acts, i);
    StageMoves(At(acts, i), acts[i]);
    var j, k := ReservedSince(acts, i);
    assert ChecksAt(acts, j) && ReservesAt(acts, k) && NoCrash(acts, j, i + 1);
  }

  // ---- the bridge's methods ----

  /** recoverPairing: check, reserve durably, then start; the three regions back to back. */
  method RecoverPairing(b: P.Bridge, eligible: bool, now: Time, ghost budget: nat, ghost starts: seq<Reservation>)
    returns (started: bool, delay: nat, ghost after: System)
    modifies b, b.store
    ensures after == After(After(After(System(old(b.Now()), Free, budget, starts), Check(eligible)), Reserve(now)), Start(now))
    ensures b.Now() == after.desk
    ensures started ==> Reservable(Budget(old(b.store.db)), now) && P.Active(b.pairing.state)
    ensures !started ==> after.starts == starts
    ensures var r := Budget(old(b.store.db));
      && (delay > 0 <==> (eligible && !old(b.offline) && !Busy(old(b.Now())) && TooEarly(r, now)))
      && (delay > 0 ==> now + delay == r.nextAttempt)
  {
    ghost var before := System(b.Now(), Free, budget, starts);
    ghost var checked := After(before, Check(eligible));
    ghost var reserved := After(checked, Reserve(now));
    after := After(reserved, Start(now));
    started, delay := false, 0;
    if b.offline || !eligible || P.Active(b.pairing.state) || b.running.Some? { return; }
    var phone;
    phone, delay := UpdatePairingRecovery(b.store, ReserveAttempt(now));
    if phone == "" { return; }
    delay := 0;
    assert b.Now() == reserved.desk && reserved.stage.Reserved?;
    var begun := b.BeginWhatsApp(phone, true, now);
    started := begun.Granted?;
  }
}
