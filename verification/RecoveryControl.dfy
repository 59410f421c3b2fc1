/** Switching unattended re-pairing on and off: what stops it for good, and what lets it start. */
module RecoveryControl {
  import opened Records
  import opened StoreSpec
  import opened Recovery
  import P = Pairing
  import Attempts

  /** Recovery is switched off, paused, or has used up its attempts. */
  predicate Barred(r: PairingRecovery)
  {
    !r.enabled || r.paused || r.attempts >= ATTEMPTS
  }

  /** The act hands out a new budget: recovery is switched on or resumed, or a session was stored. */
  ghost predicate Grants(sys: System, a: Act)
  {
    match a
    case Configure(enabled, phone, resume) =>
      enabled && After(sys, a).budget != sys.budget
    case Protocol(r) => r.CommitSession? && After(sys, a).budget != sys.budget
    case _ => false
  }

  lemma BarredStays(sys: System, a: Act)
    requires BooksSound(sys) && Barred(Budget(sys.desk.db)) && !sys.stage.Reserved? && !Grants(sys, a)
    ensures Barred(Budget(After(sys, a).desk.db)) && !After(sys, a).stage.Reserved? && After(sys, a).starts == sys.starts
  {
    match a
    case Protocol(r) => if Permitted(sys, r) { RegionBudget(sys.desk, r); }
    case Other(t) => if !t.SavePairedTxn? { BudgetStays(sys.desk.db, t); }
    case _ =>
  }

  ghost predicate NothingGranted(sys: System, acts: seq<Act>)
    decreases |acts|
  {
    acts == [] || (!Grants(sys, acts[0]) && NothingGranted(After(sys, acts[0]), acts[1..]))
  }

  /** Once recovery is off, paused or spent, it starts nothing, over every run with crashes, until somebody grants it a new budget. */
  lemma {:induction false} BarredUntilGranted(sys: System, acts: seq<Act>)
    requires BooksSound(sys) && Barred(Budget(sys.desk.db)) && !sys.stage.Reserved? && NothingGranted(sys, acts)
    ensures RunActs(sys, acts).starts == sys.starts
    decreases |acts|
  {
    if acts != [] {
      BarredStays(sys, acts[0]);
      StepSound(sys, acts[0]);
      BarredUntilGranted(After(sys, acts[0]), acts[1..]);
    }
  }

  /** Pausing and switching off both bar it, whatever run they come in. */
  lemma PauseBars(acts: seq<Act>, a: Act, later: seq<Act>)
    requires var sys := RunActs(START, acts);
      && sys.stage.Free? && (a.Pause? || (a.Configure? && !a.enabled))
      && NothingGranted(After(sys, a), later)
    ensures var stopped := After(RunActs(START, acts), a); RunActs(stopped, later).starts == stopped.starts
  {
    var sys := RunActs(START, acts);
    RunSound(START, acts);
    StepSound(sys, a);
    BarredUntilGranted(After(sys, a), later);
  }

  /** Switched on for a number nobody was recovering, or resumed, it may start at once, three times over, for that number. */
  lemma ConfigureGrants(sys: System, phone: string, resume: bool)
    requires sys.stage.Free? && !Busy(sys.desk) && PhoneNumber(phone)
    requires var r := Budget(sys.desk.db); resume || !r.enabled || r.phoneNumber != phone
    ensures Budget(After(sys, Configure(true, phone, resume)).desk.db) == PairingRecovery(true, phone, 0, false, 0)
  {
  }

  lemma RunThree(sys: System, a: Act, b: Act, c: Act)
    ensures RunActs(sys, [a, b, c]) == After(After(After(sys, a), b), c)
  {
    var acts := [a, b, c];
    assert acts[1..] == [b, c] && acts[1..][1..] == [c] && acts[1..][1..][1..] == [];
    assert RunActs(After(sys, a), [b, c]) == RunActs(After(After(sys, a), b), [c]);
  }

  lemma ReservationStarts(sys: System, now: Time)
    requires sys.stage.Reserved? && !sys.desk.offline && !Busy(sys.desk)
    requires BeginPairingAttempt(sys.desk.db, now, now + P.WHATSAPP_LIFETIME, now).Done?
    ensures var after := After(sys, Start(now));
      && after.starts == sys.starts + [sys.stage.reservation] && after.stage.Free?
      && after.desk.pairing.state.Connecting? && after.desk.pairing.automatic && after.desk.pairing.newPhone
      && after.desk.pairing.generation == sys.desk.pairing.generation + 1
      && after.desk.cookies == Some(map["phone" := sys.stage.phone])
      && Budget(after.desk.db) == Budget(sys.desk.db)
  {
    var begin := P.Region.BeginWhatsApp(sys.stage.phone, true, now);
    Attempts.BeginOpensIff(sys.desk, begin);
    RegionBudget(sys.desk, begin);
  }

  /**
   * Recovery does start: when the status calls for it, nothing else is pairing, the
   * budget allows it and the store can note it, the next attempt is taken off the
   * budget and begun, for the number the budget is for.
   */
  lemma RecoveryStarts(sys: System, now: Time)
    requires sys.stage.Free? && !sys.desk.offline && !Busy(sys.desk)
    requires var r := Budget(sys.desk.db); Reservable(r, now) && r.phoneNumber != ""
    requires var noted := ChangeTo(sys.desk.db, ReserveAttempt(now));
      BeginPairingAttempt(noted, now, now + P.WHATSAPP_LIFETIME, now).Done?
    ensures var r, after := Budget(sys.desk.db), RunActs(sys, [Check(true), Reserve(now), Start(now)]);
      && after.starts == sys.starts + [Reservation(sys.budget, now)] && after.stage.Free?
      && after.desk.pairing.state.Connecting? && after.desk.pairing.automatic && after.desk.pairing.newPhone
      && after.desk.pairing.generation == sys.desk.pairing.generation + 1
      && after.desk.cookies == Some(map["phone" := r.phoneNumber])
      && Budget(after.desk.db) == r.(attempts := r.attempts + 1, nextAttempt := now + GAP)
  {
    RunThree(sys, Check(true), Reserve(now), Start(now));
    ReservationStarts(After(After(sys, Check(true)), Reserve(now)), now);
  }
}
