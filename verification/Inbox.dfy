/**
 * The WhatsApp inbox (internal/whatsapp/events.go, internal/whatsapp/inbox.go): events
 * are stored before they are understood, worked off in order of arrival, and set
 * aside when they never will be.
 */
module Inbox {
  import opened Records
  import opened Buckets
  import opened StoreSpec
  import opened Frames
  import opened Committed
  import opened Engine

  const WIDTH: nat := 20

  // ---- keys: twenty decimal digits ----

  function Power(k: nat): nat
  {
    if k == 0 then 1 else 10 * Power(k - 1)
  }

  const DIGITS := "0123456789"

  function Digits(n: nat, width: nat): (s: string)
    ensures |s| == width
    decreases n + width
  {
    if width == 0 then "" else Digits(n / 10, width - 1) + [DIGITS[n % 10]]
  }

  /** fmt's %020d, for anything that fits in twenty digits. */
  function Padded(n: nat): string
  {
    Digits(n, WIDTH)
  }

  lemma {:induction false} LessAppend(a: string, b: string, c: char, d: char)
    requires |a| == |b|
    ensures Less(a + [c], b + [d]) <==> Less(a, b) || (a == b && c < d)
  {
    if a == "" {
      assert a + [c] == [c] && b + [d] == [d];
      assert [c][1..] == "" && [d][1..] == "";
    } else {
      assert (a + [c])[1..] == a[1..] + [c] && (b + [d])[1..] == b[1..] + [d];
      assert (a + [c])[0] == a[0] && (b + [d])[0] == b[0];
      LessAppend(a[1..], b[1..], c, d);
      if a[0] == b[0] && a[1..] == b[1..] { assert a == [a[0]] + a[1..] && b == [b[0]] + b[1..]; }
    }
  }

  /** Fixed-width decimals sort as strings exactly as they sort as numbers. */
  lemma {:induction false} DigitsOrder(m: nat, n: nat, width: nat)
    requires m < Power(width) && n < Power(width)
    ensures Less(Digits(m, width), Digits(n, width)) <==> m < n
    ensures Digits(m, width) == Digits(n, width) <==> m == n
  {
    if width > 0 {
      var a, b := Digits(m / 10, width - 1), Digits(n / 10, width - 1);
      DigitsOrder(m / 10, n / 10, width - 1);
      LessAppend(a, b, DIGITS[m % 10], DIGITS[n % 10]);
      assert Digits(m, width)[..width - 1] == a && Digits(n, width)[..width - 1] == b;
      assert Digits(m, width)[width - 1] == DIGITS[m % 10] && Digits(n, width)[width - 1] == DIGITS[n % 10];
      DigitAt(m % 10);
      DigitAt(n % 10);
    }
  }

  lemma DigitAt(d: nat)
    requires d < 10
    ensures DIGITS[d] as int == '0' as int + d
  {
  }

  lemma EnoughDigits()
    ensures MAX_UINT64 < Power(WIDTH)
  {
    assert Power(5) == 100_000;
    assert Power(10) == 100_000 * Power(5);
    assert Power(15) == 100_000 * Power(10);
    assert Power(20) == 100_000 * Power(15);
  }

  /** Sorting inbox keys as strings is sorting by ingestion number, for every 64-bit number. */
  lemma PaddedOrder(m: nat, n: nat)
    requires m <= MAX_UINT64 && n <= MAX_UINT64
    ensures Less(Padded(m), Padded(n)) <==> m < n
    ensures Padded(m) == Padded(n) <==> m == n
  {
    EnoughDigits();
    DigitsOrder(m, n, WIDTH);
  }

  /** Every id handed out so far. */
  function Issued(sequence: nat): set<string>
  {
    set n | 1 <= n <= sequence :: Padded(n)
  }

  lemma IssuedFresh(sequence: nat)
    requires sequence < MAX_UINT64
    ensures Padded(sequence + 1) !in Issued(sequence)
  {
    if Padded(sequence + 1) in Issued(sequence) {
      var n :| 1 <= n <= sequence && Padded(n) == Padded(sequence + 1);
      PaddedOrder(n, sequence + 1);
      assert false;
    }
  }

  lemma IssuedGrows(sequence: nat, id: string)
    ensures id in Issued(sequence + 1) <==> id in Issued(sequence) || id == Padded(sequence + 1)
  {
    var next := Padded(sequence + 1);
    assert next in Issued(sequence + 1);
    if id in Issued(sequence) {
      var n :| 1 <= n <= sequence && Padded(n) == id;
      assert Padded(n) in Issued(sequence + 1);
    }
    if id in Issued(sequence + 1) && id != next {
      var n :| 1 <= n <= sequence + 1 && Padded(n) == id;
      assert Padded(n) in Issued(sequence);
    }
  }

  lemma IssuedNext(sequence: nat)
    requires sequence < MAX_UINT64
    ensures Padded(sequence + 1) !in Issued(sequence)
    ensures Issued(sequence + 1) == Issued(sequence) + {Padded(sequence + 1)}
  {
    IssuedFresh(sequence);
    var longer, grown := Issued(sequence + 1), Issued(sequence) + {Padded(sequence + 1)};
    forall id ensures id in longer <==> id in grown { IssuedGrows(sequence, id); }
  }

  lemma {:induction false} IssuedCount(sequence: nat)
    requires sequence <= MAX_UINT64
    ensures |Issued(sequence)| == sequence
  {
    if sequence == 0 {
      assert Issued(0) == {};
    } else {
      IssuedCount(sequence - 1);
      IssuedNext(sequence - 1);
    }
  }

  // ---- the tables ----

  datatype Raw = Raw(kind: string, payload: Bytes)

  /** What becomes of an event once decoded: not yet understood, a storage failure, never understood, or its snapshots. */
  datatype Reading = NotYet | StorageFailure | Poisoned | Yields(snapshots: seq<Snapshot>)

  datatype Drained = Finished | Interrupted | Failed | Crashed

  /**
   * One event's turn: what arrives meanwhile, whether the service is stopping, how the
   * event reads, what others do to the store before each of its writes, and, if the
   * process dies, before which of them.
   */
  datatype Turn = Turn(arrivals: seq<Raw>, stopping: bool, reading: Reading, others: seq<seq<Txn>>, crash: Option<nat>, now: Time)

  /** What arrives from the i-th turn on. */
  function Arrivals(turns: seq<Turn>, i: nat): nat
    requires i <= |turns|
    decreases |turns| - i
  {
    if i == |turns| then 0 else |turns[i].arrivals| + Arrivals(turns, i + 1)
  }

  /** Three tables share out a set of ids. */
  ghost predicate Partition(a: set<string>, b: set<string>, c: set<string>, all: set<string>)
  {
    a + b + c == all && a !! b && a !! c && b !! c
  }

  lemma MoveToSecond(a: set<string>, b: set<string>, c: set<string>, all: set<string>, id: string)
    requires Partition(a, b, c, all) && id in a
    ensures Partition(a - {id}, b + {id}, c, all) && id !in b && id !in c
  {
  }

  lemma MoveToThird(a: set<string>, b: set<string>, c: set<string>, all: set<string>, id: string)
    requires Partition(a, b, c, all) && id in a
    ensures Partition(a - {id}, b, c + {id}, all) && id !in b && id !in c
  {
  }

  lemma AddToFirst(a: set<string>, b: set<string>, c: set<string>, all: set<string>, id: string)
    requires Partition(a, b, c, all) && id !in all
    ensures Partition(a + {id}, b, c, all + {id}) && id !in a && id !in b && id !in c
  {
  }

  lemma PartitionSize(a: set<string>, b: set<string>, c: set<string>, all: set<string>)
    requires Partition(a, b, c, all)
    ensures |a| + |b| + |c| == |all|
  {
    assert |a + b| == |a| + |b|;
    assert |(a + b) + c| == |a + b| + |c|;
  }

  lemma PutKeys<V>(m: map<string, V>, id: string, v: V)
    requires id !in m
    ensures m[id := v].Keys == m.Keys + {id} && |m[id := v]| == |m| + 1
  {
    assert m[id := v].Keys == m.Keys + {id};
    assert |m[id := v]| == |m[id := v].Keys|;
  }

  lemma DropKeys<V>(m: map<string, V>, id: string)
    requires id in m
    ensures (m - {id}).Keys == m.Keys - {id}
  {
  }

  /** The durable rows: events waiting, events set aside, the last number taken and the stored count. */
  datatype Tables = Tables(inbox: map<string, Raw>, quarantine: map<string, Raw>, sequence: nat, quarantined: nat)

  /** How an event left: what it was read as, and how far the store's history was then. */
  datatype Departure = Departure(snapshots: seq<Snapshot>, now: Time, at: nat)

  /** What happened: every event taken in, how each event that left did, and all the store has seen since the start. */
  datatype Book = Book(issued: map<string, Raw>, left: map<string, Departure>, start: DB, history: seq<Txn>)

  function PersistTxn(snapshot: Snapshot, now: Time): Txn
  {
    ApplyTxn(snapshot.event, snapshot.private, None, now)
  }

  /** Handing an event's snapshots to the store. */
  function PersistTxns(snapshots: seq<Snapshot>, now: Time): seq<Txn>
  {
    if snapshots == [] then []
    else PersistTxns(snapshots[..|snapshots| - 1], now) + [PersistTxn(snapshots[|snapshots| - 1], now)]
  }

  lemma PersistTxnsGrow(snapshots: seq<Snapshot>, i: nat, now: Time)
    requires i < |snapshots|
    ensures PersistTxns(snapshots[..i + 1], now) == PersistTxns(snapshots[..i], now) + [PersistTxn(snapshots[i], now)]
  {
    assert snapshots[..i + 1][..i] == snapshots[..i];
  }

  /** Every event ever ingested is in exactly one place, and the stored count is the size of the quarantine. */
  ghost predicate Sound(t: Tables, b: Book)
  {
    && Partition(t.inbox.Keys, t.quarantine.Keys, b.left.Keys, b.issued.Keys)
    && t.quarantined == |t.quarantine|
    && t.sequence <= MAX_UINT64 && b.issued.Keys == Issued(t.sequence)
  }

  /** What waits or was set aside is as it came. */
  ghost predicate Intact(t: Tables, b: Book)
  {
    && (forall id :: id in t.inbox && id in b.issued ==> t.inbox[id] == b.issued[id])
    && (forall id :: id in t.quarantine && id in b.issued ==> t.quarantine[id] == b.issued[id])
  }

  /** The tables account for every event. */
  ghost predicate Accounted(t: Tables, b: Book)
  {
    Sound(t, b) && Intact(t, b)
  }

  /** Before the event left, each of its snapshots went through in the store, in order. */
  ghost predicate Persisted(start: DB, history: seq<Txn>, d: Departure)
  {
    d.at <= |history| && InOrder(start, history[..d.at], PersistTxns(d.snapshots, d.now))
  }

  ghost predicate PersistedFirst(left: map<string, Departure>, start: DB, history: seq<Txn>)
  {
    forall id {:trigger Persisted(start, history, left[id])} :: id in left ==> Persisted(start, history, left[id])
  }

  /** The book knows all the store has seen, and what left did so after it was persisted. */
  ghost predicate Witnessed(b: Book, db: DB)
  {
    PersistedFirst(b.left, b.start, b.history) && db == Run(b.start, b.history)
  }

  lemma HistoryGrows(left: map<string, Departure>, start: DB, history: seq<Txn>, ts: seq<Txn>)
    requires PersistedFirst(left, start, history)
    ensures PersistedFirst(left, start, history + ts)
  {
    forall id | id in left ensures Persisted(start, history + ts, left[id]) {
      assert Persisted(start, history, left[id]);
      assert (history + ts)[..left[id].at] == history[..left[id].at];
    }
  }

  /** Where an event is. */
  datatype Place = Waiting(raw: Raw) | Aside(raw: Raw) | Gone(departure: Departure) | Nowhere

  function PlaceOf(t: Tables, left: map<string, Departure>, id: string): Place
  {
    if id in t.inbox then Waiting(t.inbox[id])
    else if id in t.quarantine then Aside(t.quarantine[id])
    else if id in left then Gone(left[id])
    else Nowhere
  }

  /** Where an event is once it has had its turn. */
  predicate Settled(t: Tables, left: map<string, Departure>, id: string, raw: Raw, reading: Reading)
  {
    var place := PlaceOf(t, left, id);
    match reading
    case NotYet => place == Waiting(raw)
    case StorageFailure => false
    case Poisoned => place == Aside(raw)
    case Yields(snapshots) => place.Gone? && place.departure.snapshots == snapshots
  }

  /** Every event but the one named is where it was. */
  ghost predicate Undisturbed(before: Tables, leftBefore: map<string, Departure>, after: Tables, left: map<string, Departure>, ids: set<string>, but: string)
  {
    forall x :: x in ids && x != but ==> PlaceOf(after, left, x) == PlaceOf(before, leftBefore, x)
  }

  /** A 64-bit counter wraps around. */
  function Successor(n: nat): nat
  {
    if n == MAX_UINT64 then 0 else n + 1
  }

  function Taken(t: Tables, raw: Raw): Tables
  {
    var n := Successor(t.sequence);
    t.(sequence := n, inbox := t.inbox[Padded(n) := raw])
  }

  function SetAside(t: Tables, id: string, raw: Raw): Tables
  {
    t.(quarantine := t.quarantine[id := raw], quarantined := t.quarantined + 1, inbox := t.inbox - {id})
  }

  lemma StoredUnder(t: Tables, b: Book, raw: Raw, id: string, next: Tables)
    requires Sound(t, b) && t.sequence < MAX_UINT64 && id !in b.issued
    requires Issued(t.sequence + 1) == b.issued.Keys + {id}
    requires next == t.(sequence := t.sequence + 1, inbox := t.inbox[id := raw])
    ensures Sound(next, b.(issued := b.issued[id := raw]))
  {
    AddToFirst(t.inbox.Keys, t.quarantine.Keys, b.left.Keys, b.issued.Keys, id);
    PutKeys(t.inbox, id, raw);
    PutKeys(b.issued, id, raw);
  }

  lemma NotIssued(t: Tables, b: Book, id: string)
    requires Sound(t, b) && id !in b.issued
    ensures id !in t.inbox && id !in t.quarantine && id !in b.left
  {
    assert id !in b.issued.Keys && id !in t.inbox.Keys && id !in t.quarantine.Keys && id !in b.left.Keys;
  }

  /** The tables and the book after one more event. */
  ghost predicate TookIn(t: Tables, b: Book, raw: Raw, id: string, next: Tables)
  {
    var book := b.(issued := b.issued[id := raw]);
    && id !in b.issued
    && Sound(next, book) && (Intact(t, b) ==> Intact(next, book))
    && Undisturbed(t, b.left, next, b.left, b.issued.Keys, id)
  }

  lemma IntactUnder(t: Tables, b: Book, raw: Raw, id: string, next: Tables)
    requires Intact(t, b) && id !in b.issued && id !in t.inbox && id !in t.quarantine
    requires next == t.(sequence := t.sequence + 1, inbox := t.inbox[id := raw])
    ensures Intact(next, b.(issued := b.issued[id := raw]))
  {
  }

  lemma UndisturbedUnder(t: Tables, left: map<string, Departure>, raw: Raw, id: string, next: Tables, ids: set<string>)
    requires next == t.(sequence := t.sequence + 1, inbox := t.inbox[id := raw])
    ensures Undisturbed(t, left, next, left, ids, id)
  {
  }

  lemma StoredTakesIn(t: Tables, b: Book, raw: Raw, id: string, next: Tables)
    requires Sound(t, b) && t.sequence < MAX_UINT64 && id !in b.issued
    requires Issued(t.sequence + 1) == b.issued.Keys + {id}
    requires next == t.(sequence := t.sequence + 1, inbox := t.inbox[id := raw])
    ensures TookIn(t, b, raw, id, next)
  {
    StoredUnder(t, b, raw, id, next);
    NotIssued(t, b, id);
    if Intact(t, b) { IntactUnder(t, b, raw, id, next); }
    UndisturbedUnder(t, b.left, raw, id, next, b.issued.Keys);
  }

  /** A fresh number is never one handed out before. */
  lemma TakenSound(t: Tables, b: Book, raw: Raw)
    requires Sound(t, b) && t.sequence < MAX_UINT64
    ensures TookIn(t, b, raw, Padded(Taken(t, raw).sequence), Taken(t, raw))
  {
    IssuedNext(t.sequence);
    StoredTakesIn(t, b, raw, Padded(t.sequence + 1), Taken(t, raw));
  }

  lemma InOneTable(t: Tables, b: Book, id: string)
    requires Sound(t, b) && id in t.inbox
    ensures id in b.issued && id !in t.quarantine && id !in b.left
  {
    assert id in t.inbox.Keys && id !in t.quarantine.Keys && id !in b.left.Keys && id in b.issued.Keys;
  }

  lemma LeftPersisted(left: map<string, Departure>, start: DB, history: seq<Txn>, id: string, d: Departure)
    requires PersistedFirst(left, start, history) && Persisted(start, history, d)
    ensures PersistedFirst(left[id := d], start, history)
  {
    var grown := left[id := d];
    forall x | x in grown ensures Persisted(start, history, grown[x]) {
      if x != id { assert Persisted(start, history, left[x]); }
    }
  }

  lemma DeparturePersisted(start: DB, history: seq<Txn>, trace: seq<Txn>, snapshots: seq<Snapshot>, now: Time)
    requires InOrder(Run(start, history), trace, PersistTxns(snapshots, now))
    ensures Persisted(start, history + trace, Departure(snapshots, now, |history + trace|))
  {
    InOrderAfter(start, history, trace, PersistTxns(snapshots, now));
    assert (history + trace)[..|history + trace|] == history + trace;
  }

  /** What one event's turn does: it ends up where its reading says, or stays where it was; the others are not touched. */
  ghost predicate Turned(
    t: Tables, b: Book, after: Tables, book: Book, id: string, raw: Raw, reading: Reading, done: bool, trace: seq<Txn>)
  {
    && book == b.(left := book.left, history := b.history + trace)
    && after.sequence == t.sequence
    && Undisturbed(t, b.left, after, book.left, b.issued.Keys, id)
    && (if done then Settled(after, book.left, id, raw, reading) else after == t && book.left == b.left)
  }

  lemma StaysTurned(t: Tables, b: Book, id: string, raw: Raw, reading: Reading, done: bool, trace: seq<Txn>)
    requires done ==> reading.NotYet? && id in t.inbox && t.inbox[id] == raw
    ensures Turned(t, b, t, b.(history := b.history + trace), id, raw, reading, done, trace)
  {
  }

  lemma GoneTurned(t: Tables, b: Book, id: string, raw: Raw, d: Departure, trace: seq<Txn>)
    requires id in t.inbox && id !in t.quarantine
    ensures Turned(t, b, t.(inbox := t.inbox - {id}), b.(left := b.left[id := d], history := b.history + trace),
                   id, raw, Yields(d.snapshots), true, trace)
  {
  }

  lemma AsideTurned(t: Tables, b: Book, id: string, raw: Raw)
    ensures Turned(t, b, SetAside(t, id, raw), b, id, raw, Poisoned, true, [])
  {
    assert b.history + [] == b.history;
  }

  /** What a turn makes of the tables and of the book, once its event is dealt with or has to wait. */
  function TablesAfter(t: Tables, id: string, raw: Raw, reading: Reading, done: bool): Tables
  {
    if done && reading.Poisoned? then SetAside(t, id, raw)
    else if done && reading.Yields? then t.(inbox := t.inbox - {id})
    else t
  }

  function BookAfter(b: Book, id: string, turn: Turn, done: bool, trace: seq<Txn>): Book
  {
    var history := b.history + trace;
    var left := if done && turn.reading.Yields? then b.left[id := Departure(turn.reading.snapshots, turn.now, |history|)] else b.left;
    b.(history := history, left := left)
  }

  lemma TurnEnds(t: Tables, b: Book, id: string, raw: Raw, turn: Turn, done: bool, trace: seq<Txn>)
    requires Accounted(t, b) && id in t.inbox && t.inbox[id] == raw && (done ==> !turn.reading.StorageFailure?)
    requires turn.reading.Poisoned? ==> trace == []
    ensures Turned(t, b, TablesAfter(t, id, raw, turn.reading, done), BookAfter(b, id, turn, done, trace), id, raw, turn.reading, done, trace)
  {
    if done && turn.reading.Poisoned? {
      AsideTurned(t, b, id, raw);
      assert b.history + [] == b.history;
    } else if done && turn.reading.Yields? {
      InOneTable(t, b, id);
      GoneTurned(t, b, id, raw, Departure(turn.reading.snapshots, turn.now, |b.history + trace|), trace);
    } else {
      StaysTurned(t, b, id, raw, turn.reading, done, trace);
    }
  }

  /** Nothing taken in is forgotten, and the store's history only grows. */
  ghost predicate Later(a: Book, b: Book)
  {
    && a.issued.Keys <= b.issued.Keys && (forall id :: id in a.issued && id in b.issued ==> b.issued[id] == a.issued[id])
    && b.start == a.start && a.history <= b.history
  }

  ghost predicate AllUndisturbed(before: Tables, leftBefore: map<string, Departure>, after: Tables, left: map<string, Departure>, ids: set<string>)
  {
    forall x :: x in ids ==> PlaceOf(after, left, x) == PlaceOf(before, leftBefore, x)
  }

  lemma IssuedLater(a: Book, b: Book, id: string, raw: Raw)
    requires Later(a, b) && id !in b.issued
    ensures Later(a, b.(issued := b.issued[id := raw]))
  {
    var issued := b.issued[id := raw];
    assert issued.Keys == b.issued.Keys + {id};
    forall x | x in a.issued && x in issued ensures issued[x] == a.issued[x] { assert x in a.issued.Keys && x in b.issued.Keys; }
  }

  lemma TookInLater(t0: Tables, b0: Book, t: Tables, b: Book, raw: Raw, id: string, next: Tables, book: Book)
    requires Later(b0, b) && b.left == b0.left && AllUndisturbed(t0, b0.left, t, b.left, b0.issued.Keys)
    requires TookIn(t, b, raw, id, next) && book == b.(issued := b.issued[id := raw])
    ensures Later(b0, book) && AllUndisturbed(t0, b0.left, next, book.left, b0.issued.Keys)
  {
    IssuedLater(b0, b, id, raw);
    forall x | x in b0.issued.Keys ensures PlaceOf(next, book.left, x) == PlaceOf(t0, b0.left, x) {
      assert x in b.issued.Keys && x != id;
    }
  }

  lemma AsideSound(t: Tables, b: Book, id: string, raw: Raw)
    requires Sound(t, b) && id in t.inbox
    ensures Sound(SetAside(t, id, raw), b)
  {
    MoveToSecond(t.inbox.Keys, t.quarantine.Keys, b.left.Keys, b.issued.Keys, id);
    PutKeys(t.quarantine, id, raw);
    DropKeys(t.inbox, id);
  }

  lemma AsideIntact(t: Tables, b: Book, id: string, raw: Raw)
    requires Intact(t, b) && id in b.issued && id in t.inbox && t.inbox[id] == raw
    ensures Intact(SetAside(t, id, raw), b)
  {
  }

  lemma AsideAccounted(t: Tables, b: Book, id: string, raw: Raw)
    requires Accounted(t, b) && id in t.inbox && t.inbox[id] == raw
    ensures Accounted(SetAside(t, id, raw), b)
  {
    InOneTable(t, b, id);
    AsideSound(t, b, id, raw);
    AsideIntact(t, b, id, raw);
  }

  lemma LeftSound(t: Tables, b: Book, id: string, d: Departure)
    requires Sound(t, b) && id in t.inbox
    ensures Sound(t.(inbox := t.inbox - {id}), b.(left := b.left[id := d]))
  {
    MoveToThird(t.inbox.Keys, t.quarantine.Keys, b.left.Keys, b.issued.Keys, id);
    PutKeys(b.left, id, d);
    DropKeys(t.inbox, id);
  }

  lemma LeftAccounted(t: Tables, b: Book, id: string, d: Departure)
    requires Accounted(t, b) && id in t.inbox
    ensures Accounted(t.(inbox := t.inbox - {id}), b.(left := b.left[id := d]))
  {
    LeftSound(t, b, id, d);
  }

  /** Nothing is lost and nothing is counted twice. */
  lemma Conserved(t: Tables, b: Book)
    requires Sound(t, b)
    ensures |t.inbox| + t.quarantined + |b.left| == t.sequence
  {
    IssuedCount(t.sequence);
    PartitionSize(t.inbox.Keys, t.quarantine.Keys, b.left.Keys, b.issued.Keys);
    assert |t.inbox| == |t.inbox.Keys| && |t.quarantine| == |t.quarantine.Keys| && |b.left| == |b.left.Keys|;
  }

  // ---- one turn, and a whole drain ----

  /** What one event's turn does while more arrive: all but this event are where they were, and so is it unless it was dealt with. */
  ghost predicate Handled(t: Tables, b: Book, after: Tables, book: Book, id: string, reading: Reading, done: bool)
  {
    && Later(b, book)
    && Undisturbed(t, b.left, after, book.left, b.issued.Keys, id)
    && (if done && id in t.inbox then Settled(after, book.left, id, t.inbox[id], reading)
        else PlaceOf(after, book.left, id) == PlaceOf(t, b.left, id))
  }

  lemma StillWaiting(t: Tables, leftBefore: map<string, Departure>, after: Tables, left: map<string, Departure>, ids: set<string>, id: string)
    requires AllUndisturbed(t, leftBefore, after, left, ids) && id in t.inbox && id in ids
    ensures id in after.inbox && after.inbox[id] == t.inbox[id]
  {
    assert PlaceOf(after, left, id) == PlaceOf(t, leftBefore, id);
  }

  /** More arrived, and then the event had its turn. */
  lemma HandledAfter(t0: Tables, b0: Book, t: Tables, b: Book, id: string, turn: Turn, done: bool, trace: seq<Txn>)
    requires Later(b0, b) && AllUndisturbed(t0, b0.left, t, b.left, b0.issued.Keys)
    requires Accounted(t, b) && id in t0.inbox && id in b0.issued && id in t.inbox && t.inbox[id] == t0.inbox[id]
    requires (done ==> !turn.reading.StorageFailure?) && (turn.reading.Poisoned? ==> trace == [])
    ensures var after := TablesAfter(t, id, t.inbox[id], turn.reading, done);
      && after.sequence == t.sequence
      && Handled(t0, b0, after, BookAfter(b, id, turn, done, trace), id, turn.reading, done)
  {
    var after, book := TablesAfter(t, id, t.inbox[id], turn.reading, done), BookAfter(b, id, turn, done, trace);
    TurnEnds(t, b, id, t.inbox[id], turn, done, trace);
    forall x | x in b0.issued.Keys && x != id ensures PlaceOf(after, book.left, x) == PlaceOf(t0, b0.left, x) {
      assert x in b.issued.Keys;
    }
    assert id in b0.issued.Keys;
  }

  /** The event scanned k-th is where its turn's reading says. */
  ghost predicate DoneAt(t: Tables, t0: Tables, left: map<string, Departure>, ids: seq<string>, turns: seq<Turn>, k: nat)
    requires k < |ids| && k < |turns|
  {
    ids[k] in t0.inbox && Settled(t, left, ids[k], t0.inbox[ids[k]], turns[k].reading)
  }

  /** The first n scanned events are where their readings say, and everything else is where it was. */
  ghost predicate Worked(t0: Tables, b0: Book, t: Tables, b: Book, ids: seq<string>, turns: seq<Turn>, n: nat)
  {
    && n <= |ids| && n <= |turns| && Later(b0, b)
    && (forall k :: 0 <= k < n ==> DoneAt(t, t0, b.left, ids, turns, k))
    && (forall x :: x in b0.issued.Keys && x !in ids[..n] ==> PlaceOf(t, b.left, x) == PlaceOf(t0, b0.left, x))
  }

  lemma WorkedNone(t: Tables, b: Book, ids: seq<string>, turns: seq<Turn>)
    ensures Worked(t, b, t, b, ids, turns, 0)
  {
  }

  /** Why a drain ended early, at the event it could not deal with. */
  ghost predicate Cut(drained: Drained, turns: seq<Turn>, n: nat)
  {
    match drained
    case Finished => false
    case Interrupted => n >= |turns| || turns[n].stopping
    case Failed => n < |turns| && (turns[n].reading.StorageFailure? || turns[n].reading.Yields?)
    case Crashed => n < |turns| && turns[n].crash.Some?
  }

  /** The scanned events in order of arrival, all of them or up to the one at which the drain ended. */
  ghost predicate DrainedAs(t0: Tables, b0: Book, t: Tables, b: Book, turns: seq<Turn>, drained: Drained, visited: seq<string>)
  {
    && visited <= SortedKeys(t0.inbox.Keys)
    && Worked(t0, b0, t, b, visited, turns, |visited|)
    && (if drained.Finished? then visited == SortedKeys(t0.inbox.Keys) else Cut(drained, turns, |visited|))
  }

  lemma NextWaiting(t0: Tables, b0: Book, t: Tables, b: Book, ids: seq<string>, turns: seq<Turn>, n: nat)
    requires Worked(t0, b0, t, b, ids, turns, n) && Sorted(ids) && n < |ids|
    requires ids[n] in t0.inbox && ids[n] in b0.issued
    ensures ids[n] !in ids[..n] && ids[n] in t.inbox && t.inbox[ids[n]] == t0.inbox[ids[n]]
  {
    forall j | 0 <= j < n ensures ids[j] != ids[n] { LessTotal(ids[j], ids[n]); }
    assert ids[n] in b0.issued.Keys;
    assert PlaceOf(t, b.left, ids[n]) == PlaceOf(t0, b0.left, ids[n]);
  }

  lemma WorkedOn(
    t0: Tables, b0: Book, t: Tables, b: Book, after: Tables, book: Book, ids: seq<string>, turns: seq<Turn>, n: nat, done: bool)
    requires Worked(t0, b0, t, b, ids, turns, n) && Sorted(ids) && n < |ids| && n < |turns|
    requires forall id :: id in ids ==> id in t0.inbox && id in b0.issued
    requires ids[n] in t.inbox && t.inbox[ids[n]] == t0.inbox[ids[n]]
    requires Handled(t, b, after, book, ids[n], turns[n].reading, done)
    ensures Worked(t0, b0, after, book, ids, turns, if done then n + 1 else n)
  {
    var m := if done then n + 1 else n;
    forall k | 0 <= k < m ensures DoneAt(after, t0, book.left, ids, turns, k) {
      if k < n {
        LessTotal(ids[k], ids[n]);
        assert DoneAt(t, t0, b.left, ids, turns, k);
        assert ids[k] in b0.issued.Keys && ids[k] in b.issued.Keys;
        assert PlaceOf(after, book.left, ids[k]) == PlaceOf(t, b.left, ids[k]);
      }
    }
    forall x | x in b0.issued.Keys && x !in ids[..m] ensures PlaceOf(after, book.left, x) == PlaceOf(t0, b0.left, x) {
      assert ids[..m] == ids[..n] + ids[n..m];
      assert x in b.issued.Keys;
      if done { assert ids[..m][n] == ids[n] && x != ids[n]; }
    }
  }

  lemma WorkedPrefix(t0: Tables, b0: Book, t: Tables, b: Book, ids: seq<string>, turns: seq<Turn>, n: nat)
    requires Worked(t0, b0, t, b, ids, turns, n)
    ensures Worked(t0, b0, t, b, ids[..n], turns, n)
  {
    forall k | 0 <= k < n ensures DoneAt(t, t0, b.left, ids[..n], turns, k) { assert DoneAt(t, t0, b.left, ids, turns, k); }
    assert ids[..n][..n] == ids[..n];
  }

  // ---- what left is in the store ----

  lemma AppliedIsStored(db: DB, t: Txn)
    requires t.ApplyTxn? && t.watermark.None? && GoesThrough(db, t)
    ensures t.e.key in Step(db, t).log.latest
  {
    var applied := ApplyFresh(db, t.e, t.private, t.now);
    FreshFrame(db, t.e, t.private, t.now, t.e.key);
    if t.e.key.kind.MessageKind? { ConfirmEvolves(applied.db, t.e.data.message, t.now, t.e.key); }
  }

  /** What once went through under no watermark has its record in the store for good. */
  lemma ThroughIsStored(start: DB, ts: seq<Txn>, t: Txn, i: nat)
    requires Through(start, ts, t, i) && t.ApplyTxn? && t.watermark.None?
    ensures t.e.key in Run(start, ts).log.latest
  {
    var before := Run(start, ts[..i]);
    AppliedIsStored(before, t);
    assert ts == ts[..i] + ([t] + ts[i + 1..]);
    RunSplit(start, ts[..i], [t] + ts[i + 1..]);
    RunSplit(before, [t], ts[i + 1..]);
    RunOne(before, t);
    RunEvolves(Step(before, t), ts[i + 1..], t.e.key);
  }

  lemma {:induction false} PersistTxnsAt(snapshots: seq<Snapshot>, now: Time, k: nat)
    requires k < |snapshots|
    ensures |PersistTxns(snapshots, now)| == |snapshots| && PersistTxns(snapshots, now)[k] == PersistTxn(snapshots[k], now)
    decreases |snapshots|
  {
    var n := |snapshots| - 1;
    if n > 0 { PersistTxnsAt(snapshots[..n], now, if k < n then k else 0); }
  }

  /** The snapshot was applied and its application committed, in the history up to `at`; its record is in the store. */
  ghost predicate Kept(start: DB, history: seq<Txn>, d: Departure, s: Snapshot)
  {
    && d.at <= |history| && (exists i :: Through(start, history[..d.at], PersistTxn(s, d.now), i))
    && s.event.key in Run(start, history).log.latest
  }

  /** An event is out of the inbox for good only once the store has committed every snapshot it was read as, and it keeps their records. */
  lemma LeftMeansPersisted(b: Book, id: string, k: nat)
    requires PersistedFirst(b.left, b.start, b.history) && id in b.left && k < |b.left[id].snapshots|
    ensures Kept(b.start, b.history, b.left[id], b.left[id].snapshots[k])
  {
    var d := b.left[id];
    assert Persisted(b.start, b.history, d);
    var before, t := b.history[..d.at], PersistTxn(d.snapshots[k], d.now);
    PersistTxnsAt(d.snapshots, d.now, k);
    InOrderAt(b.start, before, PersistTxns(d.snapshots, d.now), k);
    var i :| Through(b.start, before, t, i);
    ThroughIsStored(b.start, before, t, i);
    assert b.history == before + b.history[d.at..];
    RunSplit(b.start, before, b.history[d.at..]);
    RunEvolves(Run(b.start, before), b.history[d.at..], t.e.key);
  }

  /** One thing that happens to the inbox or its store. */
  datatype Act = Arrives(raw: Raw) | Drains(turns: seq<Turn>) | Others(ts: seq<Txn>)

  function ArrivalsOf(act: Act): nat
  {
    match act
    case Arrives(_) => 1
    case Drains(turns) => Arrivals(turns, 0)
    case Others(_) => 0
  }

  function ArrivalsIn(acts: seq<Act>): nat
  {
    if acts == [] then 0 else ArrivalsOf(acts[0]) + ArrivalsIn(acts[1..])
  }

  /** The event waits or was set aside as it came, or the store has all its snapshots. */
  ghost predicate SafeSomewhere(t: Tables, b: Book, id: string)
  {
    && id in b.issued
    && match PlaceOf(t, b.left, id)
       case Waiting(raw) => raw == b.issued[id]
       case Aside(raw) => raw == b.issued[id]
       case Gone(d) => forall k :: 0 <= k < |d.snapshots| ==> Kept(b.start, b.history, d, d.snapshots[k])
       case Nowhere => false
  }

  lemma AccountedFor(t: Tables, b: Book, id: string)
    requires Accounted(t, b) && PersistedFirst(b.left, b.start, b.history) && id in b.issued
    ensures SafeSomewhere(t, b, id)
  {
    assert id in b.issued.Keys;
    if id !in t.inbox && id !in t.quarantine {
      assert id !in t.inbox.Keys && id !in t.quarantine.Keys;
      assert id in b.left.Keys;
      forall k | 0 <= k < |b.left[id].snapshots| ensures Kept(b.start, b.history, b.left[id], b.left[id].snapshots[k]) {
        LeftMeansPersisted(b, id, k);
      }
    }
  }

  // ---- the provider's methods ----

  datatype Persisting = AllTaken | Refused | Died

  function Pause(others: seq<seq<Txn>>, i: nat): seq<Txn>
  {
    if i < |others| then others[i] else []
  }

  /** What a finished turn did to the store: all its event's snapshots went through, if it had any. */
  ghost predicate Delivered(turn: Turn, start: DB, trace: seq<Txn>)
  {
    match turn.reading
    case NotYet => trace == []
    case StorageFailure => false
    case Poisoned => trace == []
    case Yields(snapshots) => InOrder(start, trace, PersistTxns(snapshots, turn.now))
  }

  /** A turn that did not deal with its event has its reason. */
  ghost predicate Ended(drained: Drained, turn: Turn, start: DB, trace: seq<Txn>)
  {
    match drained
    case Finished => Delivered(turn, start, trace)
    case Interrupted => turn.stopping
    case Failed => turn.reading.StorageFailure? || (turn.reading.Yields? && EndsRefused(start, trace))
    case Crashed => turn.crash.Some?
  }

  /** How a turn ends that gives the store nothing. */
  function SparedAs(turn: Turn): Drained
    requires turn.stopping || !turn.reading.Yields?
  {
    if turn.stopping then Interrupted
    else
      match turn.reading
      case NotYet => Finished
      case StorageFailure => Failed
      case Poisoned => if turn.crash == Some(0) then Crashed else Finished
  }

  lemma SparedEnds(turn: Turn, b: Book, id: string, db: DB)
    requires turn.stopping || !turn.reading.Yields?
    ensures Ended(SparedAs(turn), turn, db, []) && Run(db, []) == db && BookAfter(b, id, turn, SparedAs(turn).Finished?, []) == b
  {
    assert b.history + [] == b.history;
  }

  /** How handing over an event's snapshots ends. */
  ghost predicate HandedOver(p: Persisting, snapshots: seq<Snapshot>, turn: Turn, start: DB, trace: seq<Txn>)
  {
    match p
    case AllTaken => InOrder(start, trace, PersistTxns(snapshots, turn.now)) && (turn.crash.Some? ==> turn.crash.value >= |snapshots|)
    case Refused => EndsRefused(start, trace)
    case Died => turn.crash.Some? && turn.crash.value < |snapshots|
  }

  /** Hands an event's snapshots to the store one by one; stops at the first it does not take. */
  method Persist(store: Store, snapshots: seq<Snapshot>, turn: Turn) returns (p: Persisting, ghost trace: seq<Txn>)
    modifies store
    ensures store.db == Run(old(store.db), trace)
    ensures HandedOver(p, snapshots, turn, old(store.db), trace)
  {
    ghost var start, persisted: seq<Txn> := store.db, [];
    trace := [];
    var i := 0;
    while i < |snapshots|
      invariant 0 <= i <= |snapshots| && store.db == Run(start, trace)
      invariant persisted == PersistTxns(snapshots[..i], turn.now) && InOrder(start, trace, persisted)
      invariant turn.crash.Some? ==> turn.crash.value >= i
    {
      if turn.crash.Some? && turn.crash.value == i { return Died, trace; }
      PersistTxnsGrow(snapshots, i, turn.now);
      var taken;
      taken, trace := PersistNext(store, snapshots[i], Pause(turn.others, i), turn.now, start, trace, persisted);
      if !taken { return Refused, trace; }
      persisted := persisted + [PersistTxn(snapshots[i], turn.now)];
      i := i + 1;
    }
    assert snapshots[..i] == snapshots;
    p := AllTaken;
  }

  method PersistNext(
    store: Store, snapshot: Snapshot, others: seq<Txn>, now: Time, ghost start: DB, ghost before: seq<Txn>, ghost persisted: seq<Txn>)
    returns (taken: bool, ghost trace: seq<Txn>)
    requires store.db == Run(start, before) && InOrder(start, before, persisted)
    modifies store
    ensures store.db == Run(start, trace)
    ensures if taken then InOrder(start, trace, persisted + [PersistTxn(snapshot, now)]) else EndsRefused(start, trace)
  {
    store.Interleave(others);
    RunSplit(start, before, others);
    var t := PersistTxn(snapshot, now);
    var r := ApplyNext(store, t, Run(start, before), others);
    RunSplit(start, before, others + [t]);
    trace := before + (others + [t]);
    taken := r.Ok?;
    if taken {
      InOrderConcat(start, before, persisted, others + [t], [t]);
    } else {
      EndsRefusedAfter(start, before, others + [t]);
    }
  }

  class Inbox {
    const store: Store
    var tables: Tables
    ghost var book: Book

    /** The tables account for every event, and the book for all the store has seen. */
    ghost predicate Valid()
      reads this, store
    {
      Accounted(tables, book) && Witnessed(book, store.db)
    }

    constructor (file: Store)
      ensures Valid() && store == file && tables == Tables(map[], map[], 0, 0) && book == Book(map[], map[], file.db, [])
    {
      store, tables, book := file, Tables(map[], map[], 0, 0), Book(map[], map[], file.db, []);
      assert Issued(0) == {};
    }

    /** The number is taken and the event stored in one transaction, before anything looks at it. */
    method Ingest(raw: Raw) returns (id: string)
      requires Accounted(tables, book)
      modifies this
      ensures tables == Taken(old(tables), raw) && id == Padded(tables.sequence)
      ensures old(tables).sequence < MAX_UINT64 ==>
        Accounted(tables, book) && book == old(book).(issued := old(book).issued[id := raw]) && TookIn(old(tables), old(book), raw, id, tables)
    {
      ghost var before := tables;
      var n := Successor(tables.sequence);
      id := Padded(n);
      tables := tables.(sequence := n);
      tables := tables.(inbox := tables.inbox[id := raw]);
      assert tables == Taken(before, raw);
      if before.sequence < MAX_UINT64 {
        TakenSound(before, book, raw);
        book := book.(issued := book.issued[id := raw]);
      }
    }

    method IngestAll(raws: seq<Raw>)
      requires Accounted(tables, book) && tables.sequence + |raws| <= MAX_UINT64
      modifies this
      ensures Accounted(tables, book) && tables.sequence == old(tables).sequence + |raws| && Later(old(book), book)
      ensures book == old(book).(issued := book.issued)
      ensures AllUndisturbed(old(tables), old(book).left, tables, book.left, old(book).issued.Keys)
    {
      var i := 0;
      while i < |raws|
        invariant 0 <= i <= |raws| && Accounted(tables, book) && tables.sequence == old(tables).sequence + i
        invariant Later(old(book), book) && book == old(book).(issued := book.issued)
        invariant AllUndisturbed(old(tables), old(book).left, tables, book.left, old(book).issued.Keys)
      {
        ghost var before, was := tables, book;
        var id := Ingest(raws[i]);
        TookInLater(old(tables), old(book), before, was, raws[i], id, tables, book);
        i := i + 1;
      }
    }

    /** Moves one event aside and counts it, in one transaction. */
    method Quarantine(id: string, raw: Raw)
      requires Accounted(tables, book) && id in tables.inbox && tables.inbox[id] == raw
      modifies `tables
      ensures Accounted(tables, book) && tables == SetAside(old(tables), id, raw)
    {
      AsideAccounted(tables, book, id, raw);
      tables := tables.(quarantine := tables.quarantine[id := raw]);
      tables := tables.(quarantined := tables.quarantined + 1);
      tables := tables.(inbox := tables.inbox - {id});
    }

    /** The last step of an event: only now does it leave the inbox. */
    method Remove(id: string, ghost d: Departure)
      requires Valid() && id in tables.inbox && Persisted(book.start, book.history, d)
      modifies this
      ensures Valid() && tables == old(tables).(inbox := old(tables).inbox - {id})
      ensures book == old(book).(left := old(book).left[id := d])
    {
      LeftAccounted(tables, book, id, d);
      LeftPersisted(book.left, book.start, book.history, id, d);
      tables := tables.(inbox := tables.inbox - {id});
      book := book.(left := book.left[id := d]);
    }

    /** Anything else that happens to the store while the inbox is not being worked on. */
    method Elsewhere(ts: seq<Txn>)
      requires Valid()
      modifies `book, store
      ensures Valid() && store.db == Run(old(store.db), ts)
      ensures book == old(book).(history := old(book).history + ts)
    {
      store.Interleave(ts);
      HistoryGrows(book.left, book.start, book.history, ts);
      RunSplit(book.start, book.history, ts);
      book := book.(history := book.history + ts);
    }

    /** Hands the snapshots over and keeps the book. */
    method PersistAll(snapshots: seq<Snapshot>, turn: Turn) returns (p: Persisting, ghost trace: seq<Txn>)
      requires Valid()
      modifies `book, store
      ensures Valid() && store.db == Run(old(store.db), trace) && book == old(book).(history := old(book).history + trace)
      ensures HandedOver(p, snapshots, turn, old(store.db), trace)
      ensures p.AllTaken? ==> Persisted(book.start, book.history, Departure(snapshots, turn.now, |book.history|))
    {
      p, trace := Persist(store, snapshots, turn);
      if p.AllTaken? { DeparturePersisted(book.start, book.history, trace, snapshots, turn.now); }
      HistoryGrows(book.left, book.start, book.history, trace);
      RunSplit(book.start, book.history, trace);
      book := book.(history := book.history + trace);
    }

    /** An event that was understood: its snapshots first, and only then its removal. */
    method Deliver(id: string, raw: Raw, turn: Turn) returns (drained: Drained, ghost trace: seq<Txn>)
      requires Valid() && id in tables.inbox && turn.reading.Yields?
      modifies this, store
      ensures Valid() && store.db == Run(old(store.db), trace)
      ensures tables == TablesAfter(old(tables), id, raw, turn.reading, drained.Finished?)
      ensures book == BookAfter(old(book), id, turn, drained.Finished?, trace)
      ensures Ended(drained, turn, old(store.db), trace)
    {
      var snapshots := turn.reading.snapshots;
      var p;
      p, trace := PersistAll(snapshots, turn);
      drained := if p.Refused? then Failed else if p.Died? || turn.crash == Some(|snapshots|) then Crashed else Finished;
      if drained.Finished? { Remove(id, Departure(snapshots, turn.now, |book.history|)); }
    }

    /** An event that gives the store nothing: its turn comes too late, it stays where it is, or it will never be understood. */
    method Spare(id: string, raw: Raw, turn: Turn) returns (drained: Drained)
      requires Accounted(tables, book) && id in tables.inbox && tables.inbox[id] == raw && (turn.stopping || !turn.reading.Yields?)
      modifies `tables
      ensures Accounted(tables, book)
      ensures tables == TablesAfter(old(tables), id, raw, turn.reading, drained.Finished?)
      ensures drained == SparedAs(turn)
    {
      drained := SparedAs(turn);
      if turn.reading.Poisoned? && drained.Finished? { Quarantine(id, raw); }
    }

    /** What becomes of one event; the process may die before any of its writes. */
    method Settle(id: string, raw: Raw, turn: Turn) returns (drained: Drained, ghost trace: seq<Txn>)
      requires Valid() && id in tables.inbox && tables.inbox[id] == raw
      modifies this, store
      ensures Valid() && store.db == Run(old(store.db), trace)
      ensures tables == TablesAfter(old(tables), id, raw, turn.reading, drained.Finished?)
      ensures book == BookAfter(old(book), id, turn, drained.Finished?, trace)
      ensures Ended(drained, turn, old(store.db), trace) && (turn.reading.Poisoned? ==> trace == [])
    {
      trace := [];
      if turn.reading.Yields? && !turn.stopping {
        drained, trace := Deliver(id, raw, turn);
      } else {
        drained := Spare(id, raw, turn);
        SparedEnds(turn, book, id, store.db);
      }
    }

    /** One event of the scan, while more arrive. */
    method Handle(id: string, turn: Turn) returns (drained: Drained, ghost trace: seq<Txn>)
      requires Valid() && id in tables.inbox && tables.sequence + |turn.arrivals| <= MAX_UINT64
      modifies this, store
      ensures Valid() && store.db == Run(old(store.db), trace) && tables.sequence == old(tables).sequence + |turn.arrivals|
      ensures Handled(old(tables), old(book), tables, book, id, turn.reading, drained.Finished?)
      ensures Ended(drained, turn, old(store.db), trace)
    {
      var raw := tables.inbox[id];
      InOneTable(tables, book, id);
      IngestAll(turn.arrivals);
      StillWaiting(old(tables), old(book).left, tables, book.left, old(book).issued.Keys, id);
      ghost var before, was := tables, book;
      drained, trace := Settle(id, raw, turn);
      HandledAfter(old(tables), old(book), before, was, id, turn, drained.Finished?, trace);
    }

    /**
     * Works the inbox off in order of arrival, with more arriving meanwhile, until it
     * is through, told to stop, fails or dies: every event visited is where its reading
     * says, and every other event is where it was.
     */
    method Drain(turns: seq<Turn>) returns (drained: Drained, ghost visited: seq<string>, ghost trace: seq<Txn>)
      requires Valid() && tables.sequence + Arrivals(turns, 0) <= MAX_UINT64
      modifies this, store
      ensures Valid() && store.db == Run(old(store.db), trace) && tables.sequence <= old(tables).sequence + Arrivals(turns, 0)
      ensures DrainedAs(old(tables), old(book), tables, book, turns, drained, visited)
    {
      var ids := ListKeys(tables.inbox.Keys);
      SortedKeysSorted(tables.inbox.Keys);
      forall id | id in ids ensures id in tables.inbox && id in book.issued { InOneTable(tables, book, id); }
      var at;
      drained, at, trace := Work(ids, turns);
      visited := ids[..at];
      WorkedPrefix(old(tables), old(book), tables, book, ids, turns, at);
    }

    /** The loop over the scanned ids; `at` is how many were dealt with. */
    method Work(ids: seq<string>, turns: seq<Turn>) returns (drained: Drained, at: nat, ghost trace: seq<Txn>)
      requires Valid() && tables.sequence + Arrivals(turns, 0) <= MAX_UINT64
      requires Sorted(ids) && forall id :: id in ids ==> id in tables.inbox && id in book.issued
      modifies this, store
      ensures Valid() && store.db == Run(old(store.db), trace) && tables.sequence <= old(tables).sequence + Arrivals(turns, 0)
      ensures at <= |ids| && at <= |turns| && Worked(old(tables), old(book), tables, book, ids, turns, at)
      ensures drained.Finished? ==> at == |ids|
      ensures !drained.Finished? ==> Cut(drained, turns, at)
    {
      at, trace := 0, [];
      ghost var t0, b0, start, limit := tables, book, store.db, tables.sequence + Arrivals(turns, 0);
      WorkedNone(t0, b0, ids, turns);
      while at < |ids| && at < |turns|
        invariant 0 <= at <= |ids| && Valid() && at <= |turns| && store.db == Run(start, trace)
        invariant tables.sequence + Arrivals(turns, at) <= limit
        invariant Worked(t0, b0, tables, book, ids, turns, at)
        decreases |ids| - at
      {
        drained, trace := HandleNext(ids, turns, at, start, trace, t0, b0, limit);
        if !drained.Finished? { return; }
        at := at + 1;
      }
      drained := if at == |ids| then Finished else Interrupted;
    }

    method HandleNext(
      ids: seq<string>, turns: seq<Turn>, at: nat, ghost start: DB, ghost earlier: seq<Txn>,
      ghost t0: Tables, ghost b0: Book, ghost limit: nat)
      returns (drained: Drained, ghost trace: seq<Txn>)
      requires Valid() && at < |ids| && at < |turns| && tables.sequence + Arrivals(turns, at) <= limit <= MAX_UINT64
      requires Sorted(ids) && forall id :: id in ids ==> id in t0.inbox && id in b0.issued
      requires store.db == Run(start, earlier) && Worked(t0, b0, tables, book, ids, turns, at)
      modifies this, store
      ensures Valid() && store.db == Run(start, trace) && tables.sequence + Arrivals(turns, at + 1) <= limit
      ensures Worked(t0, b0, tables, book, ids, turns, if drained.Finished? then at + 1 else at)
      ensures !drained.Finished? ==> Cut(drained, turns, at)
    {
      NextWaiting(t0, b0, tables, book, ids, turns, at);
      ghost var before, was, one := tables, book, [];
      drained, one := Handle(ids[at], turns[at]);
      RunSplit(start, earlier, one);
      trace := earlier + one;
      WorkedOn(t0, b0, before, was, tables, book, ids, turns, at, drained.Finished?);
    }

    /**
     * Any life of the inbox: arrivals, drains that may be stopped, fail or die, and
     * whatever others do to the store. Every event ever taken in still waits as it came,
     * or is set aside as it came, or is gone with all its snapshots in the store.
     */
    method Live(acts: seq<Act>) returns (ghost trace: seq<Txn>)
      requires Valid() && tables.sequence + ArrivalsIn(acts) <= MAX_UINT64
      modifies this, store
      ensures Valid() && store.db == Run(old(store.db), trace)
      ensures Later(old(book), book)
      ensures forall id :: id in book.issued ==> SafeSomewhere(tables, book, id)
    {
      trace := [];
      var i := 0;
      while i < |acts|
        invariant 0 <= i <= |acts| && Valid() && store.db == Run(old(store.db), trace)
        invariant tables.sequence + ArrivalsIn(acts[i..]) <= MAX_UINT64
        invariant Later(old(book), book)
      {
        assert acts[i..][0] == acts[i] && acts[i..][1..] == acts[i + 1..];
        ghost var one := Perform(acts[i]);
        RunSplit(old(store.db), trace, one);
        trace := trace + one;
        i := i + 1;
      }
      forall id | id in book.issued ensures SafeSomewhere(tables, book, id) { AccountedFor(tables, book, id); }
    }

    method Perform(act: Act) returns (ghost trace: seq<Txn>)
      requires Valid() && tables.sequence + ArrivalsOf(act) <= MAX_UINT64
      modifies this, store
      ensures Valid() && store.db == Run(old(store.db), trace)
      ensures Later(old(book), book) && tables.sequence <= old(tables).sequence + ArrivalsOf(act)
      ensures act.Arrives? ==> TookIn(old(tables), old(book), act.raw, Padded(tables.sequence), tables)
      ensures act.Drains? ==> exists drained, visited :: DrainedAs(old(tables), old(book), tables, book, act.turns, drained, visited)
      ensures act.Others? ==> trace == act.ts
    {
      trace := [];
      match act {
        case Arrives(raw) => var id := Ingest(raw);
        case Drains(turns) =>
          var drained;
          ghost var visited;
          drained, visited, trace := Drain(turns);
        case Others(ts) =>
          Elsewhere(ts);
          trace := ts;
      }
    }
  }

  /** The order of a drain is the order of ingestion. */
  lemma VisitedInOrder(visited: seq<string>, i: nat, j: nat, m: nat, n: nat)
    requires Sorted(visited) && i < j < |visited| && visited[i] == Padded(m) && visited[j] == Padded(n)
    requires m <= MAX_UINT64 && n <= MAX_UINT64
    ensures m < n
  {
    PaddedOrder(m, n);
  }
}
