/** Where a promise fails: short runs from an empty file, one for each exact condition. */
module Examples {
  import opened Records
  import opened Buckets
  import opened StoreSpec
  import opened Frames
  import opened Newest
  import opened Rows
  import opened Search
  import opened Previews
  import Counters

  // ---- what the runs are made of ----

  function Note(text: string, c: string, time: Time): Incoming
  {
    Incoming(Key(MessageKind, "m"),
             MessageData(Message(SCHEMA, "m", c, "", time, text, "", "incoming", "", false, false, "", [], [])), false)
  }

  function Row(c: string, updated: Time): Incoming
  {
    Incoming(Key(ConversationKind, c),
             ConversationData(Conversation(false, false, 0, SCHEMA, c, "", "", updated, false, 0, false, "", "", [], "", "")), false)
  }

  const NEW_CHAT := SendRequest("conversation", ["+1"], "", [], "", "", false, "", "")

  function Applying(e: Incoming, now: Time): Txn
  {
    ApplyTxn(e, map[], None, now)
  }

  const REPLACING := SavePairedTxn([], true, 2)
  const ASKING := EnqueueTxn("s", "t", NEW_CHAT, 3)
  const CLAIMING := ClaimTxn("s", 4)

  lemma RunTwo(db: DB, s: Txn, t: Txn)
    ensures Run(db, [s, t]) == Step(Step(db, s), t)
  {
    assert [s, t] == [s] + [t];
    RunSplit(db, [s], [t]);
    RunOne(db, s);
    RunOne(Step(db, s), t);
  }

  // ---- each step goes through ----

  lemma NoteFits(db: DB, text: string, c: string, time: Time, now: Time)
    requires StoredMessageReadable(db, Key(MessageKind, "m"))
    ensures ApplyFresh(db, Note(text, c, time), map[], now).Done?
    ensures Apply(db, Note(text, c, time), map[], None, now) == ApplyFresh(db, Note(text, c, time), map[], now)
  {
    var e := Note(text, c, time);
    var kept := ClaimAndStore(db, e, map[], now);
    assert kept.Done?;
    assert RefreshConversationTx(kept.db, e.data.message, e.key !in db.log.latest && !e.historical, PreviousStatus(db, e.key), now).Done?;
  }

  lemma HelloShows(c: string, time: Time)
    requires c != "" && time > 0
    ensures var source := PreviewSource(Note("hello", c, time).data.message);
      source.Some? && source.value.time == time && source.value.messageID == "m"
  {
    var m := Note("hello", c, time).data.message;
    PreviewTextMeaning(m);
    assert !IsSpace(m.text[0]);
  }

  lemma BlankShowsNothing(c: string, time: Time)
    ensures PreviewSource(Note("", c, time).data.message).None?
  {
    PreviewTextMeaning(Note("", c, time).data.message);
  }

  /** What applying the note leaves behind. */
  ghost predicate NoteStored(db: DB, next: DB, e: Incoming, k: Key)
    requires e.key == Key(MessageKind, "m") && e.data.MessageData?
  {
    && IsCurrent(next, "m") && next.log.latest[e.key] == e.data
    && next.newest == Remember(db.newest, e.data.message)
    && next == db.(log := next.log, seen := next.seen, own := StampEpoch(db, e.key).own, newest := next.newest)
    && (k in next.log.latest <==> k in db.log.latest || k == e.key)
  }

  lemma NoteLands(db: DB, text: string, c: string, time: Time, now: Time, next: DB, k: Key)
    requires StoredMessageReadable(db, Key(MessageKind, "m"))
    requires next == Commit(db, Apply(db, Note(text, c, time), map[], None, now))
    ensures NoteStored(db, next, Note(text, c, time), k)
  {
    var e := Note(text, c, time);
    NoteFits(db, text, c, time, now);
    FreshFrame(db, e, map[], now, k);
    FreshRemembers(db, e, map[], now);
    assert db.private + map[] == db.private;
  }

  lemma RowFits(db: DB, c: string, updated: Time, now: Time)
    requires c != "" && Key(ConversationKind, c) !in db.log.latest
    ensures ClaimAndStore(db, Row(c, updated), map[], now).Done?
    ensures Apply(db, Row(c, updated), map[], None, now) == ClaimAndStore(db, Row(c, updated), map[], now)
  {
  }

  ghost predicate RowStored(db: DB, next: DB, e: Incoming, k: Key)
  {
    && e.key in next.log.latest
    && (e.key.id !in db.newest ==> next.log.latest[e.key] == e.data)
    && next == db.(log := next.log, seen := next.seen, own := StampEpoch(db, e.key).own)
    && (k != e.key ==> SameAt(db.log, next.log, k))
  }

  lemma RowLands(db: DB, c: string, updated: Time, now: Time, next: DB, k: Key)
    requires c != "" && Key(ConversationKind, c) !in db.log.latest
    requires next == Commit(db, Apply(db, Row(c, updated), map[], None, now))
    ensures RowStored(db, next, Row(c, updated), k)
  {
    RowFits(db, c, updated, now);
    ClaimFrame(db, Row(c, updated), map[], now, k);
    assert db.private + map[] == db.private;
  }

  /** Nothing waits to be sent and no import is known: a new phone cannot be refused. */
  ghost predicate Idle(db: DB)
  {
    db.sends.outbox == map[] && forall id :: Key(HistoryKind, id) !in db.log.latest
  }

  lemma RowKeepsIdle(db: DB, c: string, updated: Time, now: Time, next: DB)
    requires c != "" && Key(ConversationKind, c) !in db.log.latest && Idle(db)
    requires next == Commit(db, Apply(db, Row(c, updated), map[], None, now))
    ensures Idle(next)
  {
    RowLands(db, c, updated, now, next, Key(ConversationKind, c));
    forall id ensures Key(HistoryKind, id) !in next.log.latest { RowLands(db, c, updated, now, next, Key(HistoryKind, id)); }
  }

  lemma NoteKeepsIdle(db: DB, text: string, c: string, time: Time, now: Time, next: DB)
    requires StoredMessageReadable(db, Key(MessageKind, "m")) && Idle(db)
    requires next == Commit(db, Apply(db, Note(text, c, time), map[], None, now))
    ensures Idle(next)
  {
    NoteLands(db, text, c, time, now, next, Key(MessageKind, "m"));
    forall id ensures Key(HistoryKind, id) !in next.log.latest { NoteLands(db, text, c, time, now, next, Key(HistoryKind, id)); }
  }

  lemma PhoneReplaced(db: DB)
    requires Idle(db)
    ensures SavePairedSession(db, [], true, 2) == Done(NewEpoch(PairedSession(db, [])), true)
  {
    var saved := PairedSession(db, []);
    assert SortedKeys(saved.sends.outbox.Keys) == [];
    assert RewriteOutbox(saved, CancelForPairing, 2) == Done(saved, true);
    forall id ensures id !in KindIds(saved.log.latest, HistoryKind) { KindIdMember(saved.log.latest, HistoryKind, id); }
    assert KindIds(saved.log.latest, HistoryKind) == {};
    forall k | k in saved.log.latest.Keys ensures !k.kind.HistoryKind? { assert Key(HistoryKind, k.id) !in db.log.latest; }
    assert JobsReadable(saved);
    assert SortedKeys(KindIds(NewEpoch(saved).log.latest, HistoryKind)) == [];
  }

  lemma ReplacingSaves(db: DB)
    ensures Step(db, REPLACING) == Commit(db, SavePairedSession(db, [], true, 2))
  {
  }

  lemma Replaced(db: DB)
    requires Idle(db)
    ensures Step(db, REPLACING) == NewEpoch(PairedSession(db, []))
  {
    PhoneReplaced(db);
    ReplacingSaves(db);
  }

  /** The claimed request: nothing but the outbox and its log entries moved. */
  ghost predicate RequestSent(db: DB, next: DB, k: Key)
  {
    && "s" in next.sends.outbox
    && var o := next.sends.outbox["s"];
    && o.id == "s" && o.state.Sending? && o.request.kind == "conversation"
    && next == db.(log := next.log, sends := next.sends)
    && (k.kind != OutboxKind ==> SameAt(db.log, next.log, k))
  }

  lemma RequestAsked(db: DB, next: DB, k: Key)
    requires Idle(db) && next == Commit(db, Enqueue(db, "s", "t", NEW_CHAT, 3))
    ensures "s" in next.sends.outbox
    ensures var o := next.sends.outbox["s"]; o.id == "s" && o.state.Queued? && o.request == NEW_CHAT
    ensures next == db.(log := next.log, sends := next.sends) && (k.kind != OutboxKind ==> SameAt(db.log, next.log, k))
  {
    assert Enqueue(db, "s", "t", NEW_CHAT, 3).Done?;
  }

  lemma RequestClaimed(db: DB, next: DB, k: Key)
    requires "s" in db.sends.outbox && next == Commit(db, ClaimQueued(db, "s", 4))
    requires var o := db.sends.outbox["s"]; o.id == "s" && o.state.Queued? && o.request == NEW_CHAT
    ensures RequestSent(db, next, k)
  {
    assert ClaimQueued(db, "s", 4).Done?;
  }

  lemma Requested(db: DB, k: Key)
    requires Idle(db)
    ensures RequestSent(db, Run(db, [ASKING, CLAIMING]), k)
  {
    var asked := Step(db, ASKING);
    RunTwo(db, ASKING, CLAIMING);
    RequestAsked(db, asked, k);
    RequestClaimed(asked, Step(asked, CLAIMING), k);
  }

  lemma RowFinishes(db: DB, c: string, updated: Time, mark: nat)
    requires RequestSent(db, db, Key(ConversationKind, c)) && c != ""
    ensures FinishConversation(db, "s", Row(c, updated), map[], mark, 5).Done?
  {
    var e := Row(c, updated);
    var stored := StoreResult(db, e, map[], mark, 5);
    assert stored.Done?;
    assert WriteOutbox(StampEpoch(stored.db, e.key), Finished(db.sends.outbox["s"], c, 5), 5).Done?;
  }

  /** Transactions every promise about runs allows. */
  ghost predicate Ordinary(t: Txn)
  {
    (t.ApplyTxn? && WellFormed(t.e)) || t.SavePairedTxn? || t.EnqueueTxn? || t.ClaimTxn?
  }

  lemma {:induction false} OrdinaryRun(db: DB, ts: seq<Txn>)
    requires forall t :: t in ts ==> Ordinary(t)
    ensures Counters.AllAccountable(db, ts) && AllGrounded(db, ts)
    decreases |ts|
  {
    if ts != [] {
      assert Ordinary(ts[0]);
      OrdinaryRun(Step(db, ts[0]), ts[1..]);
    }
  }

  /** A watermark read just now fences nothing off. */
  lemma NothingStale(ts: seq<Txn>, k: Key)
    ensures !Stale(Run(EMPTY, ts), k, Some(Run(EMPTY, ts).seen.versionSeq))
  {
    RunEvolves(EMPTY, ts, k);
  }

  // ---- a conversation taken off a count it was never on ----

  const A := Key(ConversationKind, "a")
  const B := Key(ConversationKind, "b")
  const MISCOUNT := [Applying(Row("a", 1), 1), REPLACING, ASKING, CLAIMING]

  ghost predicate OneLeft(db: DB)
  {
    && Idle(db) && db.own.epoch == 1
    && A in db.log.latest && !(A in db.own.epochs && db.own.epochs[A] == 1)
    && B !in db.log.latest && B !in db.own.epochs
  }

  lemma RowLeftBehind()
    ensures OneLeft(Run(EMPTY, [Applying(Row("a", 1), 1), REPLACING]))
  {
    var one := Step(EMPTY, Applying(Row("a", 1), 1));
    RunTwo(EMPTY, Applying(Row("a", 1), 1), REPLACING);
    RowLands(EMPTY, "a", 1, 1, one, B);
    RowKeepsIdle(EMPTY, "a", 1, 1, one);
    Replaced(one);
  }

  lemma MiscountReady()
    ensures var db := Run(EMPTY, MISCOUNT);
      && Counters.Counted(db) && A in Counters.Left(db, ConversationKind)
      && !Counters.CountsRight(db, Row("b", 1), db.seen.versionSeq)
      && RequestSent(db, db, B)
  {
    var two := Run(EMPTY, [Applying(Row("a", 1), 1), REPLACING]);
    var db := Run(EMPTY, MISCOUNT);
    assert MISCOUNT == [Applying(Row("a", 1), 1), REPLACING] + [ASKING, CLAIMING];
    RunSplit(EMPTY, [Applying(Row("a", 1), 1), REPLACING], [ASKING, CLAIMING]);
    RowLeftBehind();
    Requested(two, A);
    Requested(two, B);
    OrdinaryRun(EMPTY, MISCOUNT);
    Counters.RunCounted(EMPTY, MISCOUNT);
    Counters.LeftMember(db, ConversationKind, A);
    NothingStale(MISCOUNT, B);
  }

  /**
   * One row, a new phone, and a request that leads to a conversation never seen:
   * the count was right before and wrong after, with row "a" still left behind.
   */
  lemma MiscountExample()
    ensures var db := Run(EMPTY, MISCOUNT);
      var r := FinishConversation(db, "s", Row("b", 1), map[], db.seen.versionSeq, 5);
      && Counters.Counted(db) && r.Done?
      && A in Counters.Left(r.db, ConversationKind) && !Counters.Exact(r.db, ConversationKind)
  {
    var db := Run(EMPTY, MISCOUNT);
    MiscountReady();
    RowFinishes(db, "b", 1, db.seen.versionSeq);
    Counters.FinishLeft(db, "s", Row("b", 1), map[], db.seen.versionSeq, 5);
    Counters.FinishExactIff(db, "s", Row("b", 1), map[], db.seen.versionSeq, 5);
  }

  // ---- a row moved back behind its newest message ----

  const LOWERING := [Applying(Row("b", 1), 1), Applying(Note("hello", "b", 9), 2), ASKING, CLAIMING]

  lemma NoteSummarised()
    ensures var db := Run(EMPTY, [Applying(Row("b", 1), 1), Applying(Note("hello", "b", 9), 2)]);
      Idle(db) && Shown(db, "b", "m") && TimeOf(db, "m") == 9 && InCache(db, "b", 9)
  {
    var one := Step(EMPTY, Applying(Row("b", 1), 1));
    var two := Step(one, Applying(Note("hello", "b", 9), 2));
    RunTwo(EMPTY, Applying(Row("b", 1), 1), Applying(Note("hello", "b", 9), 2));
    RowKeepsIdle(EMPTY, "b", 1, 1, one);
    RowLands(EMPTY, "b", 1, 1, one, Key(MessageKind, "m"));
    NoteKeepsIdle(one, "hello", "b", 9, 2, two);
    NoteLands(one, "hello", "b", 9, 2, two, B);
    HelloShows("b", 9);
    RememberReaches(one.newest, Note("hello", "b", 9).data.message, "b");
  }

  lemma LoweringRequested()
    ensures var db := Run(EMPTY, LOWERING);
      RequestSent(db, db, B) && Shown(db, "b", "m") && TimeOf(db, "m") == 9 && InCache(db, "b", 9)
  {
    var earlier := [Applying(Row("b", 1), 1), Applying(Note("hello", "b", 9), 2)];
    assert LOWERING == earlier + [ASKING, CLAIMING];
    RunSplit(EMPTY, earlier, [ASKING, CLAIMING]);
    NoteSummarised();
    Requested(Run(EMPTY, earlier), B);
    Requested(Run(EMPTY, earlier), Key(MessageKind, "m"));
  }

  lemma LoweringReady()
    ensures var db := Run(EMPTY, LOWERING);
      Floors(db, "b") && !ResultReaches(db, Row("b", 1), db.seen.versionSeq) && !Stale(db, B, Some(db.seen.versionSeq))
  {
    LoweringRequested();
    OrdinaryRun(EMPTY, LOWERING);
    RunFloors(EMPTY, LOWERING, "b");
    NothingStale(LOWERING, B);
  }

  /**
   * A row, a message at time 9, and a request the provider answers with its own
   * row of time 1: the row ends up earlier than its newest message.
   */
  lemma LoweringExample()
    ensures var db := Run(EMPTY, LOWERING);
      var r := FinishConversation(db, "s", Row("b", 1), map[], db.seen.versionSeq, 5);
      && Floors(db, "b") && r.Done?
      && IsConversation(r.db, "b") && RowOf(r.db, "b").updated == 1
      && Shown(r.db, "b", "m") && TimeOf(r.db, "m") == 9 && !Floors(r.db, "b")
  {
    var db := Run(EMPTY, LOWERING);
    LoweringRequested();
    LoweringReady();
    RowFinishes(db, "b", 1, db.seen.versionSeq);
    FinishFloorIff(db, "s", Row("b", 1), map[], db.seen.versionSeq, 5);
    FinishRow(db, "s", Row("b", 1), map[], db.seen.versionSeq, 5);
    FinishMessages(db, "s", Row("b", 1), map[], db.seen.versionSeq, 5, "b", "m");
  }

  // ---- a row as late as its newest message that does not show it ----

  lemma {:induction false} OrdinaryIsFaithful(db: DB, ts: seq<Txn>)
    requires forall t :: t in ts ==> Ordinary(t)
    ensures AllFaithful(db, ts)
    decreases |ts|
  {
    if ts != [] {
      assert Ordinary(ts[0]);
      OrdinaryIsFaithful(Step(db, ts[0]), ts[1..]);
    }
  }

  lemma NoteCached()
    ensures var db := Run(EMPTY, [Applying(Row("b", 1), 1), Applying(Note("hello", "b", 9), 2)]);
      "b" in db.newest && db.newest["b"].time == 9 && db.newest["b"].preview != ""
  {
    var one := Step(EMPTY, Applying(Row("b", 1), 1));
    var two := Step(one, Applying(Note("hello", "b", 9), 2));
    RunTwo(EMPTY, Applying(Row("b", 1), 1), Applying(Note("hello", "b", 9), 2));
    RowLands(EMPTY, "b", 1, 1, one, B);
    NoteLands(one, "hello", "b", 9, 2, two, B);
    HelloShows("b", 9);
  }

  /** The message is remembered, with what it shows, until the request is finished. */
  lemma NoteRemembered()
    ensures var db := Run(EMPTY, LOWERING);
      "b" in db.newest && db.newest["b"].time == 9 && db.newest["b"].preview != ""
  {
    var earlier := [Applying(Row("b", 1), 1), Applying(Note("hello", "b", 9), 2)];
    assert LOWERING == earlier + [ASKING, CLAIMING];
    RunSplit(EMPTY, earlier, [ASKING, CLAIMING]);
    NoteSummarised();
    NoteCached();
    Requested(Run(EMPTY, earlier), B);
  }

  /**
   * The same row and message, and a request the provider answers with its own row
   * of the very time of the message, without a preview: the row is as late as its
   * newest message and does not show it.
   */
  lemma UnlabelledExample()
    ensures var db := Run(EMPTY, LOWERING);
      var r := FinishConversation(db, "s", Row("b", 9), map[], db.seen.versionSeq, 5);
      && RowShowsNewest(db, "b") && r.Done? && !RowShowsNewest(r.db, "b")
  {
    var db := Run(EMPTY, LOWERING);
    LoweringRequested();
    NoteRemembered();
    OrdinaryIsFaithful(EMPTY, LOWERING);
    RunShows(EMPTY, LOWERING, "b");
    NothingStale(LOWERING, B);
    RowFinishes(db, "b", 9, db.seen.versionSeq);
    FinishShowsIff(db, "s", Row("b", 9), map[], db.seen.versionSeq, 5);
  }

  // ---- a withdrawn message still heads its conversation ----

  const SHOWN := Applying(Note("hello", "c", 1), 1)
  const WITHDRAWN := Applying(Note("", "c", 1), 2)

  lemma ShownExact()
    ensures var db := Run(EMPTY, [SHOWN]);
      && CacheExact(db) && MessagesNamed(db) && IsCurrent(db, "m")
      && db.log.latest[Key(MessageKind, "m")] == Note("hello", "c", 1).data
      && "c" in db.newest && db.newest["c"].messageID == "m" && db.newest["c"].time == 1
  {
    EmptyExact();
    CurrentAt(EMPTY, "m");
    RunOne(EMPTY, SHOWN);
    assert AllSteady(Step(EMPTY, SHOWN), []);
    assert AllSteady(EMPTY, [SHOWN]);
    RunExact(EMPTY, [SHOWN]);
    NoteLands(EMPTY, "hello", "c", 1, 1, Step(EMPTY, SHOWN), A);
    HelloShows("c", 1);
  }

  /** A message arrives and is then withdrawn: the cache goes on showing it. */
  lemma WithdrawnExample()
    ensures CacheExact(Run(EMPTY, [SHOWN])) && !CacheExact(Run(EMPTY, [SHOWN, WITHDRAWN]))
    ensures var db := Run(EMPTY, [SHOWN, WITHDRAWN]);
      "c" in db.newest && db.newest["c"].messageID == "m" && !Shown(db, "c", "m")
  {
    var one := Run(EMPTY, [SHOWN]);
    var two := Step(one, WITHDRAWN);
    RunOne(EMPTY, SHOWN);
    RunTwo(EMPTY, SHOWN, WITHDRAWN);
    ShownExact();
    CurrentAt(one, "m");
    BlankShowsNothing("c", 1);
    NoteFits(one, "", "c", 1, 2);
    NoteLands(one, "", "c", 1, 2, two, A);
    assert !Stale(one, Key(MessageKind, "m"), None);
    ApplyExactIff(one, Note("", "c", 1), map[], None, 2);
  }

  // ---- adoption claims a message later than its row ----

  const OLD_NOTE := Applying(Note("hello", "c", 9), 1)
  const OLDER_ROW := Applying(Row("c", 1), 3)
  const ADOPTION := [OLD_NOTE, REPLACING, OLDER_ROW]

  lemma AdoptionSteps() returns (one: DB, two: DB)
    ensures one == Step(EMPTY, OLD_NOTE) && two == Step(one, REPLACING) && Run(EMPTY, ADOPTION) == Step(two, OLDER_ROW)
    ensures two == NewEpoch(PairedSession(one, []))
    ensures NoteStored(EMPTY, one, Note("hello", "c", 9), Key(ConversationKind, "c"))
  {
    one := Step(EMPTY, OLD_NOTE);
    two := Step(one, REPLACING);
    assert ADOPTION == [OLD_NOTE, REPLACING] + [OLDER_ROW];
    RunSplit(EMPTY, [OLD_NOTE, REPLACING], [OLDER_ROW]);
    RunTwo(EMPTY, OLD_NOTE, REPLACING);
    RunOne(two, OLDER_ROW);
    NoteLands(EMPTY, "hello", "c", 9, 1, one, Key(ConversationKind, "c"));
    NoteKeepsIdle(EMPTY, "hello", "c", 9, 1, one);
    Replaced(one);
  }

  /** The message belongs to the earlier session, the row to this one, and the cache is empty. */
  lemma AdoptionReady()
    ensures var db := Run(EMPTY, ADOPTION);
      && LeftShown(db, "c", "m") && db.log.latest[Key(MessageKind, "m")] == Note("hello", "c", 9).data
      && IsConversation(db, "c") && RowOf(db, "c").updated == 1 && db.newest == map[]
  {
    var one, two := AdoptionSteps();
    var db := Run(EMPTY, ADOPTION);
    RowLands(two, "c", 1, 3, db, Key(MessageKind, "m"));
    HelloShows("c", 9);
  }

  lemma SteadyOne(db: DB, t: Txn)
    requires Steady(db, t)
    ensures AllSteady(db, [t])
  {
    assert [t][1..] == [];
  }

  lemma AdoptionSteady()
    ensures CacheExact(Run(EMPTY, ADOPTION))
  {
    var one, two := AdoptionSteps();
    CurrentAt(EMPTY, "m");
    EmptyExact();
    SteadyOne(two, OLDER_ROW);
    assert ADOPTION[1..] == [REPLACING, OLDER_ROW] && ADOPTION[1..][1..] == [OLDER_ROW];
    assert AllSteady(one, ADOPTION[1..]);
    assert AllSteady(EMPTY, ADOPTION);
    RunExact(EMPTY, ADOPTION);
  }

  lemma OrderlyOne(db: DB, t: Txn)
    requires Placed(db, t) && Grounded(db, t) && Filed(t)
    ensures AllOrderly(db, [t])
  {
    assert [t][1..] == [];
  }

  lemma AdoptionOrderly()
    ensures Searchable(Run(EMPTY, ADOPTION))
  {
    var one, two := AdoptionSteps();
    EmptySearchable();
    OrderlyOne(two, OLDER_ROW);
    assert ADOPTION[1..] == [REPLACING, OLDER_ROW] && ADOPTION[1..][1..] == [OLDER_ROW];
    assert AllOrderly(one, ADOPTION[1..]);
    assert AllOrderly(EMPTY, ADOPTION);
    RunSearchable(EMPTY, ADOPTION);
  }

  /**
   * A message at time 9, a new phone, and that phone's older row, of time 1:
   * everything holds of what is the session's own, but a search since time 5
   * that skips older rows does not find the message, and a rebuild would change
   * the cache. Once the stored records are adopted, the message is the session's,
   * later than its row, unknown to the cache and still not found.
   */
  lemma AdoptionExample()
    ensures var db := Run(EMPTY, ADOPTION);
      var r := Commit(db, AdoptStoredRecords(db));
      && CacheExact(db) && Searchable(db) && !NoneLater(db)
      && ReadableRows(StoredRows(db)) && "m" !in RecentIds(db, StoredRows(db), 5)
      && !CacheExact(r) && !Floors(r, "c")
      && Findable(r, 5, "m") && ReadableRows(StoredRows(r)) && "m" !in RecentIds(r, StoredRows(r), 5)
  {
    var db := Run(EMPTY, ADOPTION);
    var r := Commit(db, AdoptStoredRecords(db));
    AdoptionReady();
    AdoptionSteady();
    AdoptionOrderly();
    AdoptAt(db, "m");
    AdoptRow(db, "c");
    assert AheadOfCache(db.newest, db.log.latest[Key(MessageKind, "m")].message);
    AdoptExactIff(db);
    assert LeftShown(db, "c", "m") && Floors(db, "c");
    AdoptFloorIff(db, "c");
    forall c ensures RowNamed(r, c) { assert RowNamed(db, c); }
    NarrowScanIff(db, 5, "m");
    NarrowScanIff(r, 5, "m");
  }

  // ---- a message listed in a conversation it left ----

  const MOVED := Applying(Note("hello", "d", 1), 2)

  /** A message arrives, and then again in another conversation: the index still lists it in the first. */
  lemma MovedExample()
    ensures Indexed(Run(EMPTY, [SHOWN]).log)
    ensures var log := Run(EMPTY, [SHOWN, MOVED]).log;
      IndexKey("c", "m") in log.index && Belongs(log, "d", "m") && !Belongs(log, "c", "m") && !IndexExact(log)
  {
    var one := Run(EMPTY, [SHOWN]);
    var two := Step(one, MOVED);
    RunOne(EMPTY, SHOWN);
    RunTwo(EMPTY, SHOWN, MOVED);
    EmptySearchable();
    StepIndexed(EMPTY, SHOWN);
    ShownExact();
    NoteFits(one, "hello", "d", 1, 2);
    NoteLands(one, "hello", "d", 1, 2, two, A);
    FreshIndex(one, Note("hello", "d", 1), map[], 2);
    assert IndexKey("c", "m") in one.log.index <==> Belongs(one.log, "c", "m");
    FreshIndexExactIff(one, Note("hello", "d", 1), map[], 2);
  }
}
