/** What opening a file leaves: derived buckets that say what the stored messages say, and a watermark above everything. */
module Opening {
  import opened Records
  import opened Buckets
  import opened StoreSpec
  import opened Frames
  import opened Newest
  import opened Rows
  import opened Search
  import opened Previews

  /** The observation of k is numbered by the observations' own sequence, or by the events' as in older files. */
  ghost predicate Bounded(db: DB, k: Key)
  {
    k in db.seen.versions ==> db.seen.versions[k] <= db.seen.versionSeq || db.seen.versions[k] <= db.log.eventSeq
  }

  /** Bringing rows up to date touches rows and their observations only. */
  ghost predicate OnlyRows(a: DB, b: DB, k: Key)
  {
    && b == a.(log := b.log, seen := b.seen)
    && (k.kind != ConversationKind ==> SameAt(a.log, b.log, k)) && b.log.index == a.log.index
    && (Bounded(a, k) ==> Bounded(b, k))
  }

  lemma {:induction false} MergeRowsFrame(db: DB, newest: map<string, LatestMessage>, ids: seq<string>, now: Time, k: Key)
    requires (forall id :: id in ids ==> id in newest) && MergeRows(db, newest, ids, now).Done?
    ensures OnlyRows(db, MergeRows(db, newest, ids, now).db, k)
    decreases |ids|
  {
    if ids != [] {
      var next := UpdateConversationTx(db, ids[0], Merge(newest[ids[0]], None), now).db;
      RowFrame(db, ids[0], Merge(newest[ids[0]], None), now, k);
      MergeRowsFrame(next, newest, ids[1..], now, k);
    }
  }

  lemma PreviewsFrame(db: DB, now: Time, k: Key)
    requires EnsureConversationPreviews(db, now).Done?
    ensures var r := EnsureConversationPreviews(db, now).db;
      && r == db.(log := r.log, seen := r.seen, newest := r.newest)
      && (k.kind != ConversationKind ==> SameAt(db.log, r.log, k)) && r.log.index == db.log.index
      && (Bounded(db, k) ==> Bounded(r, k))
  {
    var newest := NewestFrom(Messages(db, SortedKeys(KindIds(db.log.latest, MessageKind))), map[]);
    MergeRowsFrame(db.(newest := newest), newest, SortedKeys(newest.Keys), now, k);
  }

  /** The two derived buckets before the sequence is lifted. */
  ghost function Derived(db: DB, hasIndex: bool, hasNewest: bool, now: Time): Outcome<bool>
  {
    var (indexed, _) :- if hasIndex then Done(db, true) else EnsureMessageIndex(db);
    if hasNewest then Done(indexed, true) else EnsureConversationPreviews(indexed, now)
  }

  lemma OpenDerives(db: DB, hasIndex: bool, hasNewest: bool, now: Time)
    requires Open(db, hasIndex, hasNewest, now).Done?
    ensures var derived, r := Derived(db, hasIndex, hasNewest, now), Open(db, hasIndex, hasNewest, now).db;
      && derived.Done? && r == derived.db.(seen := r.seen) && r.seen == derived.db.seen.(versionSeq := r.seen.versionSeq)
      && r.seen.versionSeq >= derived.db.seen.versionSeq && r.seen.versionSeq >= r.log.eventSeq
  {
  }

  /** The index built or kept, and the messages it is about, as they were. */
  lemma DerivedIndex(db: DB, hasIndex: bool, hasNewest: bool, now: Time)
    requires MessagesNamed(db) && ConversationsNulFree(db.log) && Derived(db, hasIndex, hasNewest, now).Done?
    requires hasIndex ==> Indexed(db.log)
    ensures Indexed(Derived(db, hasIndex, hasNewest, now).db.log)
  {
    var indexed := if hasIndex then db else EnsureMessageIndex(db).db;
    if !hasIndex { RebuiltIndexIsExact(db); }
    if !hasNewest {
      var r := EnsureConversationPreviews(indexed, now).db;
      PreviewsFrame(indexed, now, Key(MessageKind, ""));
      forall id ensures SameAt(indexed.log, r.log, Key(MessageKind, id)) { PreviewsFrame(indexed, now, Key(MessageKind, id)); }
      SameIndexed(indexed.log, r.log);
    }
  }

  /** A file without the cache gets the one its messages determine, those of earlier sessions included, and rows to match. */
  lemma DerivedCache(db: DB, hasIndex: bool, now: Time, c: string)
    requires MessagesNamed(db) && Derived(db, hasIndex, false, now).Done?
    ensures var r := Derived(db, hasIndex, false, now).db;
      ExactCache(r.newest, CurrentMessages(Commit(db, AdoptStoredRecords(db)))) && RowFollows(r, c)
  {
    var indexed := if hasIndex then db else EnsureMessageIndex(db).db;
    var ids := SortedKeys(KindIds(db.log.latest, MessageKind));
    var newest := NewestFrom(Messages(indexed, ids), map[]);
    forall id ensures MessageNamed(indexed, id) { assert MessageNamed(db, id); }
    RebuildReads(indexed);
    RebuildFollows(indexed, now, c);
    MergeRowsKeepsCache(indexed.(newest := newest), newest, SortedKeys(newest.Keys), now);
    SameOwnTable(db, indexed);
  }

  lemma SameOwnTable(a: DB, b: DB)
    requires b == a.(log := a.log.(index := b.log.index))
    ensures CurrentMessages(Commit(b, AdoptStoredRecords(b))) == CurrentMessages(Commit(a, AdoptStoredRecords(a)))
  {
    var x, y := Commit(a, AdoptStoredRecords(a)), Commit(b, AdoptStoredRecords(b));
    assert OwnedKeys(a) == OwnedKeys(b);
    forall id ensures (id in CurrentMessages(x) <==> id in CurrentMessages(y))
                   && (id in CurrentMessages(x) ==> CurrentMessages(x)[id] == CurrentMessages(y)[id]) {
      CurrentAt(x, id);
      CurrentAt(y, id);
    }
  }

  /**
   * An opened file: its index lists exactly the stored messages; a cache it did not
   * have is the one its messages determine, and rows show what it says; and every
   * observation ever numbered, by events as in older files or since, lies at or
   * below the watermark, so that the next one is above them all.
   */
  lemma OpenedFile(db: DB, hasIndex: bool, hasNewest: bool, now: Time, k: Key, c: string)
    requires MessagesNamed(db) && ConversationsNulFree(db.log) && (hasIndex ==> Indexed(db.log))
    requires Bounded(db, k) && Open(db, hasIndex, hasNewest, now).Done?
    ensures var r := Open(db, hasIndex, hasNewest, now).db;
      && Indexed(r.log)
      && (if hasNewest then r.newest == db.newest
          else ExactCache(r.newest, CurrentMessages(Commit(db, AdoptStoredRecords(db)))) && RowFollows(r, c))
      && (k.kind != ConversationKind ==> SameAt(db.log, r.log, k)) && Numbered(r.seen, k) && r.log.eventSeq <= r.seen.versionSeq
  {
    OpenDerives(db, hasIndex, hasNewest, now);
    DerivedIndex(db, hasIndex, hasNewest, now);
    var indexed := if hasIndex then db else EnsureMessageIndex(db).db;
    if !hasNewest {
      DerivedCache(db, hasIndex, now, c);
      PreviewsFrame(indexed, now, k);
    }
  }
}
