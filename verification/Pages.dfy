/** The pages an import has read: one chain from the empty cursor, finite if the provider's cursors are. */
module Pages {
  import opened Records
  import opened Buckets
  import opened StoreSpec
  import opened Frames
  import opened HistoryJobs

  /** One successful checkpoint: the page at `previous` was taken, and the provider pointed to `next`. */
  datatype Page = Page(previous: Bytes, next: Bytes)

  /** The pages read since the job last started over. */
  ghost function ChainAfter(db: DB, t: Txn, h: string, chain: seq<Page>): seq<Page>
  {
    if Turns(db, t, h) then chain + [Page(t.previous, t.next)]
    else if StartsOver(db, t, Step(db, t), h) then []
    else chain
  }

  ghost function Chain(db: DB, ts: seq<Txn>, h: string, chain: seq<Page>): seq<Page>
    decreases |ts|
  {
    if ts == [] then chain else Chain(Step(db, ts[0]), ts[1..], h, ChainAfter(db, ts[0], h, chain))
  }

  function Tip(chain: seq<Page>): Bytes
  {
    if chain == [] then [] else Last(chain).next
  }

  function Last(chain: seq<Page>): Page
    requires chain != []
  {
    chain[|chain| - 1]
  }

  function Earlier(chain: seq<Page>): seq<Page>
    requires chain != []
  {
    chain[..|chain| - 1]
  }

  /** Each page was read from the cursor the page before it handed out, the first from the empty one, and only the last can end it. */
  ghost predicate LinkByLink(chain: seq<Page>)
  {
    chain != [] ==>
      && Last(chain).previous == Tip(Earlier(chain)) && LinkByLink(Earlier(chain))
      && (Earlier(chain) != [] ==> Tip(Earlier(chain)) != [])
  }

  function Read(chain: seq<Page>): set<Bytes>
  {
    if chain == [] then {} else Read(Earlier(chain)) + {Last(chain).previous}
  }

  /** Some page led back to a cursor already read. */
  ghost predicate Repeats(chain: seq<Page>)
  {
    chain != [] && (Repeats(Earlier(chain)) || (Last(chain).next != [] && Last(chain).next in Read(chain)))
  }

  /** What is stored for a job is exactly its chain: cursor, page count, pages seen, and completion. */
  ghost predicate FollowsChain(track: Track, chain: seq<Page>)
  {
    && LinkByLink(chain) && track.cursor == Tip(chain) && track.seen == Read(chain)
    && (track.job.None? ==> chain == [])
    && (track.job.Some? ==> track.job.value.pages == |chain|)
    && (chain != [] && Tip(chain) == [] <==> track.job.Some? && track.job.value.state.JobComplete?)
  }

  lemma ChainGrows(chain: seq<Page>, page: Page)
    ensures Earlier(chain + [page]) == chain && Last(chain + [page]) == page
  {
  }

  lemma TurnFollows(a: Track, b: Track, next: Bytes, chain: seq<Page>)
    requires Turned(a, b, next) && FollowsChain(a, chain)
    ensures FollowsChain(b, chain + [Page(a.cursor, next)])
  {
    ChainGrows(chain, Page(a.cursor, next));
  }

  lemma StartFollows(a: Track, b: Track, chain: seq<Page>)
    requires (Restarted(a, b) || Emptied(a, b)) && FollowsChain(a, chain)
    ensures FollowsChain(b, [])
  {
  }

  lemma StayFollows(a: Track, b: Track, chain: seq<Page>)
    requires (Quiet(a, b) || Stopped(a, b) || Resumed(a, b)) && FollowsChain(a, chain)
    ensures FollowsChain(b, chain)
  {
  }

  lemma StepFollows(db: DB, t: Txn, h: string, chain: seq<Page>)
    requires JobsNamed(db) && KeepsCursors(t) && FollowsChain(TrackOf(db, h), chain)
    ensures FollowsChain(TrackOf(Step(db, t), h), ChainAfter(db, t, h, chain))
  {
    StepTrack(db, t, h);
    var a, b := TrackOf(db, h), TrackOf(Step(db, t), h);
    if Turns(db, t, h) {
      TurnFollows(a, b, t.next, chain);
    } else if StartsOver(db, t, Step(db, t), h) {
      StartFollows(a, b, chain);
    } else {
      StayFollows(a, b, chain);
    }
  }

  /** In every legal run the stored progress of a job is its chain of pages. */
  lemma {:induction false} RunFollows(db: DB, ts: seq<Txn>, h: string, chain: seq<Page>)
    requires JobsNamed(db) && AllKeepCursors(ts) && FollowsChain(TrackOf(db, h), chain)
    ensures FollowsChain(TrackOf(Run(db, ts), h), Chain(db, ts, h, chain))
    decreases |ts|
  {
    if ts != [] {
      assert KeepsCursors(ts[0]);
      StepFollows(db, ts[0], h, chain);
      StepJobsNamed(db, ts[0]);
      RunFollows(Step(db, ts[0]), ts[1..], h, ChainAfter(db, ts[0], h, chain));
    }
  }

  /** `complete` means the whole chain was read: from the empty cursor, link by link, to the empty cursor. */
  lemma CompleteMeansWholeChain(ts: seq<Txn>, h: string)
    requires AllKeepCursors(ts)
    ensures var db, chain := Run(EMPTY, ts), Chain(EMPTY, ts, h, []);
      && LinkByLink(chain)
      && (HistoryTx(db, h).Found? && HistoryTx(db, h).job.state.JobComplete? <==> chain != [] && chain[|chain| - 1].next == [])
      && (HistoryTx(db, h).Found? ==> HistoryTx(db, h).job.pages == |chain|)
  {
    RunFollows(EMPTY, ts, h, []);
  }

  // ---- repeated cursors ----

  /** Without a repeat, every page was read from a cursor of its own. */
  lemma {:induction false} DistinctUntilRepeat(chain: seq<Page>)
    requires LinkByLink(chain) && !Repeats(chain)
    ensures |Read(chain)| == |chain|
    decreases |chain|
  {
    if chain != [] {
      var shorter := Earlier(chain);
      DistinctUntilRepeat(shorter);
      assert Last(chain).previous !in Read(shorter);
    }
  }

  lemma TurnRepeats(a: Track, b: Track, next: Bytes, chain: seq<Page>)
    requires Turned(a, b, next) && FollowsChain(a, chain) && !Repeats(chain)
    ensures Repeats(chain + [Page(a.cursor, next)]) <==> b.job.value.state.JobFailed?
    ensures b.job.value.state.JobFailed? ==> b.job.value.detail == REPEATED_CURSOR
  {
    ChainGrows(chain, Page(a.cursor, next));
  }

  /** The first page that leads back fails the job then and there, and no other page does. */
  lemma RepeatFailsAtOnce(db: DB, t: Txn, h: string, chain: seq<Page>)
    requires JobsNamed(db) && KeepsCursors(t) && FollowsChain(TrackOf(db, h), chain) && Turns(db, t, h) && !Repeats(chain)
    ensures var job := TrackOf(Step(db, t), h).job;
      && job.Some? && (Repeats(ChainAfter(db, t, h, chain)) <==> job.value.state.JobFailed?)
      && (job.value.state.JobFailed? ==> job.value.detail == REPEATED_CURSOR)
  {
    StepTrack(db, t, h);
    TurnRepeats(TrackOf(db, h), TrackOf(Step(db, t), h), t.next, chain);
  }

  /** Until a repeat, the cursors read since the last restart are all different and number exactly `pages`. */
  lemma PagesCountCursors(ts: seq<Txn>, h: string)
    requires AllKeepCursors(ts) && !Repeats(Chain(EMPTY, ts, h, []))
    ensures var db := Run(EMPTY, ts);
      HistoryTx(db, h).Found? ==> HistoryTx(db, h).job.pages == |SeenPages(db, h)|
  {
    RunFollows(EMPTY, ts, h, []);
    DistinctUntilRepeat(Chain(EMPTY, ts, h, []));
  }

  // ---- termination ----

  /** How many pages generation g can still turn when every cursor comes from U. */
  function PagesLeft(track: Track, g: nat, U: set<Bytes>): nat
  {
    if IsQueued(track) && Generation(track) == g then 1 + |U - track.seen - {track.cursor}| else 0
  }

  ghost function TurnCount(db: DB, ts: seq<Txn>, h: string, g: nat): nat
    decreases |ts|
  {
    if ts == [] then 0
    else
      TurnCount(Step(db, ts[0]), ts[1..], h, g)
        + if Turns(db, ts[0], h) && Generation(TrackOf(db, h)) == g then 1 else 0
  }

  ghost predicate FromProvider(t: Txn, U: set<Bytes>)
  {
    t.CheckpointTxn? ==> t.next == [] || t.next in U
  }

  lemma PagesLeftTurn(a: Track, b: Track, next: Bytes, g: nat, U: set<Bytes>)
    requires Turned(a, b, next) && Generation(a) == g && (next == [] || next in U)
    ensures PagesLeft(b, g, U) + 1 <= PagesLeft(a, g, U)
  {
    if IsQueued(b) {
      var left, after := U - a.seen - {a.cursor}, U - b.seen - {b.cursor};
      assert next in left;
      assert after == left - {next};
    }
  }

  /** Whatever else happens to a job gives its generation no more pages. */
  lemma PagesLeftStays(a: Track, b: Track, g: nat, U: set<Bytes>)
    requires Generation(a) >= g
    requires Restarted(a, b) || Emptied(a, b) || Quiet(a, b) || Stopped(a, b) || Resumed(a, b)
    ensures PagesLeft(b, g, U) <= PagesLeft(a, g, U) && Generation(b) >= g
  {
  }

  lemma PagesLeftStep(db: DB, t: Txn, h: string, g: nat, U: set<Bytes>)
    requires JobsNamed(db) && KeepsCursors(t) && FromProvider(t, U) && Generation(TrackOf(db, h)) >= g
    ensures PagesLeft(TrackOf(Step(db, t), h), g, U) + (if Turns(db, t, h) && Generation(TrackOf(db, h)) == g then 1 else 0)
         <= PagesLeft(TrackOf(db, h), g, U)
    ensures Generation(TrackOf(Step(db, t), h)) >= g
  {
    StepTrack(db, t, h);
    var a, b := TrackOf(db, h), TrackOf(Step(db, t), h);
    if !Turns(db, t, h) {
      PagesLeftStays(a, b, g, U);
    } else if Generation(a) == g {
      PagesLeftTurn(a, b, t.next, g, U);
    }
  }

  /** Each generation ends: it turns at most one page more than there are cursors it has not seen. */
  lemma {:induction false} ImportTerminates(db: DB, ts: seq<Txn>, h: string, g: nat, U: set<Bytes>)
    requires JobsNamed(db) && AllKeepCursors(ts) && Generation(TrackOf(db, h)) >= g
    requires forall t :: t in ts ==> FromProvider(t, U)
    ensures TurnCount(db, ts, h, g) <= PagesLeft(TrackOf(db, h), g, U)
    ensures TurnCount(db, ts, h, g) <= 1 + |U - SeenPages(db, h)|
    decreases |ts|
  {
    var track := TrackOf(db, h);
    if ts != [] {
      assert KeepsCursors(ts[0]) && FromProvider(ts[0], U);
      PagesLeftStep(db, ts[0], h, g, U);
      StepJobsNamed(db, ts[0]);
      ImportTerminates(Step(db, ts[0]), ts[1..], h, g, U);
    }
    SubsetSize(U - track.seen - {track.cursor}, U - track.seen);
  }

  lemma {:induction false} SubsetSize(a: set<Bytes>, b: set<Bytes>)
    requires a <= b
    ensures |a| <= |b|
  {
    if a != {} {
      var x :| x in a;
      SubsetSize(a - {x}, b - {x});
    }
  }
}
