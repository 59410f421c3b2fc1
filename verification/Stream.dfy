/** Server-sent events (internal/api/api.go) over wake-up hints (internal/bridge/hub.go). */
module Stream {
  import opened Records
  import opened StoreSpec
  import opened Frames
  import opened Engine
  import Replay

  const BATCH: nat := 100
  const LIVE_BUFFER: nat := 32

  // ---- the hub ----

  /** A one-slot wake channel, a bounded channel of live events, and a channel closed when the hub drops it. */
  class Subscription {
    var wake: bool
    var live: seq<Event>
    var done: bool

    constructor ()
      ensures !wake && live == [] && !done
    {
      wake, live, done := false, [], false;
    }
  }

  class Hub {
    var subscribers: set<Subscription>

    constructor ()
      ensures subscribers == {}
    {
      subscribers := {};
    }

    method Subscribe() returns (s: Subscription)
      modifies this
      ensures fresh(s) && !s.wake && s.live == [] && !s.done && subscribers == old(subscribers) + {s}
    {
      s := new Subscription();
      subscribers := subscribers + {s};
    }

    method Unsubscribe(s: Subscription)
      modifies this, s
      ensures subscribers == old(subscribers) - {s}
      ensures s.done == (old(s.done) || s in old(subscribers)) && s.wake == old(s.wake) && s.live == old(s.live)
    {
      if s in subscribers {
        subscribers := subscribers - {s};
        s.done := true;
      }
    }

    /** Fills every subscriber's wake slot; a full slot is left as it is. */
    method Notify()
      modifies subscribers
      ensures subscribers == old(subscribers)
      ensures forall s :: s in subscribers ==> s.wake && s.live == old(s.live) && s.done == old(s.done)
    {
      var rest := subscribers;
      while rest != {}
        invariant rest <= subscribers
        invariant forall s :: s in subscribers - rest ==> s.wake && s.live == old(s.live) && s.done == old(s.done)
        invariant forall s :: s in rest ==> s.wake == old(s.wake) && s.live == old(s.live) && s.done == old(s.done)
        decreases rest
      {
        var s :| s in rest;
        if !s.wake { s.wake := true; }
        rest := rest - {s};
      }
    }

    /** A subscriber too slow to buffer a live event is dropped, never handed a gap. */
    method Publish(e: Event)
      modifies this, subscribers
      ensures subscribers == set s | s in old(subscribers) && |old(s.live)| < LIVE_BUFFER
      ensures forall s :: s in old(subscribers) ==> s.wake == old(s.wake)
      ensures forall s :: s in subscribers ==> s.live == old(s.live) + [e] && s.done == old(s.done)
      ensures forall s :: s in old(subscribers) - subscribers ==> s.live == old(s.live) && s.done
    {
      var all := subscribers;
      var rest := all;
      var kept: set<Subscription> := {};
      while rest != {}
        invariant rest <= all == old(subscribers) == subscribers
        invariant kept == set s | s in all - rest && |old(s.live)| < LIVE_BUFFER
        invariant forall s :: s in all ==> s.wake == old(s.wake)
        invariant forall s :: s in kept ==> s.live == old(s.live) + [e] && s.done == old(s.done)
        invariant forall s :: s in all - rest - kept ==> s.live == old(s.live) && s.done
        invariant forall s :: s in rest ==> s.live == old(s.live) && s.done == old(s.done)
        decreases rest
      {
        var s :| s in rest;
        if |s.live| < LIVE_BUFFER {
          s.live := s.live + [e];
          kept := kept + {s};
        } else {
          s.done := true;
        }
        rest := rest - {s};
      }
      subscribers := kept;
    }
  }

  // ---- one connection ----

  datatype Frame = EventFrame(event: Event) | LiveFrame | TypingFrame(event: Event) | KeepaliveFrame

  /** What ends a wait: a hint, a live event still worth showing or not, the keep-alive timer, or the client leaving. */
  datatype Wakeup = Hinted | Typing(event: Event, stale: bool) | Ticked | Left

  /** One turn of the loop: what commits before its read, and how its wait ends if it comes to waiting. */
  datatype Turn = Turn(meanwhile: seq<Txn>, wakeup: Wakeup)

  function Delivered(frames: seq<Frame>): seq<Event>
  {
    if frames == [] then []
    else
      var last := frames[|frames| - 1];
      Delivered(frames[..|frames| - 1]) + if last.EventFrame? then [last.event] else []
  }

  function LiveMarks(frames: seq<Frame>): nat
  {
    if frames == [] then 0
    else LiveMarks(frames[..|frames| - 1]) + if frames[|frames| - 1].LiveFrame? then 1 else 0
  }

  lemma {:induction false} NoMarks(frames: seq<Frame>)
    requires LiveMarks(frames) == 0
    ensures forall i :: 0 <= i < |frames| ==> !frames[i].LiveFrame?
  {
    if frames != [] { NoMarks(frames[..|frames| - 1]); }
  }

  lemma OneMore(frames: seq<Frame>, f: Frame)
    ensures Delivered(frames + [f]) == Delivered(frames) + if f.EventFrame? then [f.event] else []
    ensures LiveMarks(frames + [f]) == LiveMarks(frames) + if f.LiveFrame? then 1 else 0
  {
    assert (frames + [f])[..|frames|] == frames;
  }

  /** One read of the loop: everything the store held, and how far the connection had got. */
  datatype Look = Look(events: seq<Event>, cursor: nat)

  /** The read found nothing new. Sequence numbers have 64 bits, so no store hands out the last one. */
  predicate Empty(look: Look)
  {
    look.cursor == |look.events| && look.cursor != MAX_UINT64
  }

  /** The first read that found nothing new is the m-th. */
  ghost predicate FirstEmpty(looks: seq<Look>, m: int)
  {
    0 <= m < |looks| && Empty(looks[m]) && forall j :: 0 <= j < m ==> !Empty(looks[j])
  }

  ghost predicate AnyEmpty(looks: seq<Look>)
  {
    exists m :: FirstEmpty(looks, m)
  }

  /** The marker at i ends the replay: it was sent on the first read that found nothing, everything that read held being delivered. */
  ghost predicate MarksRead(frames: seq<Frame>, looks: seq<Look>, from: nat, i: nat, m: int)
    requires i <= |frames|
  {
    FirstEmpty(looks, m) && from <= |looks[m].events| && Delivered(frames[..i]) == looks[m].events[from..]
  }

  ghost predicate MarkedAtRead(frames: seq<Frame>, looks: seq<Look>, from: nat)
  {
    forall i :: 0 <= i < |frames| && frames[i].LiveFrame? ==> exists m :: MarksRead(frames, looks, from, i, m)
  }

  lemma MarkedStays(frames: seq<Frame>, f: Frame, looks: seq<Look>, from: nat)
    requires MarkedAtRead(frames, looks, from) && !f.LiveFrame?
    ensures MarkedAtRead(frames + [f], looks, from)
  {
    var longer := frames + [f];
    forall i | 0 <= i < |longer| && longer[i].LiveFrame? ensures exists m :: MarksRead(longer, looks, from, i, m) {
      assert longer[..i] == frames[..i];
      var m :| MarksRead(frames, looks, from, i, m);
      assert MarksRead(longer, looks, from, i, m);
    }
  }

  /** The connection so far: everything after its cursor, in order, once; one marker, in its place, once a read has found nothing. */
  ghost predicate InOrder(frames: seq<Frame>, log: Log, from: nat, after: nat, looks: seq<Look>)
  {
    && Logged(log) && from <= after <= |log.events|
    && Delivered(frames) == log.events[from..after]
    && LiveMarks(frames) == (if AnyEmpty(looks) then 1 else 0)
    && MarkedAtRead(frames, looks, from)
  }

  method Send(frames: seq<Frame>, batch: seq<Event>, ghost log: Log, ghost from: nat, ghost after: nat, ghost looks: seq<Look>)
    returns (sent: seq<Frame>)
    requires InOrder(frames, log, from, after, looks)
    requires after + |batch| <= |log.events| && batch == log.events[after..after + |batch|]
    ensures InOrder(sent, log, from, after + |batch|, looks)
  {
    sent := frames;
    for i := 0 to |batch|
      invariant InOrder(sent, log, from, after + i, looks)
    {
      OneMore(sent, EventFrame(batch[i]));
      MarkedStays(sent, EventFrame(batch[i]), looks, from);
      assert batch[i] == log.events[after + i];
      sent := sent + [EventFrame(batch[i])];
    }
  }

  lemma LogGrows(frames: seq<Frame>, a: Log, b: Log, from: nat, after: nat, looks: seq<Look>)
    requires InOrder(frames, a, from, after, looks) && Logged(b) && a.events <= b.events
    ensures InOrder(frames, b, from, after, looks)
  {
    assert b.events[from..after] == a.events[from..after];
  }

  lemma Extra(frames: seq<Frame>, f: Frame, log: Log, from: nat, after: nat, looks: seq<Look>)
    requires InOrder(frames, log, from, after, looks) && (f.TypingFrame? || f.KeepaliveFrame?)
    ensures InOrder(frames + [f], log, from, after, looks)
  {
    OneMore(frames, f);
    MarkedStays(frames, f, looks, from);
  }

  /** One more read leaves the first empty one where it was, if there was one. */
  lemma LookedAgain(looks: seq<Look>, look: Look)
    ensures AnyEmpty(looks + [look]) <==> AnyEmpty(looks) || Empty(look)
    ensures forall m :: FirstEmpty(looks, m) ==> FirstEmpty(looks + [look], m)
    ensures !AnyEmpty(looks) && Empty(look) ==> FirstEmpty(looks + [look], |looks|)
  {
    var longer := looks + [look];
    forall m | FirstEmpty(looks, m) ensures FirstEmpty(longer, m) {}
    if m :| FirstEmpty(longer, m) {
      if m < |looks| {
        assert forall j :: 0 <= j <= m ==> longer[j] == looks[j];
        assert FirstEmpty(looks, m);
      }
    }
    if !AnyEmpty(looks) && Empty(look) {
      NoneEmpty(looks, |looks|);
      assert FirstEmpty(longer, |looks|);
    }
  }

  lemma {:induction false} NoneEmpty(looks: seq<Look>, n: nat)
    requires !AnyEmpty(looks) && n <= |looks|
    ensures forall j :: 0 <= j < n ==> !Empty(looks[j])
  {
    if n > 0 {
      NoneEmpty(looks, n - 1);
      assert !FirstEmpty(looks, n - 1);
    }
  }

  /** A read that found something, or not the first that found nothing. */
  lemma LookedOn(frames: seq<Frame>, log: Log, from: nat, after: nat, looks: seq<Look>, look: Look)
    requires InOrder(frames, log, from, after, looks) && (Empty(look) ==> AnyEmpty(looks))
    ensures InOrder(frames, log, from, after, looks + [look])
  {
    LookedAgain(looks, look);
    forall i | 0 <= i < |frames| && frames[i].LiveFrame? ensures exists m :: MarksRead(frames, looks + [look], from, i, m) {
      var m :| MarksRead(frames, looks, from, i, m);
      assert MarksRead(frames, looks + [look], from, i, m);
    }
  }

  /** The marker is sent on the first read that found nothing new. */
  lemma MarkLive(frames: seq<Frame>, log: Log, from: nat, looks: seq<Look>, look: Look)
    requires InOrder(frames, log, from, |log.events|, looks) && !AnyEmpty(looks)
    requires Empty(look) && look.events == log.events
    ensures InOrder(frames + [LiveFrame], log, from, |log.events|, looks + [look])
  {
    var longer, all := frames + [LiveFrame], looks + [look];
    OneMore(frames, LiveFrame);
    LookedAgain(looks, look);
    forall i | 0 <= i < |longer| && longer[i].LiveFrame? ensures exists m :: MarksRead(longer, all, from, i, m) {
      NoMarks(frames);
      assert longer[..i] == frames && log.events[from..|log.events|] == log.events[from..];
      assert MarksRead(longer, all, from, i, |looks|);
    }
  }

  /** The store as the n-th read finds it. */
  ghost function StoreAt(db: DB, turns: seq<Turn>, n: nat): DB
    requires n <= |turns|
  {
    if n == 0 then db else Run(StoreAt(db, turns, n - 1), turns[n - 1].meanwhile)
  }

  function Advanced(look: Look): nat
    requires look.cursor <= |look.events|
  {
    if look.cursor == MAX_UINT64 then look.cursor else Replay.Min(look.cursor + BATCH, |look.events|)
  }

  /** Each read saw the store as it then was, from where the read before it had got to. */
  ghost predicate LookedAt(db: DB, turns: seq<Turn>, from: nat, looks: seq<Look>, after: nat)
    requires |looks| <= |turns|
  {
    if looks == [] then after == from
    else
      var n := |looks| - 1;
      && looks[n].events == StoreAt(db, turns, n + 1).log.events
      && looks[n].cursor <= |looks[n].events| && after == Advanced(looks[n])
      && LookedAt(db, turns, from, looks[..n], looks[n].cursor)
  }

  /**
   * One connection, with the store going on at every turn. It is refused when its
   * cursor is ahead of the store; otherwise it gets exactly the events after its
   * cursor, in order, and one marker, on the first read that finds nothing new.
   */
  method Serve(store: Store, from: nat, turns: seq<Turn>)
    returns (served: Option<seq<Frame>>, ghost after: nat, ghost looks: seq<Look>)
    requires Logged(store.db.log)
    modifies store
    ensures served.Some? <==> from <= old(store.db).log.eventSeq
    ensures |looks| <= |turns| && store.db == StoreAt(old(store.db), turns, |looks|) && LookedAt(old(store.db), turns, from, looks, after)
    ensures served.Some? ==> InOrder(served.value, store.db.log, from, after, looks)
    ensures served.Some? && |looks| < |turns| ==> looks != [] && (turns[|looks| - 1].wakeup.Left? || after == MAX_UINT64)
  {
    after, looks := from, [];
    if from > store.db.log.eventSeq { return None, after, looks; }
    ghost var start := store.db;
    var frames: seq<Frame> := [];
    var cursor, caught := from, false;
    var i := 0;
    while i < |turns|
      invariant 0 <= i <= |turns| && |looks| == i && caught == AnyEmpty(looks)
      invariant store.db == StoreAt(start, turns, i) && LookedAt(start, turns, from, looks, cursor)
      invariant InOrder(frames, store.db.log, from, cursor, looks)
    {
      ghost var before, at := store.db.log, cursor;
      RunEvolves(store.db, turns[i].meanwhile, Key(UploadKind, ""));
      store.Interleave(turns[i].meanwhile);
      LogGrows(frames, before, store.db.log, from, cursor, looks);
      var left;
      frames, cursor, caught, left := Take(store, frames, from, cursor, caught, turns[i].wakeup, looks);
      assert (looks + [Look(store.db.log.events, at)])[..i] == looks;
      looks := looks + [Look(store.db.log.events, at)];
      i := i + 1;
      if left { break; }
    }
    return Some(frames), cursor, looks;
  }

  /** One turn: read, mark the end of the replay if this is it, deliver, and wait only if there was nothing to deliver. */
  method Take(store: Store, frames: seq<Frame>, ghost from: nat, cursor: nat, caughtUp: bool, wakeup: Wakeup, ghost looks: seq<Look>)
    returns (sent: seq<Frame>, after: nat, caught: bool, left: bool)
    requires InOrder(frames, store.db.log, from, cursor, looks) && caughtUp == AnyEmpty(looks)
    ensures var look := Look(store.db.log.events, cursor);
      && InOrder(sent, store.db.log, from, after, looks + [look])
      && caught == AnyEmpty(looks + [look]) && after == Advanced(look)
    ensures left ==> wakeup.Left? || after == MAX_UINT64
  {
    ghost var look := Look(store.db.log.events, cursor);
    sent, after, caught, left := frames, cursor, caughtUp, false;
    var read := Replay.Events(store.db.log, cursor, BATCH);
    var batch := read.value;
    LookedAgain(looks, look);
    if batch != [] {
      LookedOn(frames, store.db.log, from, cursor, looks, look);
      sent := Send(sent, batch, store.db.log, from, cursor, looks + [look]);
      after := cursor + |batch|;
      return;
    }
    // Sequence numbers have 64 bits, so no store hands out the last one.
    if cursor == MAX_UINT64 {
      LookedOn(frames, store.db.log, from, cursor, looks, look);
      return sent, after, caught, true;
    }
    if caught {
      LookedOn(frames, store.db.log, from, cursor, looks, look);
    } else {
      MarkLive(sent, store.db.log, from, looks, look);
      sent, caught := sent + [LiveFrame], true;
    }
    match wakeup {
      case Hinted =>
      case Typing(e, stale) =>
        if !stale {
          Extra(sent, TypingFrame(e), store.db.log, from, after, looks + [look]);
          sent := sent + [TypingFrame(e)];
        }
      case Ticked =>
        Extra(sent, KeepaliveFrame, store.db.log, from, after, looks + [look]);
        sent := sent + [KeepaliveFrame];
      case Left => left := true;
    }
  }

  // ---- wake-ups, over every interleaving of writers and connections ----

  datatype Phase = Reading | Waiting

  /** A connection's cursor, whether it waits, and its wake slot. */
  datatype Conn = Conn(after: nat, phase: Phase, wake: bool)

  /** Events committed, writers that have committed and not yet notified, and the open connections. */
  datatype Net = Net(length: nat, owing: nat, conns: map<nat, Conn>)

  datatype Act =
    | Commits(events: nat)
    | Notifies
    | Opens(id: nat, after: nat)
    | Reads(id: nat)
    | Wakes(id: nat)
    | TimesOut(id: nat)
    | Closes(id: nat)

  function ReadNext(c: Conn, length: nat): Conn
    requires c.after <= length
  {
    var n := if length - c.after < BATCH then length - c.after else BATCH;
    if n == 0 then c.(phase := Waiting) else c.(after := c.after + n)
  }

  /** An act that is not possible changes nothing. */
  function Next(net: Net, a: Act): Net
  {
    match a
    case Commits(events) => if events == 0 then net else net.(length := net.length + events, owing := net.owing + 1)
    case Notifies =>
      net.(owing := if net.owing == 0 then 0 else net.owing - 1, conns := map id | id in net.conns :: net.conns[id].(wake := true))
    case Opens(id, after) =>
      if id in net.conns || after > net.length then net
      else net.(conns := net.conns[id := Conn(after, Reading, false)])
    case Reads(id) =>
      if id !in net.conns || net.conns[id].phase.Waiting? || net.conns[id].after > net.length then net
      else net.(conns := net.conns[id := ReadNext(net.conns[id], net.length)])
    case Wakes(id) =>
      if id !in net.conns || !net.conns[id].phase.Waiting? || !net.conns[id].wake then net
      else net.(conns := net.conns[id := net.conns[id].(phase := Reading, wake := false)])
    case TimesOut(id) =>
      if id !in net.conns || !net.conns[id].phase.Waiting? then net
      else net.(conns := net.conns[id := net.conns[id].(phase := Reading)])
    case Closes(id) => net.(conns := net.conns - {id})
  }

  /** A connection that waits with events undelivered has its slot full, or some writer has yet to notify. */
  predicate Reminded(net: Net, id: nat)
  {
    id in net.conns ==>
      var c := net.conns[id];
      c.after <= net.length && (c.phase.Waiting? && c.after < net.length ==> c.wake || net.owing > 0)
  }

  function RunNet(net: Net, acts: seq<Act>): Net
    decreases |acts|
  {
    if acts == [] then net else RunNet(Next(net, acts[0]), acts[1..])
  }

  lemma {:induction false} NoLostWakeup(net: Net, acts: seq<Act>, id: nat)
    requires Reminded(net, id)
    ensures Reminded(RunNet(net, acts), id)
    decreases |acts|
  {
    if acts != [] { NoLostWakeup(Next(net, acts[0]), acts[1..], id); }
  }

  /** So a connection asleep with an empty slot, while no writer is about to notify, has had everything. */
  lemma AsleepIsCaughtUp(acts: seq<Act>, id: nat)
    requires var net := RunNet(Net(0, 0, map[]), acts);
      net.owing == 0 && id in net.conns && net.conns[id].phase.Waiting? && !net.conns[id].wake
    ensures var net := RunNet(Net(0, 0, map[]), acts); net.conns[id].after == net.length
  {
    NoLostWakeup(Net(0, 0, map[]), acts, id);
  }

  // ---- the hub and the store take these steps ----

  /** An open connection: how far it has got, and its subscription. */
  datatype Link = Link(after: nat, phase: Phase, sub: Subscription)

  lemma CommitGrows(db: DB, t: Txn)
    ensures |db.log.events| <= |Step(db, t).log.events|
  {
    StepEvolves(db, t, Key(UploadKind, ""));
  }

  function ConnOf(link: Link): Conn
    reads link.sub
  {
    Conn(link.after, link.phase, link.sub.wake)
  }

  /** A connection delivers the next events, or goes to wait when there are none. */
  method ReadOn(log: Log, link: Link) returns (next: Link)
    requires Logged(log) && |log.events| <= MAX_UINT64 && link.after <= |log.events|
    ensures next.sub == link.sub && ConnOf(next) == ReadNext(ConnOf(link), |log.events|)
  {
    var batch := Replay.Events(log, link.after, BATCH);
    if batch.value == [] { return link.(phase := Waiting); }
    return link.(after := link.after + |batch.value|);
  }

  /** The store, the hub and the open connections; `owing` counts the writers that have committed and not yet notified. */
  class Server {
    const store: Store
    const hub: Hub
    var links: map<nat, Link>
    ghost var owing: nat

    constructor (file: Store)
      ensures store == file && fresh(hub) && Valid() && Now() == Net(|file.db.log.events|, 0, map[])
    {
      store, links, owing := file, map[], 0;
      hub := new Hub();
    }

    /** Each connection has a subscription of its own, which the hub knows. */
    ghost predicate Valid()
      reads this, hub
    {
      && (forall id :: id in links ==> links[id].sub in hub.subscribers)
      && (forall i, j :: i in links && j in links && links[i].sub == links[j].sub ==> i == j)
    }

    ghost function Conns(): map<nat, Conn>
      reads this`links, set id | id in links :: links[id].sub
    {
      map id | id in links :: ConnOf(links[id])
    }

    ghost function Now(): Net
      reads this, store, set id | id in links :: links[id].sub
    {
      Net(|store.db.log.events|, owing, Conns())
    }

    method Perform(t: Txn) returns (grown: nat)
      requires Valid()
      modifies store
      ensures store.db == Step(old(store.db), t) && old(|store.db.log.events|) + grown == |store.db.log.events|
      ensures Conns() == old(Conns())
    {
      var before := |store.db.log.events|;
      CommitGrows(store.db, t);
      store.Perform(t);
      grown := |store.db.log.events| - before;
    }

    /** A writer commits one transaction; it owes a notification if that logged anything. */
    method Commit(t: Txn)
      requires Valid()
      modifies this, store
      ensures Valid() && store.db == Step(old(store.db), t) && old(|store.db.log.events|) <= |store.db.log.events|
      ensures Now() == Next(old(Now()), Commits(|store.db.log.events| - old(|store.db.log.events|)))
    {
      var grown := Perform(t);
      if grown > 0 { owing := owing + 1; }
    }

    method Notify()
      requires Valid()
      modifies this, hub.subscribers
      ensures Valid() && Now() == Next(old(Now()), Notifies)
    {
      hub.Notify();
      if owing > 0 { owing := owing - 1; }
    }

    /** A connection subscribes before it reads anything. */
    method Open(id: nat, after: nat)
      requires Valid()
      modifies this, hub
      ensures Valid() && Now() == Next(old(Now()), Opens(id, after))
    {
      if id in links || after > |store.db.log.events| { return; }
      var s := hub.Subscribe();
      links := links[id := Link(after, Reading, s)];
    }

    method Read(id: nat)
      requires Valid() && Logged(store.db.log) && |store.db.log.events| <= MAX_UINT64
      modifies this
      ensures Valid() && Now() == Next(old(Now()), Reads(id))
    {
      if id !in links || links[id].phase.Waiting? || links[id].after > |store.db.log.events| { return; }
      var next := ReadOn(store.db.log, links[id]);
      links := links[id := next];
    }

    /** A waiting connection empties its slot and goes on. */
    method Wake(id: nat)
      requires Valid()
      modifies this, hub.subscribers
      ensures Valid() && Now() == Next(old(Now()), Wakes(id))
    {
      if id !in links || !links[id].phase.Waiting? || !links[id].sub.wake { return; }
      links[id].sub.wake := false;
      links := links[id := links[id].(phase := Reading)];
    }

    method TimeOut(id: nat)
      requires Valid()
      modifies this
      ensures Valid() && Now() == Next(old(Now()), TimesOut(id))
    {
      if id !in links || !links[id].phase.Waiting? { return; }
      links := links[id := links[id].(phase := Reading)];
    }

    method Close(id: nat)
      requires Valid()
      modifies this, hub, hub.subscribers
      ensures Valid() && Now() == Next(old(Now()), Closes(id))
    {
      if id !in links { return; }
      hub.Unsubscribe(links[id].sub);
      links := links - {id};
    }
  }
}
