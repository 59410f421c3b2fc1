/** The reaction list of a message (internal/whatsapp/events.go) is each sender's last choice. */
module Reactions {
  import opened Records

  /** One reaction event; an empty emoji takes the sender's reaction back. */
  datatype Reacting = Reacting(sender: string, emoji: string)

  // ---- the list, as the source rebuilds it ----

  function Without(people: seq<string>, who: string): seq<string>
  {
    if people == [] then []
    else
      var last := people[|people| - 1];
      Without(people[..|people| - 1], who) + if last == who then [] else [last]
  }

  /** The sender leaves every group; a group left empty is dropped. */
  function Stripped(groups: seq<Reaction>, who: string): seq<Reaction>
  {
    if groups == [] then []
    else
      var last := groups[|groups| - 1];
      var people := Without(last.participants, who);
      Stripped(groups[..|groups| - 1], who) + if people == [] then [] else [Reaction(last.emoji, people)]
  }

  function JoinedOne(g: Reaction, emoji: string, who: string): Reaction
  {
    if g.emoji == emoji then g.(participants := g.participants + [who]) else g
  }

  function Joined(groups: seq<Reaction>, emoji: string, who: string): (joined: seq<Reaction>)
    ensures |joined| == |groups|
  {
    if groups == [] then [] else Joined(groups[..|groups| - 1], emoji, who) + [JoinedOne(groups[|groups| - 1], emoji, who)]
  }

  lemma {:induction false} JoinedAt(groups: seq<Reaction>, emoji: string, who: string, k: nat)
    requires k < |groups|
    ensures Joined(groups, emoji, who)[k] == JoinedOne(groups[k], emoji, who)
  {
    if k < |groups| - 1 { JoinedAt(groups[..|groups| - 1], emoji, who, k); }
  }

  predicate HasEmoji(groups: seq<Reaction>, emoji: string)
  {
    exists i :: 0 <= i < |groups| && groups[i].emoji == emoji
  }

  function Placed(groups: seq<Reaction>, e: Reacting): seq<Reaction>
  {
    if e.emoji == "" then groups
    else if HasEmoji(groups, e.emoji) then Joined(groups, e.emoji, e.sender)
    else groups + [Reaction(e.emoji, [e.sender])]
  }

  function Reacted(groups: seq<Reaction>, e: Reacting): seq<Reaction>
  {
    Placed(Stripped(groups, e.sender), e)
  }

  method Strip(people: seq<string>, who: string) returns (others: seq<string>)
    ensures others == Without(people, who)
  {
    others := [];
    for i := 0 to |people|
      invariant others == Without(people[..i], who)
    {
      assert people[..i + 1][..i] == people[..i];
      if people[i] != who { others := others + [people[i]]; }
    }
    assert people[..|people|] == people;
  }

  method React(groups: seq<Reaction>, e: Reacting) returns (reactions: seq<Reaction>)
    ensures reactions == Reacted(groups, e)
  {
    reactions := [];
    for i := 0 to |groups|
      invariant reactions == Stripped(groups[..i], e.sender)
    {
      assert groups[..i + 1][..i] == groups[..i];
      var people := Strip(groups[i].participants, e.sender);
      if |people| > 0 { reactions := reactions + [groups[i].(participants := people)]; }
    }
    assert groups[..|groups|] == groups;
    if e.emoji == "" { return; }
    ghost var stripped := reactions;
    var n := |reactions|;
    var found := false;
    for i := 0 to n
      invariant |reactions| == |stripped|
      invariant found <==> exists k :: 0 <= k < i && stripped[k].emoji == e.emoji
      invariant forall k :: 0 <= k < |stripped| ==>
        reactions[k] == if k < i then JoinedOne(stripped[k], e.emoji, e.sender) else stripped[k]
    {
      if reactions[i].emoji == e.emoji {
        reactions := reactions[i := reactions[i].(participants := reactions[i].participants + [e.sender])];
        found := true;
      }
    }
    if !found {
      assert reactions == stripped;
      reactions := reactions + [Reaction(e.emoji, [e.sender])];
    } else {
      forall k | 0 <= k < n ensures reactions[k] == Joined(stripped, e.emoji, e.sender)[k] { JoinedAt(stripped, e.emoji, e.sender, k); }
      assert reactions == Joined(stripped, e.emoji, e.sender);
    }
  }

  // ---- who reacts with what ----

  predicate Reacts(groups: seq<Reaction>, who: string, emoji: string)
  {
    exists i :: 0 <= i < |groups| && groups[i].emoji == emoji && who in groups[i].participants
  }

  lemma {:induction false} WithoutMember(people: seq<string>, who: string, x: string)
    ensures x in Without(people, who) <==> x in people && x != who
  {
    if people != [] {
      var n := |people| - 1;
      assert people == people[..n] + [people[n]];
      WithoutMember(people[..n], who, x);
    }
  }

  lemma ReactsSplit(groups: seq<Reaction>, who: string, emoji: string)
    requires groups != []
    ensures var n := |groups| - 1;
      Reacts(groups, who, emoji) <==>
        Reacts(groups[..n], who, emoji) || (groups[n].emoji == emoji && who in groups[n].participants)
  {
    var n := |groups| - 1;
    var shorter := groups[..n];
    if i :| 0 <= i < |groups| && groups[i].emoji == emoji && who in groups[i].participants {
      if i < n { assert shorter[i] == groups[i]; }
    }
    if i :| 0 <= i < n && shorter[i].emoji == emoji && who in shorter[i].participants {
      assert groups[i] == shorter[i];
    }
  }

  lemma ReactsAppend(groups: seq<Reaction>, g: Reaction, who: string, emoji: string)
    ensures Reacts(groups + [g], who, emoji) <==> Reacts(groups, who, emoji) || (g.emoji == emoji && who in g.participants)
  {
    ReactsSplit(groups + [g], who, emoji);
    assert (groups + [g])[..|groups|] == groups;
  }

  lemma {:induction false} StrippedReacts(groups: seq<Reaction>, who: string, x: string, emoji: string)
    ensures Reacts(Stripped(groups, who), x, emoji) <==> Reacts(groups, x, emoji) && x != who
  {
    if groups != [] {
      var n := |groups| - 1;
      var rest, people := Stripped(groups[..n], who), Without(groups[n].participants, who);
      StrippedReacts(groups[..n], who, x, emoji);
      ReactsSplit(groups, x, emoji);
      WithoutMember(groups[n].participants, who, x);
      ReactsAppend(rest, Reaction(groups[n].emoji, people), x, emoji);
      if people == [] { assert rest + [] == rest; }
    }
  }

  lemma JoinedReacts(groups: seq<Reaction>, e: Reacting, x: string, emoji: string)
    requires HasEmoji(groups, e.emoji)
    ensures Reacts(Joined(groups, e.emoji, e.sender), x, emoji) <==>
              Reacts(groups, x, emoji) || (x == e.sender && emoji == e.emoji)
  {
    var joined := Joined(groups, e.emoji, e.sender);
    forall k | 0 <= k < |groups| ensures joined[k] == JoinedOne(groups[k], e.emoji, e.sender) { JoinedAt(groups, e.emoji, e.sender, k); }
    if i :| 0 <= i < |groups| && groups[i].emoji == emoji && x in groups[i].participants { assert x in joined[i].participants; }
    if x == e.sender && emoji == e.emoji {
      var i :| 0 <= i < |groups| && groups[i].emoji == e.emoji;
      assert x in joined[i].participants;
    }
  }

  /** The event sets or clears the sender's own reaction, and nobody else's, whatever the list looked like. */
  lemma ReactedReacts(groups: seq<Reaction>, e: Reacting, x: string, emoji: string)
    ensures Reacts(Reacted(groups, e), x, emoji) <==>
              if x == e.sender then emoji == e.emoji && e.emoji != "" else Reacts(groups, x, emoji)
  {
    var stripped := Stripped(groups, e.sender);
    StrippedReacts(groups, e.sender, x, emoji);
    if e.emoji != "" {
      if HasEmoji(stripped, e.emoji) { JoinedReacts(stripped, e, x, emoji); }
      else { ReactsAppend(stripped, Reaction(e.emoji, [e.sender]), x, emoji); }
    }
  }

  // ---- over any sequence of events ----

  function Last(events: seq<Reacting>): Reacting
    requires events != []
  {
    events[|events| - 1]
  }

  /** The list after all events, from a message without reactions. */
  function RunList(events: seq<Reacting>): seq<Reaction>
  {
    if events == [] then [] else Reacted(RunList(events[..|events| - 1]), Last(events))
  }

  /** Each sender's last choice, by plain assignment and removal. */
  function RunMap(events: seq<Reacting>): map<string, string>
  {
    if events == [] then map[]
    else
      var before := RunMap(events[..|events| - 1]);
      if Last(events).emoji == "" then before - {Last(events).sender} else before[Last(events).sender := Last(events).emoji]
  }

  /** The list refines the last-writer map: it shows exactly each sender's last choice. */
  lemma {:induction false} ListIsLastWriter(events: seq<Reacting>, who: string, emoji: string)
    ensures Reacts(RunList(events), who, emoji) <==> who in RunMap(events) && RunMap(events)[who] == emoji
  {
    if events != [] {
      ListIsLastWriter(events[..|events| - 1], who, emoji);
      ReactedReacts(RunList(events[..|events| - 1]), Last(events), who, emoji);
    }
  }

  predicate NoRepeats(people: seq<string>)
  {
    people == [] || (people[|people| - 1] !in people[..|people| - 1] && NoRepeats(people[..|people| - 1]))
  }

  /** Groups have distinct emoji, and each names at least one person, none twice. */
  predicate Proper(groups: seq<Reaction>)
  {
    groups != [] ==>
      var last := groups[|groups| - 1];
      && Proper(groups[..|groups| - 1]) && !HasEmoji(groups[..|groups| - 1], last.emoji)
      && last.emoji != "" && last.participants != [] && NoRepeats(last.participants)
  }

  lemma {:induction false} WithoutNoRepeats(people: seq<string>, who: string)
    requires NoRepeats(people)
    ensures NoRepeats(Without(people, who))
  {
    if people != [] {
      var n := |people| - 1;
      var rest := Without(people[..n], who);
      WithoutNoRepeats(people[..n], who);
      WithoutMember(people[..n], who, people[n]);
      if people[n] == who { assert rest + [] == rest; } else { assert (rest + [people[n]])[..|rest|] == rest; }
    }
  }

  lemma {:induction false} StrippedHas(groups: seq<Reaction>, who: string, emoji: string)
    ensures HasEmoji(Stripped(groups, who), emoji) ==> HasEmoji(groups, emoji)
  {
    if groups != [] {
      var n := |groups| - 1;
      StrippedHas(groups[..n], who, emoji);
      if HasEmoji(groups[..n], emoji) {
        var i :| 0 <= i < n && groups[..n][i].emoji == emoji;
        assert groups[i].emoji == emoji;
      }
      assert groups[n].emoji == emoji ==> HasEmoji(groups, emoji);
      var rest := Stripped(groups[..n], who);
      if HasEmoji(Stripped(groups, who), emoji) && !HasEmoji(rest, emoji) {
        var i :| 0 <= i < |Stripped(groups, who)| && Stripped(groups, who)[i].emoji == emoji;
        if i < |rest| { assert rest[i].emoji == emoji; }
      }
    }
  }

  lemma {:induction false} StrippedProper(groups: seq<Reaction>, who: string)
    requires Proper(groups)
    ensures Proper(Stripped(groups, who))
  {
    if groups != [] {
      var n := |groups| - 1;
      var rest, people := Stripped(groups[..n], who), Without(groups[n].participants, who);
      StrippedProper(groups[..n], who);
      StrippedHas(groups[..n], who, groups[n].emoji);
      WithoutNoRepeats(groups[n].participants, who);
      if people == [] { assert rest + [] == rest; }
      else { assert (rest + [Reaction(groups[n].emoji, people)])[..|rest|] == rest; }
    }
  }

  /** No group is empty or names the person. */
  predicate Clear(groups: seq<Reaction>, who: string)
  {
    groups != [] ==>
      var last := groups[|groups| - 1];
      Clear(groups[..|groups| - 1], who) && last.participants != [] && who !in last.participants
  }

  lemma {:induction false} StrippedClear(groups: seq<Reaction>, who: string)
    ensures Clear(Stripped(groups, who), who)
  {
    if groups != [] {
      var n := |groups| - 1;
      var rest, people := Stripped(groups[..n], who), Without(groups[n].participants, who);
      StrippedClear(groups[..n], who);
      WithoutMember(groups[n].participants, who, who);
      if people == [] { assert rest + [] == rest; }
      else { assert (rest + [Reaction(groups[n].emoji, people)])[..|rest|] == rest; }
    }
  }

  lemma {:induction false} JoinedHas(groups: seq<Reaction>, emoji: string, who: string, x: string)
    ensures HasEmoji(Joined(groups, emoji, who), x) ==> HasEmoji(groups, x)
  {
    var joined := Joined(groups, emoji, who);
    if i :| 0 <= i < |joined| && joined[i].emoji == x {
      JoinedAt(groups, emoji, who, i);
      assert groups[i].emoji == x;
    }
  }

  lemma {:induction false} JoinedProper(groups: seq<Reaction>, emoji: string, who: string)
    requires Proper(groups) && Clear(groups, who)
    ensures Proper(Joined(groups, emoji, who))
  {
    if groups != [] {
      var rest, last := groups[..|groups| - 1], groups[|groups| - 1];
      var joined := Joined(rest, emoji, who);
      JoinedProper(rest, emoji, who);
      JoinedHas(rest, emoji, who, last.emoji);
      assert (joined + [JoinedOne(last, emoji, who)])[..|joined|] == joined;
      assert (last.participants + [who])[..|last.participants|] == last.participants;
    }
  }

  lemma ReactedProper(groups: seq<Reaction>, e: Reacting)
    requires Proper(groups)
    ensures Proper(Reacted(groups, e))
  {
    var stripped := Stripped(groups, e.sender);
    StrippedProper(groups, e.sender);
    StrippedClear(groups, e.sender);
    if e.emoji != "" {
      if HasEmoji(stripped, e.emoji) {
        JoinedProper(stripped, e.emoji, e.sender);
      } else {
        assert (stripped + [Reaction(e.emoji, [e.sender])])[..|stripped|] == stripped && NoRepeats([e.sender]);
      }
    }
  }

  /** Every sequence of events leaves distinct, nonempty groups with each sender in at most one of them. */
  lemma {:induction false} ListStaysProper(events: seq<Reacting>)
    ensures Proper(RunList(events))
    ensures forall who, a, b :: Reacts(RunList(events), who, a) && Reacts(RunList(events), who, b) ==> a == b
  {
    if events != [] {
      ListStaysProper(events[..|events| - 1]);
      ReactedProper(RunList(events[..|events| - 1]), Last(events));
    }
    forall who, a, b | Reacts(RunList(events), who, a) && Reacts(RunList(events), who, b) ensures a == b {
      ListIsLastWriter(events, who, a);
      ListIsLastWriter(events, who, b);
    }
  }

  // ---- redelivery ----

  lemma {:induction false} WithoutNone(people: seq<string>, who: string)
    requires who !in people
    ensures Without(people, who) == people
  {
    if people != [] {
      WithoutNone(people[..|people| - 1], who);
      assert people == people[..|people| - 1] + [people[|people| - 1]];
    }
  }

  lemma WithoutLast(people: seq<string>, who: string)
    requires who !in people
    ensures Without(people + [who], who) == people
  {
    assert (people + [who])[..|people|] == people;
    WithoutNone(people, who);
  }

  /** Stripping a list with one more clear group keeps that group. */
  lemma StrippedMore(groups: seq<Reaction>, g: Reaction, who: string, people: seq<string>)
    requires Without(g.participants, who) == people && people != []
    ensures Stripped(groups + [g], who) == Stripped(groups, who) + [g.(participants := people)]
  {
    assert (groups + [g])[..|groups|] == groups;
  }

  lemma SplitLast(groups: seq<Reaction>)
    requires groups != []
    ensures groups == groups[..|groups| - 1] + [groups[|groups| - 1]]
  {
  }

  lemma {:induction false} StrippedAgain(groups: seq<Reaction>, who: string)
    requires Clear(groups, who)
    ensures Stripped(groups, who) == groups
    decreases |groups|
  {
    if groups != [] {
      var rest, last := groups[..|groups| - 1], groups[|groups| - 1];
      SplitLast(groups);
      StrippedAgain(rest, who);
      WithoutNone(last.participants, who);
      StrippedMore(rest, last, who, last.participants);
    }
  }

  lemma JoinedThenLeft(last: Reaction, emoji: string, who: string)
    requires who !in last.participants
    ensures Without(JoinedOne(last, emoji, who).participants, who) == last.participants
  {
    if last.emoji == emoji { WithoutLast(last.participants, who); } else { WithoutNone(last.participants, who); }
  }

  lemma StrippedJoinedOne(rest: seq<Reaction>, last: Reaction, emoji: string, who: string, joined: seq<Reaction>)
    requires Stripped(joined, who) == rest && last.participants != [] && who !in last.participants
    ensures Stripped(joined + [JoinedOne(last, emoji, who)], who) == rest + [last]
  {
    var g := JoinedOne(last, emoji, who);
    JoinedThenLeft(last, emoji, who);
    StrippedMore(joined, g, who, last.participants);
    assert g.(participants := last.participants) == last;
  }

  lemma {:induction false} StrippedJoined(groups: seq<Reaction>, emoji: string, who: string)
    requires Clear(groups, who)
    ensures Stripped(Joined(groups, emoji, who), who) == groups
    decreases |groups|
  {
    if groups == [] {
    } else {
      var rest, last := groups[..|groups| - 1], groups[|groups| - 1];
      var joined := Joined(rest, emoji, who);
      StrippedJoined(rest, emoji, who);
      StrippedJoinedOne(rest, last, emoji, who, joined);
      SplitLast(groups);
    }
  }

  /** Applying the last event again changes nothing, from any list. */
  lemma ReactingTwice(groups: seq<Reaction>, e: Reacting)
    ensures Reacted(Reacted(groups, e), e) == Reacted(groups, e)
  {
    var stripped := Stripped(groups, e.sender);
    StrippedClear(groups, e.sender);
    if e.emoji == "" {
      StrippedAgain(stripped, e.sender);
    } else if HasEmoji(stripped, e.emoji) {
      StrippedJoined(stripped, e.emoji, e.sender);
    } else {
      var grown := stripped + [Reaction(e.emoji, [e.sender])];
      assert grown[..|stripped|] == stripped;
      StrippedAgain(stripped, e.sender);
      assert Without([e.sender], e.sender) == [] by { WithoutLast([], e.sender); assert [] + [e.sender] == [e.sender]; }
    }
  }
}
