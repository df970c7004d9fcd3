/** The retention sweep of onboarding events: nested paging over guilds and batches of events. */
module RetentionSweep {
  import opened Common

  type GuildId = nat
  type EventId = nat

  datatype Event = Event(guild: GuildId, occurredAt: Time)

  const PAGE_SIZE: nat := 100
  const BATCH_SIZE: nat := 1000
  const MAXIMUM_BATCHES: nat := 100

  predicate Ascending(ids: seq<nat>) {
    forall i, j :: 0 <= i < j < |ids| ==> ids[i] < ids[j]
  }

  function Min(a: nat, b: nat): nat {
    if a < b then a else b
  }

  /** Of `n` expired events those beyond the hundred batches of one sweep stay: none for up to 100000. */
  function LeftBehind(n: nat): nat {
    if n <= MAXIMUM_BATCHES * BATCH_SIZE then 0 else n - MAXIMUM_BATCHES * BATCH_SIZE
  }

  /** What the sweep may delete for a guild. */
  function Expired(events: map<EventId, Event>, g: GuildId, cutoff: Time): set<EventId> {
    set id | id in events && events[id].guild == g && events[id].occurredAt < cutoff
  }

  /** Of the guild's events from before the cutoff none is left, or all but a hundred thousand are. */
  ghost predicate DueLeft(before: map<EventId, Event>, now: map<EventId, Event>, g: GuildId, cutoff: Time) {
    var due := set id | id in before && before[id].guild == g && before[id].occurredAt < cutoff;
    |due * now.Keys| == if |due| <= 100_000 then 0 else |due| - 100_000
  }

  lemma DueIsExpired(before: map<EventId, Event>, now: map<EventId, Event>, g: GuildId, cutoff: Time)
    requires now.Keys <= before.Keys && forall id :: id in now ==> now[id] == before[id]
    requires |Expired(now, g, cutoff)| == LeftBehind(|Expired(before, g, cutoff)|)
    ensures DueLeft(before, now, g, cutoff)
  {
    var due := set id | id in before && before[id].guild == g && before[id].occurredAt < cutoff;
    assert Expired(before, g, cutoff) == due && Expired(now, g, cutoff) == due * now.Keys;
  }

  /** The guilds after the cursor, at most `size` of them, in order. */
  function Page(guilds: seq<GuildId>, cursor: Option<GuildId>, size: nat): (page: seq<GuildId>)
    ensures |page| <= size
  {
    if guilds == [] || size == 0 then []
    else if cursor.Some? && guilds[0] <= cursor.value then Page(guilds[1..], cursor, size)
    else [guilds[0]] + Page(guilds[1..], cursor, size - 1)
  }

  lemma {:induction false} PageIsNext(guilds: seq<GuildId>, visited: nat, cursor: Option<GuildId>, size: nat)
    requires Ascending(guilds) && visited <= |guilds|
    requires if visited == 0 then cursor.None? else cursor == Some(guilds[visited - 1])
    ensures Page(guilds, cursor, size) == guilds[visited..visited + Min(size, |guilds| - visited)]
    decreases |guilds|
  {
    if guilds != [] && size > 0 {
      if visited > 0 {
        assert guilds[1..][visited - 1..visited - 1 + Min(size, |guilds| - visited)]
               == guilds[visited..visited + Min(size, |guilds| - visited)];
        if visited == 1 {
          assert forall g :: g in guilds[1..] ==> exists i :: 0 < i < |guilds| && guilds[i] == g;
          FirstPage(guilds[1..], cursor, size);
        } else {
          PageIsNext(guilds[1..], visited - 1, cursor, size);
        }
      } else {
        FirstPage(guilds, cursor, size);
      }
    }
  }

  lemma {:induction false} FirstPage(guilds: seq<GuildId>, cursor: Option<GuildId>, size: nat)
    requires cursor.Some? ==> forall g :: g in guilds ==> g > cursor.value
    ensures Page(guilds, cursor, size) == guilds[..Min(size, |guilds|)]
    decreases |guilds|
  {
    if guilds != [] && size > 0 {
      assert guilds[0] in guilds && forall g :: g in guilds[1..] ==> g in guilds;
      FirstPage(guilds[1..], cursor, size - 1);
      assert guilds[..Min(size, |guilds|)] == [guilds[0]] + guilds[1..][..Min(size - 1, |guilds| - 1)];
    }
  }

  predicate InOrder(earlier: set<EventId>, later: set<EventId>) {
    forall a, b :: a in earlier && b in later ==> a < b
  }

  lemma NextInOrder(all: set<EventId>, gone: set<EventId>, chosen: set<EventId>)
    requires InOrder(gone, all - gone) && chosen <= all - gone && InOrder(chosen, all - gone - chosen)
    ensures InOrder(gone + chosen, all - (gone + chosen))
  {
    forall a, b | a in gone + chosen && b in all - (gone + chosen)
      ensures a < b
    {
      assert b in all - gone && b in all - gone - chosen;
      assert a in gone || a in chosen;
    }
  }

  method Least(ids: set<EventId>) returns (least: EventId)
    requires ids != {}
    ensures least in ids && forall x :: x in ids ==> least <= x
  {
    least :| least in ids;
    var others := ids - {least};
    while others != {}
      invariant others <= ids && least in ids && forall x :: x in ids && x !in others ==> least <= x
      decreases |others|
    {
      var x :| x in others;
      others := others - {x};
      if x < least {
        least := x;
      }
    }
  }

  /** The `n` smallest ids of a set, or all of them. */
  method TakeSmallest(ids: set<EventId>, n: nat) returns (taken: set<EventId>)
    ensures taken <= ids && |taken| == Min(n, |ids|)
    ensures InOrder(taken, ids - taken)
  {
    taken := {};
    var rest := ids;
    while rest != {} && |taken| < n
      invariant taken + rest == ids && taken !! rest && |taken| <= n
      invariant InOrder(taken, rest)
      decreases |rest|
    {
      var least := Least(rest);
      assert taken + rest == (taken + {least}) + (rest - {least});
      taken, rest := taken + {least}, rest - {least};
    }
    assert |ids| == |taken| + |rest|;
  }

  class EventTable {
    var events: map<EventId, Event>

    constructor (events: map<EventId, Event>)
      ensures this.events == events
    {
      this.events := events;
    }

    /** Delete the expired events of one guild, batch by batch. */
    method SweepGuild(g: GuildId, cutoff: Time) returns (deleted: nat)
      modifies this
      ensures events.Keys <= old(events).Keys && forall id :: id in events ==> events[id] == old(events)[id]
      ensures old(events).Keys - events.Keys <= Expired(old(events), g, cutoff)
      ensures deleted == |old(events)| - |events|
              == Min(|Expired(old(events), g, cutoff)|, MAXIMUM_BATCHES * BATCH_SIZE)
      ensures |Expired(events, g, cutoff)| == |Expired(old(events), g, cutoff)| - deleted
      ensures InOrder(old(events).Keys - events.Keys, Expired(events, g, cutoff))
    {
      ghost var before := events;
      ghost var all := Expired(events, g, cutoff);
      ghost var gone: set<EventId> := {};
      deleted := 0;
      var batch := 0;
      while batch < MAXIMUM_BATCHES
        invariant 0 <= batch <= MAXIMUM_BATCHES
        invariant gone <= all && events == before - gone && deleted == |gone|
        invariant deleted == batch * BATCH_SIZE
        invariant InOrder(gone, all - gone)
      {
        Remaining(before, gone, g, cutoff);
        var expired := Expired(events, g, cutoff);
        if expired == {} {
          break;
        }
        var chosen := TakeSmallest(expired, BATCH_SIZE);
        Deleting(before, gone, chosen);
        NextInOrder(all, gone, chosen);
        hide InOrder;
        events := events - chosen;
        gone := gone + chosen;
        deleted := deleted + |chosen|;
        if |chosen| < BATCH_SIZE {
          break;
        }
        batch := batch + 1;
      }
      Remaining(before, gone, g, cutoff);
    }

    /** Sweep the guilds of one page, in order. */
    method SweepPage(page: seq<GuildId>, cutoff: GuildId -> Time, ghost before: map<EventId, Event>,
        ghost visited: seq<GuildId>)
      returns (deleted: nat)
      requires Swept(before, events, visited, cutoff) && Ascending(visited + page)
      modifies this
      ensures Swept(before, events, visited + page, cutoff)
      ensures deleted == |old(events)| - |events|
    {
      hide Page, Expired, Swept, Ascending;
      deleted := 0;
      assert visited + page[..0] == visited;
      for i := 0 to |page|
        invariant Swept(before, events, visited + page[..i], cutoff)
        invariant deleted == |old(events)| - |events|
      {
        ghost var current := events;
        NotVisitedYet(visited, page, i);
        var swept := SweepGuild(page[i], cutoff(page[i]));
        SweptStep(before, current, events, visited + page[..i], page[i], cutoff);
        assert (visited + page[..i]) + [page[i]] == visited + page[..i + 1];
        deleted := deleted + swept;
      }
      assert page[..|page|] == page;
    }

    /**
     The whole sweep over a fixed table of configured guilds.  `cutoff(g)` is the cutoff computed when
     guild `g` is visited; `visited` records the visits in order.
     */
    method CleanupOnboardingEvents(guilds: seq<GuildId>,
        cutoff: GuildId -> Time) returns (deletedTotal: nat, ghost visited: seq<GuildId>)
      requires Ascending(guilds)
      modifies this
      ensures visited == guilds
      ensures events.Keys <= old(events).Keys && forall id :: id in events ==> events[id] == old(events)[id]
      ensures forall id :: id in old(events) && id !in events ==>
                old(events)[id].guild in guilds && old(events)[id].occurredAt < cutoff(old(events)[id].guild)
      ensures deletedTotal == |old(events)| - |events|
      ensures forall g :: g in guilds ==>
                |Expired(events, g, cutoff(g))| == LeftBehind(|Expired(old(events), g, cutoff(g))|)
      ensures forall g :: g in guilds ==> DueLeft(old(events), events, g, cutoff(g))
    {
      ghost var before := events;
      hide Page, Expired, Swept, Ascending;
      assert Swept(before, events, [], cutoff) by { NothingSwept(before, cutoff); }
      visited := [];
      deletedTotal := 0;
      var cursor: Option<GuildId> := None;
      while true
        invariant |visited| <= |guilds| && visited == guilds[..|visited|]
        invariant if visited == [] then cursor.None? else cursor == Some(visited[|visited| - 1])
        invariant Swept(before, events, visited, cutoff) && deletedTotal == |before| - |events|
        decreases |guilds| - |visited|
      {
        PageIsNext(guilds, |visited|, cursor, PAGE_SIZE);
        var page := Page(guilds, cursor, PAGE_SIZE);
        if page == [] {
          break;
        }
        NextStretch(guilds, |visited|, |page|);
        var deleted := SweepPage(page, cutoff, before, visited);
        deletedTotal := deletedTotal + deleted;
        visited := visited + page;
        cursor := Some(page[|page| - 1]);
        if |page| < PAGE_SIZE {
          break;
        }
      }
      assert guilds[..|visited|] == guilds;
      SweptMeans(before, events, visited, cutoff);
      forall g | g in guilds
        ensures DueLeft(before, events, g, cutoff(g))
      {
        DueIsExpired(before, events, g, cutoff(g));
      }
      hide DueLeft;
    }
  }

  lemma NextStretch(guilds: seq<GuildId>, n: nat, k: nat)
    requires Ascending(guilds) && n + k <= |guilds|
    ensures guilds[..n] + guilds[n..n + k] == guilds[..n + k] && Ascending(guilds[..n + k])
  {
  }

  lemma NotVisitedYet(visited: seq<GuildId>, page: seq<GuildId>, i: nat)
    requires Ascending(visited + page) && i < |page|
    ensures page[i] !in visited + page[..i]
  {
    var all := visited + page;
    assert all[|visited| + i] == page[i];
    forall k | 0 <= k < |visited| + i
      ensures (visited + page[..i])[k] < page[i]
    {
      assert (visited + page[..i])[k] == all[k];
    }
  }

  lemma Remaining(before: map<EventId, Event>, gone: set<EventId>, g: GuildId, cutoff: Time)
    requires gone <= Expired(before, g, cutoff)
    ensures Expired(before - gone, g, cutoff) == Expired(before, g, cutoff) - gone
    ensures |Expired(before - gone, g, cutoff)| == |Expired(before, g, cutoff)| - |gone|
    ensures |before - gone| == |before| - |gone|
  {
    assert Expired(before - gone, g, cutoff) == Expired(before, g, cutoff) - gone;
    assert (before - gone).Keys == before.Keys - gone && gone <= before.Keys;
  }

  lemma Deleting(before: map<EventId, Event>, gone: set<EventId>, chosen: set<EventId>)
    requires chosen !! gone
    ensures before - gone - chosen == before - (gone + chosen) && |gone + chosen| == |gone| + |chosen|
  {
    assert before - gone - chosen == before - (gone + chosen);
  }

  /** The sweep so far: what is gone was expired in a visited guild, and visited guilds are clean up to the bound. */
  ghost predicate Swept(before: map<EventId, Event>, now: map<EventId, Event>, visited: seq<GuildId>,
      cutoff: GuildId -> Time) {
    && now.Keys <= before.Keys && (forall id :: id in now ==> now[id] == before[id])
    && (forall id :: id in before && id !in now ==>
        before[id].guild in visited && before[id].occurredAt < cutoff(before[id].guild))
    && (forall g :: g in visited ==> |Expired(now, g, cutoff(g))| == LeftBehind(|Expired(before, g, cutoff(g))|))
  }

  lemma NothingSwept(before: map<EventId, Event>, cutoff: GuildId -> Time)
    ensures Swept(before, before, [], cutoff)
  {
  }

  lemma SweptMeans(before: map<EventId, Event>, now: map<EventId, Event>, visited: seq<GuildId>,
      cutoff: GuildId -> Time)
    requires Swept(before, now, visited, cutoff)
    ensures now.Keys <= before.Keys && forall id :: id in now ==> now[id] == before[id]
    ensures forall id :: id in before && id !in now ==>
            before[id].guild in visited && before[id].occurredAt < cutoff(before[id].guild)
    ensures forall g :: g in visited ==> |Expired(now, g, cutoff(g))| == LeftBehind(|Expired(before, g, cutoff(g))|)
  {
  }

  /** A guild that was not visited yet still has all its events. */
  lemma Untouched(before: map<EventId, Event>, now: map<EventId, Event>, visited: seq<GuildId>, g: GuildId,
      cutoff: GuildId -> Time)
    requires Swept(before, now, visited, cutoff) && g !in visited
    ensures Expired(now, g, cutoff(g)) == Expired(before, g, cutoff(g))
  {
  }

  lemma SweptStep(before: map<EventId, Event>, current: map<EventId, Event>, after: map<EventId, Event>,
      visited: seq<GuildId>, g: GuildId, cutoff: GuildId -> Time)
    requires Swept(before, current, visited, cutoff) && g !in visited
    requires after.Keys <= current.Keys && forall id :: id in after ==> after[id] == current[id]
    requires current.Keys - after.Keys <= Expired(current, g, cutoff(g))
    requires |Expired(after, g, cutoff(g))| == |Expired(current, g, cutoff(g))| - Min(|Expired(current, g, cutoff(g))|,
               MAXIMUM_BATCHES * BATCH_SIZE)
    ensures Swept(before, after, visited + [g], cutoff)
  {
    Untouched(before, current, visited, g, cutoff);
    forall id | id in before && id !in after
      ensures before[id].guild in visited + [g] && before[id].occurredAt < cutoff(before[id].guild)
    {
      if id in current {
        assert id in Expired(current, g, cutoff(g));
      }
    }
    forall h | h in visited + [g]
      ensures |Expired(after, h, cutoff(h))| == LeftBehind(|Expired(before, h, cutoff(h))|)
    {
      if h != g {
        forall id | id in Expired(current, h, cutoff(h))
          ensures id in after
        {
          assert id !in Expired(current, g, cutoff(g)) && id in current.Keys;
        }
        assert Expired(after, h, cutoff(h)) == Expired(current, h, cutoff(h));
      }
    }
  }
}
