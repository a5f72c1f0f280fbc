/** The event list of the simulated runtime and its split by one tick. */
module Events {
  import opened Base

  /** A scheduled callback; `done` numbers the channel that is closed after it has run. */
  datatype Event<+C> = Event(target: nat, cb: C, done: nat)

  /** The events a tick runs, and those it leaves, each in list order. */
  function Due<C>(events: seq<Event<C>>, now: nat): seq<Event<C>> {
    if events == [] then []
    else (if events[0].target <= now then [events[0]] else []) + Due(events[1..], now)
  }

  function Later<C>(events: seq<Event<C>>, now: nat): seq<Event<C>> {
    if events == [] then []
    else (if events[0].target <= now then [] else [events[0]]) + Later(events[1..], now)
  }

  lemma SplitCons<C>(events: seq<Event<C>>, now: nat)
    ensures events == [] ==> Due(events, now) == Later(events, now) == []
    ensures events != [] ==>
              && Due(events, now) == (if events[0].target <= now then [events[0]] else []) + Due(events[1..], now)
              && Later(events, now) == (if events[0].target <= now then [] else [events[0]]) + Later(events[1..], now)
  {}

  lemma {:induction false} SplitSnoc<C>(events: seq<Event<C>>, e: Event<C>, now: nat)
    ensures Due(events + [e], now) == Due(events, now) + if e.target <= now then [e] else []
    ensures Later(events + [e], now) == Later(events, now) + if e.target <= now then [] else [e]
  {
    if events == [] {
      assert (events + [e])[1..] == [];
    } else {
      SplitCons(events, now);
      SplitCons(events + [e], now);
      hide Due, Later;
      assert (events + [e])[1..] == events[1..] + [e] && (events + [e])[0] == events[0];
      SplitSnoc(events[1..], e, now);
      var due := events[0].target <= now;
      Regroup(if due then [events[0]] else [], Due(events[1..], now), if e.target <= now then [e] else []);
      Regroup(if due then [] else [events[0]], Later(events[1..], now), if e.target <= now then [] else [e]);
    }
  }

  /** The split keeps every event, exactly once, on the right side. */
  lemma {:induction false} SplitConserves<C>(events: seq<Event<C>>, now: nat)
    ensures multiset(Due(events, now)) + multiset(Later(events, now)) == multiset(events)
    ensures forall e :: e in Due(events, now) ==> e in events && e.target <= now
    ensures forall e :: e in Later(events, now) ==> e in events && e.target > now
  {
    if events != [] {
      SplitConserves(events[1..], now);
      assert events == [events[0]] + events[1..];
    }
  }

  /** Membership in the two halves. */
  lemma SplitMembers<C>(events: seq<Event<C>>, now: nat, e: Event<C>)
    ensures e in Due(events, now) <==> e in events && e.target <= now
    ensures e in Later(events, now) <==> e in events && e.target > now
  {
    SplitConserves(events, now);
    assert e in multiset(events) <==> e in multiset(Due(events, now)) + multiset(Later(events, now));
  }

  /** A later tick leaves the same events whether or not an earlier one came before it. */
  lemma {:induction false} LaterLater<C>(events: seq<Event<C>>, a: nat, b: nat)
    requires a <= b
    ensures Later(Later(events, a), b) == Later(events, b)
  {
    if events != [] {
      LaterLater(events[1..], a, b);
      if events[0].target > a {
        assert ([events[0]] + Later(events[1..], a))[1..] == Later(events[1..], a);
      } else {
        assert [] + Later(events[1..], a) == Later(events[1..], a);
      }
    }
  }

  // ---------- Several ticks ----------

  /** What the ticks after `since` and up to `now` leave of a list, and what they run, in order. */
  function Left<C>(events: seq<Event<C>>, since: nat, now: nat): seq<Event<C>> {
    if now <= since then events else Later(events, now)
  }

  function RunBy<C>(events: seq<Event<C>>, since: nat, now: nat): seq<Event<C>> {
    if now <= since then [] else RunBy(events, since, now - 1) + Due(Left(events, since, now - 1), now)
  }

  lemma LeftNext<C>(events: seq<Event<C>>, since: nat, now: nat)
    requires since <= now
    ensures Later(Left(events, since, now), now + 1) == Left(events, since, now + 1)
  {
    if now > since {
      LaterLater(events, now, now + 1);
    }
  }

  lemma RunByNext<C>(events: seq<Event<C>>, since: nat, now: nat)
    requires since <= now
    ensures RunBy(events, since, now + 1) == RunBy(events, since, now) + Due(Left(events, since, now), now + 1)
  {}

  lemma RunByNone<C>(events: seq<Event<C>>, since: nat, now: nat)
    requires now <= since
    ensures RunBy(events, since, now) == [] && Left(events, since, now) == events
  {}

  lemma MoveOver<T>(done: seq<T>, due: seq<T>, left: seq<T>, later: seq<T>, all: seq<T>)
    requires multiset(done) + multiset(left) == multiset(all)
    requires multiset(due) + multiset(later) == multiset(left)
    ensures multiset(done + due) + multiset(later) == multiset(all)
  {}

  /** Between them, the ticks run each event at most once and lose none. */
  lemma {:induction false} RunByConserves<C>(events: seq<Event<C>>, since: nat, now: nat)
    ensures multiset(RunBy(events, since, now)) + multiset(Left(events, since, now)) == multiset(events)
  {
    hide *;
    if now <= since {
      RunByNone(events, since, now);
    } else {
      var left := Left(events, since, now - 1);
      LeftNext(events, since, now - 1);
      RunByNext(events, since, now - 1);
      RunByConserves(events, since, now - 1);
      SplitConserves(left, now);
      MoveOver(RunBy(events, since, now - 1), Due(left, now), left, Later(left, now), events);
    }
  }

  lemma SplitOne<C>(e: Event<C>, now: nat)
    ensures Due([e], now) == if e.target <= now then [e] else []
    ensures Later([e], now) == if e.target <= now then [] else [e]
  {
    assert [e][1..] == [];
  }

  /** The ticks that run a single event run nothing else. */
  lemma {:induction false} RunByOne<C>(e: Event<C>, since: nat, now: nat)
    ensures RunBy([e], since, now) == if now > since && e.target <= now then [e] else []
    ensures Left([e], since, now) == if now > since && e.target <= now then [] else [e]
  {
    if now > since {
      RunByOne(e, since, now - 1);
      SplitOne(e, now);
      assert Due<C>([], now) == [];
    }
  }

  /** One iteration of the ticker splits the list with a single loop. */
  method Split<C>(events: seq<Event<C>>, now: nat) returns (toRun: seq<Event<C>>, remaining: seq<Event<C>>)
    ensures toRun == Due(events, now) && remaining == Later(events, now)
  {
    toRun, remaining := [], [];
    for i := 0 to |events|
      invariant toRun == Due(events[..i], now) && remaining == Later(events[..i], now)
    {
      var ev := events[i];
      assert events[..i + 1] == events[..i] + [ev];
      SplitSnoc(events[..i], ev, now);
      if ev.target <= now {
        toRun := toRun + [ev];
      } else {
        remaining := remaining + [ev];
      }
    }
    assert events[..|events|] == events;
  }
}
