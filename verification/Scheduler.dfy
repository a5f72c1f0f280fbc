/** The discrete-event scheduler of the simulated runtime: goroutines enqueue at any moment, the
    ticker advances the clock, takes the due events out of the list and runs them one by one. */
module Scheduler {
  import opened Base
  import opened Events

  /** History of an event: the clock when it was enqueued, and the requested delay. */
  datatype Enqueued = Enqueued(at: Word, delay: Word)

  type Ev = Event<Enqueued>

  /** An event that has run, and the tick that ran it. */
  datatype Ran = Ran(ev: Ev, tick: nat)

  /** `count` events have been enqueued; event number n has done == n.  `log` is history. */
  datatype Sched = Sched(seqNo: Word, events: seq<Ev>, batch: seq<Ev>, count: nat, log: seq<Ran>)

  const INIT := Sched(0, [], [], 0, [])

  /** Enqueue may happen between any two steps, also while a batch is being run. */
  datatype Act = Enqueue(delay: Word) | Tick | RunNext

  /** Enqueue adds unsigned 64-bit numbers; the clock itself is assumed not to wrap. */
  function Do(s: Sched, a: Act): Option<Sched> {
    match a
    case Enqueue(delay) =>
      var ev := Event(AddWrap(s.seqNo, delay), Enqueued(s.seqNo, delay), s.count);
      Some(s.(events := s.events + [ev], count := s.count + 1))
    case Tick =>
      if s.batch != [] || s.seqNo + 1 >= U64 then None else
      var now := s.seqNo + 1;
      Some(s.(seqNo := now, batch := Due(s.events, now), events := Later(s.events, now)))
    case RunNext =>
      if s.batch == [] then None else
      Some(s.(batch := s.batch[1..], log := s.log + [Ran(s.batch[0], s.seqNo)]))
  }

  type Trace = seq<Act>

  function Exec(tr: Trace): Option<Sched> {
    if tr == [] then Some(INIT) else
    match Exec(tr[..|tr| - 1])
    case None => None
    case Some(s) => Do(s, tr[|tr| - 1])
  }

  // ---------- When an event is due ----------

  function AtLeastOne(n: nat): nat {
    if n == 0 then 1 else n
  }

  /** The tick an event is for; a sum past 2^64 wraps below the clock and is due at once. */
  function DueTick(e: Enqueued): nat {
    if e.at + e.delay < U64 then e.at + AtLeastOne(e.delay) else e.at + 1
  }

  predicate EvOk(ev: Ev, seqNo: nat) {
    ev.cb.at <= seqNo && ev.target == AddWrap(ev.cb.at, ev.cb.delay)
  }

  /** An event enqueued before a tick is taken by it exactly when it is due by then. */
  lemma TakenWhenDue(ev: Ev, now: nat)
    requires 1 <= now && EvOk(ev, now - 1)
    ensures ev.target <= now <==> DueTick(ev.cb) <= now
  {}

  // ---------- The invariant ----------

  function Evs(log: seq<Ran>): seq<Ev> {
    seq(|log|, i requires 0 <= i < |log| => log[i].ev)
  }

  /** In order of due tick, and of enqueueing within a tick. */
  predicate Before(a: Ev, b: Ev) {
    DueTick(a.cb) < DueTick(b.cb) || (DueTick(a.cb) == DueTick(b.cb) && a.done < b.done)
  }

  ghost predicate Sorted(es: seq<Ev>) {
    forall i, j :: 0 <= i < j < |es| ==> Before(es[i], es[j])
  }

  /** Listed in the order they were enqueued. */
  ghost predicate InOrder(es: seq<Ev>) {
    forall i, j :: 0 <= i < j < |es| ==> es[i].done < es[j].done
  }

  ghost predicate SchedOk(s: Sched) {
    && (forall ev :: ev in s.events ==> EvOk(ev, s.seqNo) && DueTick(ev.cb) > s.seqNo && ev.done < s.count)
    && InOrder(s.events)
    && (forall ev :: ev in s.batch ==> DueTick(ev.cb) == s.seqNo)
    && (forall i :: 0 <= i < |s.log| ==> s.log[i].tick == DueTick(s.log[i].ev.cb) <= s.seqNo)
    && Sorted(Evs(s.log) + s.batch)
  }

  /** Everything enqueued, wherever it is now. */
  function Everything(s: Sched): seq<Ev> {
    Evs(s.log) + s.batch + s.events
  }

  /** The events a run enqueued, in order. */
  function Enqueues(tr: Trace): seq<Ev>
    requires Exec(tr).Some?
  {
    if tr == [] then [] else
      var n := |tr| - 1;
      var s := Exec(tr[..n]).value;
      Enqueues(tr[..n]) +
      match tr[n]
      case Enqueue(delay) => [Event(AddWrap(s.seqNo, delay), Enqueued(s.seqNo, delay), s.count)]
      case _ => []
  }

  // ---------- Steps ----------

  lemma {:induction false} SplitKeepsOrder(es: seq<Ev>, now: nat)
    requires InOrder(es)
    ensures InOrder(Due(es, now)) && InOrder(Later(es, now))
  {
    SplitCons(es, now);
    hide Due, Later;
    if es != [] {
      SplitKeepsOrder(es[1..], now);
      SplitConserves(es[1..], now);
      forall e | e in es[1..] ensures es[0].done < e.done {
        var i :| 0 <= i < |es[1..]| && es[1..][i] == e;
        assert es[i + 1] == e;
      }
      ConsInOrder(es[0], Due(es[1..], now));
      ConsInOrder(es[0], Later(es[1..], now));
    }
  }

  lemma ConsInOrder(e: Ev, rest: seq<Ev>)
    requires InOrder(rest)
    requires forall x :: x in rest ==> e.done < x.done
    ensures InOrder([e] + rest)
    ensures [] + rest == rest
  {}

  /** What the next tick takes is due exactly then, and what it leaves is due later. */
  lemma TickSplits(s: Sched)
    requires SchedOk(s)
    ensures var now := s.seqNo + 1;
            && (forall ev :: ev in Due(s.events, now) ==> ev in s.events && DueTick(ev.cb) == now)
            && (forall ev :: ev in Later(s.events, now) ==> ev in s.events && DueTick(ev.cb) > now)
  {
    SplitConserves(s.events, s.seqNo + 1);
    forall ev | ev in s.events ensures ev.target <= s.seqNo + 1 <==> DueTick(ev.cb) <= s.seqNo + 1 {
      TakenWhenDue(ev, s.seqNo + 1);
    }
  }

  lemma SortedPrefix(a: seq<Ev>, b: seq<Ev>)
    requires Sorted(a + b)
    ensures Sorted(a)
  {
    forall i, j | 0 <= i < j < |a| ensures Before(a[i], a[j]) {
      assert (a + b)[i] == a[i] && (a + b)[j] == a[j];
    }
  }

  /** A batch due later than everything run so far extends the order. */
  lemma SortedAppend(done: seq<Ev>, batch: seq<Ev>, now: nat)
    requires Sorted(done)
    requires forall ev :: ev in done ==> DueTick(ev.cb) < now
    requires forall ev :: ev in batch ==> DueTick(ev.cb) == now
    requires InOrder(batch)
    ensures Sorted(done + batch)
  {
    var all := done + batch;
    forall i, j | 0 <= i < j < |all| ensures Before(all[i], all[j]) {
      if i < |done| <= j {
        assert all[i] in done && all[j] in batch;
      } else if |done| <= i {
        assert all[i] in batch && all[j] in batch;
      }
    }
  }

  lemma LogEarlier(s: Sched)
    requires SchedOk(s)
    ensures Sorted(Evs(s.log)) && forall ev :: ev in Evs(s.log) ==> DueTick(ev.cb) <= s.seqNo
  {
    SortedPrefix(Evs(s.log), s.batch);
    forall ev | ev in Evs(s.log) ensures DueTick(ev.cb) <= s.seqNo {
      var i :| 0 <= i < |s.log| && Evs(s.log)[i] == ev;
      assert s.log[i].tick == DueTick(ev.cb);
    }
  }

  lemma TickStep(s: Sched)
    requires SchedOk(s) && Do(s, Tick).Some?
    ensures SchedOk(Do(s, Tick).value)
  {
    TickSplits(s);
    SplitKeepsOrder(s.events, s.seqNo + 1);
    LogEarlier(s);
    SortedAppend(Evs(s.log), Due(s.events, s.seqNo + 1), s.seqNo + 1);
  }

  lemma EnqueueStep(s: Sched, delay: Word)
    requires SchedOk(s) && Do(s, Enqueue(delay)).Some?
    ensures SchedOk(Do(s, Enqueue(delay)).value)
  {}

  lemma RunStep(s: Sched)
    requires SchedOk(s) && Do(s, RunNext).Some?
    ensures SchedOk(Do(s, RunNext).value)
  {
    var s1 := Do(s, RunNext).value;
    assert Evs(s1.log) + s1.batch == Evs(s.log) + s.batch;
  }

  lemma {:induction false} RunOk(tr: Trace)
    requires Exec(tr).Some?
    ensures SchedOk(Exec(tr).value)
  {
    if tr != [] {
      var n := |tr| - 1;
      RunOk(tr[..n]);
      match tr[n]
      case Enqueue(delay) => EnqueueStep(Exec(tr[..n]).value, delay);
      case Tick => TickStep(Exec(tr[..n]).value);
      case RunNext => RunStep(Exec(tr[..n]).value);
    }
  }

  // ---------- Theorems ----------

  lemma SplitKeepsAll(done: seq<Ev>, batch: seq<Ev>, events: seq<Ev>, now: nat)
    requires batch == []
    ensures multiset(done + Due(events, now) + Later(events, now)) == multiset(done + batch + events)
  {
    SplitConserves(events, now);
    assert done + batch == done;
  }

  lemma RunKeepsAll(s: Sched)
    requires Do(s, RunNext).Some?
    ensures Everything(Do(s, RunNext).value) == Everything(s)
  {
    RunKeepsServed(s);
  }

  lemma TickKeepsAll(s: Sched, s1: Sched)
    requires Do(s, Tick) == Some(s1)
    ensures multiset(Everything(s1)) == multiset(Everything(s))
  {
    TickParts(s, s1);
    SplitKeepsAll(Evs(s.log), s.batch, s.events, s1.seqNo);
  }

  lemma TickParts(s: Sched, s1: Sched)
    requires Do(s, Tick) == Some(s1)
    ensures s.batch == [] && s1.log == s.log && s1.seqNo == s.seqNo + 1 && s1.count == s.count
    ensures s1.batch == Due(s.events, s1.seqNo) && s1.events == Later(s.events, s1.seqNo)
  {}

  /** What one step does to everything. */
  lemma StepConserves(s: Sched, a: Act)
    requires Do(s, a).Some?
    ensures a.Enqueue? ==>
              var ev := Event(AddWrap(s.seqNo, a.delay), Enqueued(s.seqNo, a.delay), s.count);
              Everything(Do(s, a).value) == Everything(s) + [ev]
    ensures !a.Enqueue? ==> multiset(Everything(Do(s, a).value)) == multiset(Everything(s))
  {
    match a
    case Enqueue(_) =>
    case Tick => TickKeepsAll(s, Do(s, a).value);
    case RunNext => RunKeepsAll(s);
  }

  lemma EnqueuesSnoc(tr: Trace)
    requires tr != [] && Exec(tr).Some?
    ensures Exec(tr[..|tr| - 1]).Some? && Do(Exec(tr[..|tr| - 1]).value, tr[|tr| - 1]) == Exec(tr)
    ensures var s, a, before := Exec(tr[..|tr| - 1]).value, tr[|tr| - 1], Enqueues(tr[..|tr| - 1]);
            Enqueues(tr) == if !a.Enqueue? then before
                            else before + [Event(AddWrap(s.seqNo, a.delay), Enqueued(s.seqNo, a.delay), s.count)]
  {}

  ghost predicate Numbered(es: seq<Ev>) {
    forall n :: 0 <= n < |es| ==> es[n].done == n
  }

  lemma AppendOne(all: seq<Ev>, done: seq<Ev>, ev: Ev)
    requires multiset(all) == multiset(done) && Numbered(done) && ev.done == |done|
    ensures multiset(all + [ev]) == multiset(done + [ev]) && Numbered(done + [ev])
  {}

  /** Every enqueued event is, exactly once, run, about to run, or still listed; and nothing else is. */
  lemma {:induction false} ExactlyOnce(tr: Trace)
    requires Exec(tr).Some?
    ensures multiset(Everything(Exec(tr).value)) == multiset(Enqueues(tr))
    ensures |Enqueues(tr)| == Exec(tr).value.count && Numbered(Enqueues(tr))
  {
    if tr != [] {
      var before := tr[..|tr| - 1];
      ExactlyOnce(before);
      EnqueuesSnoc(tr);
      StepConserves(Exec(before).value, tr[|tr| - 1]);
      if tr[|tr| - 1].Enqueue? {
        AppendOne(Everything(Exec(before).value), Enqueues(before), Enqueues(tr)[|Enqueues(before)|]);
      }
    }
  }

  /** The log of run events is a stable priority order, and every event runs at its tick. */
  lemma LogIsStable(tr: Trace)
    requires Exec(tr).Some?
    ensures var s := Exec(tr).value;
            && Sorted(Evs(s.log))
            && forall i :: 0 <= i < |s.log| ==> s.log[i].tick == DueTick(s.log[i].ev.cb)
  {
    RunOk(tr);
    SortedPrefix(Evs(Exec(tr).value.log), Exec(tr).value.batch);
  }

  /** Between ticks nothing due is left behind, so an event waits at most until its tick. */
  lemma NothingLate(tr: Trace, ev: Ev)
    requires Exec(tr).Some?
    requires var s := Exec(tr).value; ev in Everything(s) && s.batch == [] && DueTick(ev.cb) <= s.seqNo
    ensures ev in Evs(Exec(tr).value.log)
  {
    RunOk(tr);
  }

  /** An event that has run did so after exactly its delay (at least one tick) if and only if the
      unsigned sum did not wrap. */
  lemma OnTimeExactly(tr: Trace, i: nat)
    requires Exec(tr).Some? && i < |Exec(tr).value.log|
    ensures var r := Exec(tr).value.log[i];
            r.tick == r.ev.cb.at + (if r.ev.cb.delay == 0 then 1 else r.ev.cb.delay) <==>
            r.ev.cb.at + r.ev.cb.delay < 0x1_0000_0000_0000_0000 || r.ev.cb.delay <= 1
  {
    RunOk(tr);
  }

  lemma OneMore(tr: Trace, a: Act)
    requires Exec(tr).Some? && Do(Exec(tr).value, a).Some?
    ensures Exec(tr + [a]) == Do(Exec(tr).value, a)
  {
    assert (tr + [a])[..|tr|] == tr;
  }

  /** A batch can be run to its end; the clock stands still meanwhile. */
  lemma {:induction false} Drains(tr: Trace, ev: Ev) returns (tr1: Trace)
    requires Exec(tr).Some? && ev in Everything(Exec(tr).value)
    ensures Exec(tr1).Some? && Exec(tr1).value.batch == [] && Exec(tr1).value.seqNo == Exec(tr).value.seqNo
    ensures ev in Everything(Exec(tr1).value)
    decreases |Exec(tr).value.batch|
  {
    tr1 := tr;
    if Exec(tr).value.batch != [] {
      OneMore(tr, RunNext);
      RunKeepsAll(Exec(tr).value);
      tr1 := Drains(tr + [RunNext], ev);
    }
  }

  lemma TickKeepsOne(s: Sched, ev: Ev)
    requires s.batch == [] && s.seqNo + 1 < U64 && ev in Everything(s)
    ensures Do(s, Tick).Some? && Do(s, Tick).value.seqNo == s.seqNo + 1 && ev in Everything(Do(s, Tick).value)
  {
    var s1 := Do(s, Tick).value;
    TickKeepsAll(s, s1);
    assert ev in multiset(Everything(s)) && ev in multiset(Everything(s1));
  }

  /** Whatever is enqueued can be run: the ticker's own steps lead to it. */
  lemma {:induction false} CanRun(tr: Trace, ev: Ev) returns (tr1: Trace)
    requires Exec(tr).Some? && ev in Everything(Exec(tr).value) && DueTick(ev.cb) < U64
    ensures Exec(tr1).Some? && ev in Evs(Exec(tr1).value.log)
    decreases DueTick(ev.cb) - Exec(tr).value.seqNo
  {
    tr1 := Drains(tr, ev);
    hide Everything, Exec, Do, DueTick;
    if Exec(tr1).value.seqNo < DueTick(ev.cb) {
      TickKeepsOne(Exec(tr1).value, ev);
      OneMore(tr1, Tick);
      tr1 := CanRun(tr1 + [Tick], ev);
    } else {
      NothingLate(tr1, ev);
    }
  }

  /** The clock readings of the enqueued events never go back. */
  lemma {:induction false} EnqueuedInOrder(tr: Trace)
    requires Exec(tr).Some?
    ensures forall n :: 0 <= n < |Enqueues(tr)| ==> Enqueues(tr)[n].cb.at <= Exec(tr).value.seqNo
    ensures forall m, n :: 0 <= m < n < |Enqueues(tr)| ==> Enqueues(tr)[m].cb.at <= Enqueues(tr)[n].cb.at
  {
    if tr != [] {
      EnqueuedInOrder(tr[..|tr| - 1]);
    }
  }

  /** An event that has run is the enqueued event of its number. */
  lemma RanIsEnqueued(tr: Trace, i: nat)
    requires Exec(tr).Some? && i < |Exec(tr).value.log|
    ensures var ev := Exec(tr).value.log[i].ev; ev.done < |Enqueues(tr)| && ev == Enqueues(tr)[ev.done]
  {
    ExactlyOnce(tr);
    var ev := Exec(tr).value.log[i].ev;
    assert Everything(Exec(tr).value)[i] == ev;
    assert ev in multiset(Everything(Exec(tr).value));
    assert ev in Enqueues(tr);
  }

  /** With one constant delay (and no wrap) events run in the order they were enqueued. */
  lemma ConstantDelayIsFifo(tr: Trace, delay: Word, i: nat, j: nat)
    requires Exec(tr).Some? && i < j < |Exec(tr).value.log|
    requires forall n :: 0 <= n < |Enqueues(tr)| ==>
               Enqueues(tr)[n].cb.delay == delay && Enqueues(tr)[n].cb.at + delay < U64
    ensures Exec(tr).value.log[i].ev.done < Exec(tr).value.log[j].ev.done
  {
    LogIsStable(tr);
    EnqueuedInOrder(tr);
    RanIsEnqueued(tr, i);
    RanIsEnqueued(tr, j);
    var log := Exec(tr).value.log;
    assert Before(Evs(log)[i], Evs(log)[j]);
  }

  // ---------- The stable priority queue ----------

  /** The reference: a queue kept in order by insertion after all events due no later; a tick
      serves its due prefix. */
  function Insert(q: seq<Ev>, ev: Ev): seq<Ev> {
    if q == [] || DueTick(q[|q| - 1].cb) <= DueTick(ev.cb) then q + [ev]
    else Insert(q[..|q| - 1], ev) + [q[|q| - 1]]
  }

  function DuePrefix(q: seq<Ev>, now: nat): (d: seq<Ev>)
    ensures |d| <= |q|
  {
    if q == [] || DueTick(q[0].cb) > now then [] else [q[0]] + DuePrefix(q[1..], now)
  }

  datatype Queue = Queue(now: Word, waiting: seq<Ev>, count: nat, served: seq<Ev>)

  function DoQueue(p: Queue, a: Act): Queue {
    match a
    case Enqueue(delay) =>
      var ev := Event(AddWrap(p.now, delay), Enqueued(p.now, delay), p.count);
      p.(waiting := Insert(p.waiting, ev), count := p.count + 1)
    case Tick =>
      if p.now + 1 >= U64 then p else
      var due := DuePrefix(p.waiting, p.now + 1);
      p.(now := p.now + 1, served := p.served + due, waiting := p.waiting[|due|..])
    case RunNext => p
  }

  function RunQueue(tr: Trace): Queue {
    if tr == [] then Queue(0, [], 0, []) else DoQueue(RunQueue(tr[..|tr| - 1]), tr[|tr| - 1])
  }

  /** The events of a list in stable priority order. */
  function StableSort(es: seq<Ev>): seq<Ev> {
    if es == [] then [] else Insert(StableSort(es[..|es| - 1]), es[|es| - 1])
  }

  lemma InsertSnoc(q: seq<Ev>, last: Ev, ev: Ev)
    ensures Insert(q + [last], ev) ==
            if DueTick(last.cb) <= DueTick(ev.cb) then q + [last] + [ev] else Insert(q, ev) + [last]
  {
    assert (q + [last])[..|q|] == q;
  }

  /** Inserting into a queue that starts with events of one tick, all others being later. */
  lemma {:induction false} InsertAfterFront(front: seq<Ev>, back: seq<Ev>, ev: Ev, now: nat)
    requires forall e :: e in front ==> DueTick(e.cb) == now
    requires forall e :: e in back ==> DueTick(e.cb) > now
    requires DueTick(ev.cb) >= now
    ensures Insert(front + back, ev) ==
            if DueTick(ev.cb) == now then front + [ev] + back else front + Insert(back, ev)
    decreases |back|
  {
    if back == [] {
      assert front + back == front;
      assert front + [ev] + back == front + [ev];
      if front != [] {
        assert front[|front| - 1] in front;
      }
    } else {
      var n := |back| - 1;
      assert back == back[..n] + [back[n]] && front + back == front + back[..n] + [back[n]];
      InsertSnoc(front + back[..n], back[n], ev);
      InsertSnoc(back[..n], back[n], ev);
      InsertAfterFront(front, back[..n], ev, now);
      hide Insert;
      if DueTick(back[n].cb) <= DueTick(ev.cb) {
        assert front + back + [ev] == front + (back + [ev]);
      } else if DueTick(ev.cb) == now {
        assert front + [ev] + back == (front + [ev] + back[..n]) + [back[n]];
      } else {
        Regroup(front, Insert(back[..n], ev), [back[n]]);
      }
    }
  }

  lemma {:induction false} SortKeepsMembers(es: seq<Ev>)
    ensures multiset(StableSort(es)) == multiset(es)
  {
    if es != [] {
      var n := |es| - 1;
      assert es == es[..n] + [es[n]];
      SortSnoc(es[..n], es[n]);
      hide Insert, StableSort;
      SortKeepsMembers(es[..n]);
      InsertAdds(StableSort(es[..n]), es[n]);
    }
  }

  lemma {:induction false} InsertAdds(q: seq<Ev>, ev: Ev)
    ensures multiset(Insert(q, ev)) == multiset(q) + multiset{ev}
  {
    if !(q == [] || DueTick(q[|q| - 1].cb) <= DueTick(ev.cb)) {
      InsertAdds(q[..|q| - 1], ev);
      assert q == q[..|q| - 1] + [q[|q| - 1]];
    }
  }

  /** In a list with nothing overdue, sorting puts the events due now in front, in list order. */
  lemma {:induction false} SortSplits(es: seq<Ev>, now: nat)
    requires 1 <= now && forall ev :: ev in es ==> EvOk(ev, now - 1) && DueTick(ev.cb) >= now
    ensures StableSort(es) == Due(es, now) + StableSort(Later(es, now))
    ensures forall ev :: ev in Due(es, now) ==> DueTick(ev.cb) == now
    ensures forall ev :: ev in StableSort(Later(es, now)) ==> DueTick(ev.cb) > now
    decreases |es|, 1
  {
    SplitConserves(es, now);
    forall ev | ev in es ensures ev.target <= now <==> DueTick(ev.cb) <= now {
      TakenWhenDue(ev, now);
    }
    SortKeepsMembers(Later(es, now));
    forall ev | ev in StableSort(Later(es, now)) ensures ev in Later(es, now) {
      assert ev in multiset(StableSort(Later(es, now)));
    }
    if es != [] {
      SortSplitsLast(es, now);
    }
  }

  lemma SortSplitsLast(es: seq<Ev>, now: nat)
    requires es != [] && 1 <= now && forall ev :: ev in es ==> EvOk(ev, now - 1) && DueTick(ev.cb) >= now
    ensures StableSort(es) == Due(es, now) + StableSort(Later(es, now))
    decreases |es|, 0
  {
    hide StableSort, Insert, Due, Later;
    var n := |es| - 1;
    SortSplits(es[..n], now);
    assert es == es[..n] + [es[n]];
    SplitSnoc(es[..n], es[n], now);
    TakenWhenDue(es[n], now);
    var front, later := Due(es[..n], now), Later(es[..n], now);
    SortSnoc(es[..n], es[n]);
    InsertAfterFront(front, StableSort(later), es[n], now);
    SortSnoc(later, es[n]);
    assert later + [] == later && front + [] == front;
  }

  lemma SortSnoc(es: seq<Ev>, ev: Ev)
    ensures StableSort(es + [ev]) == Insert(StableSort(es), ev)
  {
    assert (es + [ev])[..|es|] == es;
  }

  lemma {:induction false} PrefixOfFront(front: seq<Ev>, back: seq<Ev>, now: nat)
    requires forall e :: e in front ==> DueTick(e.cb) == now
    requires forall e :: e in back ==> DueTick(e.cb) > now
    ensures DuePrefix(front + back, now) == front
  {
    if front == [] {
      assert front + back == back;
      if back != [] {
        assert back[0] in back;
      }
    } else {
      assert (front + back)[1..] == front[1..] + back;
      PrefixOfFront(front[1..], back, now);
    }
  }

  /** The event list and ticker refine the stable priority queue: after every run, the events run
      or about to run are the ones served, in the same order, and the list, sorted, is the queue. */
  lemma {:induction false} RefinesQueue(tr: Trace)
    requires Exec(tr).Some?
    ensures var s, p := Exec(tr).value, RunQueue(tr);
            && p.now == s.seqNo && p.count == s.count
            && p.waiting == StableSort(s.events)
            && p.served == Evs(s.log) + s.batch
  {
    if tr != [] {
      var n := |tr| - 1;
      RefinesQueue(tr[..n]);
      RunOk(tr[..n]);
      QueueStep(Exec(tr[..n]).value, RunQueue(tr[..n]), tr[n]);
    }
  }

  ghost predicate Same(s: Sched, p: Queue) {
    p.now == s.seqNo && p.count == s.count && p.waiting == StableSort(s.events) && p.served == Evs(s.log) + s.batch
  }

  lemma QueueEnqueue(s: Sched, p: Queue, delay: Word)
    requires Same(s, p) && Do(s, Enqueue(delay)).Some?
    ensures Same(Do(s, Enqueue(delay)).value, DoQueue(p, Enqueue(delay)))
  {
    var s1 := Do(s, Enqueue(delay)).value;
    assert s1.events[..|s1.events| - 1] == s.events;
  }

  lemma NothingOverdue(s: Sched)
    requires SchedOk(s)
    ensures forall ev :: ev in s.events ==> EvOk(ev, s.seqNo) && DueTick(ev.cb) > s.seqNo
  {}

  lemma QueueTick(s: Sched, p: Queue, s1: Sched)
    requires SchedOk(s) && Same(s, p) && Do(s, Tick) == Some(s1)
    ensures Same(s1, DoQueue(p, Tick))
  {
    hide SchedOk, Do, DoQueue, StableSort, Due, Later, Evs, DuePrefix, EvOk, DueTick;
    TickParts(s, s1);
    TickServes(s);
    QueueServes(p, s1.seqNo);
    NothingOverdue(s);
    ServedFront(s.events, p.waiting, s1.seqNo);
  }

  lemma QueueServes(p: Queue, now: nat)
    requires now == p.now + 1 < U64
    ensures var due := DuePrefix(p.waiting, now);
            DoQueue(p, Tick) == p.(now := now, served := p.served + due, waiting := p.waiting[|due|..])
  {}

  lemma TickServes(s: Sched)
    requires Do(s, Tick).Some?
    ensures var s1 := Do(s, Tick).value; Evs(s1.log) + s1.batch == (Evs(s.log) + s.batch) + Due(s.events, s.seqNo + 1)
  {
    assert Evs(s.log) + s.batch == Evs(s.log);
  }

  /** The queue's due prefix is what the tick takes from the list, and the rest is what it leaves. */
  lemma ServedFront(es: seq<Ev>, q: seq<Ev>, now: nat)
    requires 1 <= now && (forall ev :: ev in es ==> EvOk(ev, now - 1) && DueTick(ev.cb) >= now) && q == StableSort(es)
    ensures DuePrefix(q, now) == Due(es, now)
    ensures q[|DuePrefix(q, now)|..] == StableSort(Later(es, now))
  {
    SortSplits(es, now);
    PrefixOfFront(Due(es, now), StableSort(Later(es, now)), now);
  }

  lemma QueueStep(s: Sched, p: Queue, a: Act)
    requires SchedOk(s) && Same(s, p) && Do(s, a).Some?
    ensures Same(Do(s, a).value, DoQueue(p, a))
  {
    match a
    case Enqueue(delay) => QueueEnqueue(s, p, delay);
    case Tick => QueueTick(s, p, Do(s, a).value);
    case RunNext => RunKeepsServed(s);
  }

  lemma RunKeepsServed(s: Sched)
    requires Do(s, RunNext).Some?
    ensures var s1 := Do(s, RunNext).value; Evs(s1.log) + s1.batch == Evs(s.log) + s.batch
  {
    assert Evs(Do(s, RunNext).value.log) == Evs(s.log) + [s.batch[0]];
  }
}
