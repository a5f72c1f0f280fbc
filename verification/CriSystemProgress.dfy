/** Progress: in every run the callback of a handler blocked in Enqueue is running or has run once
    the ticker has ticked ten times; and in every reachable state the holder of b.mu can be released
    by its own steps and the ticker's alone.  So no cycle of the two locks and the done channels is
    ever closed. */
module CriSystemProgress {
  import opened Base
  import opened CriModel
  import Events
  import opened CriTheorems
  import opened CriSystem
  import opened CriEffects
  import opened CriSystemInvariant
  import opened CriSystemRun

  // ---------- How far the holder is from its Unlock ----------

  function TickerRest(tk: TickerPc): nat {
    match tk
    case Sleeping => 2
    case Splitting => 1
    case _ => 3
  }

  function PcRank(pc: CbPc): nat {
    match pc
    case CbGet => 4
    case CbPutSandbox(_) => 3
    case CbPutContainer(_) => 3
    case CbList => 2
    case CbEach(_) => 1
    case CbEnd => 0
  }

  function TodoRank(pc: CbPc): nat {
    if pc.CbEach? then |pc.todo| else 0
  }

  datatype Rank = Rank(phase: nat, left: nat, todo: nat, rest: nat)

  /** Lexicographic distance of the holder from its Unlock. */
  function RankOf(s: Sys): Rank
    requires s.bmu.Some? && s.bmu.value in s.threads
  {
    var tickerHasR := if s.rmu == Some(Ticker) then 1 else 0;
    match s.threads[s.bmu.value]
    case Ready(_, n) => Rank(3, if n > 4 then 0 else 5 - n, 1, tickerHasR)
    case Inside(_, n) => Rank(3, if n > 4 then 0 else 5 - n, 0, 0)
    case Blocked(_, done) =>
      if s.events != [] then
        Rank(2, if s.events[0].target > s.seqNo then s.events[0].target - s.seqNo else 0, 0, TickerRest(s.ticker))
      else if Batch(s.ticker) != [] then
        Rank(1, PcRank(CbAt(s)), TodoRank(CbAt(s)), if s.ticker.Running? then 1 else 0)
      else Rank(0, 1, 0, 0)
    case _ => Rank(0, 0, 0, 0)
  }

  predicate Below(a: Rank, b: Rank) {
    || a.phase < b.phase
    || (a.phase == b.phase && a.left < b.left)
    || (a.phase == b.phase && a.left == b.left && a.todo < b.todo)
    || (a.phase == b.phase && a.left == b.left && a.todo == b.todo && a.rest < b.rest)
  }

  /** Ticks that may still be needed. */
  function TicksLeft(s: Sys): nat
    requires s.bmu.Some? && s.bmu.value in s.threads
  {
    match s.threads[s.bmu.value]
    case Ready(_, _) => DELAY + if s.ticker.Splitting? then 1 else 0
    case Inside(_, _) => DELAY
    case Blocked(_, _) => if s.events != [] && s.events[0].target > s.seqNo then s.events[0].target - s.seqNo else 0
    case _ => 0
  }

  // ---------- The helpful step ----------

  /** An act of the holder t or of the ticker. */
  predicate Helps(t: nat, a: Act) {
    IsTickerAct(a) || a == LockR(t) || a == Wake(t) || a == UnlockB(t) || (a.DoSection? && a.t == t)
  }

  lemma GotExists<T(!new)>(m: map<string, T>, keep: T -> bool) returns (at: Option<string>)
    ensures Got(m, keep, at)
  {
    if k :| k in m && keep(m[k]) {
      at := Some(k);
    } else {
      at := None;
    }
  }

  /** Every scan can be completed. */
  lemma SectionRuns(st: Store, r: Req, n: nat) returns (at: Option<string>)
    ensures Section(st, r, n, at).Some?
  {
    match r
    case RunPod(pod, stamp, _) => at := GotExists(st.sandboxes, x => MatchSandbox(x, PodById(SandboxId(pod.meta.uid, stamp))));
    case StopPod(id, _) => at := GotExists(st.sandboxes, x => MatchSandbox(x, PodById(id)));
    case RemovePod(id) => at := GotExists(st.sandboxes, x => MatchSandbox(x, PodById(id)));
    case PodStatus(id) => at := GotExists(st.sandboxes, x => MatchSandbox(x, PodById(id)));
    case CreateContainer(sbid, ctr, stamp, _) =>
      if n == 0 {
        at := GotExists(st.sandboxes, x => MatchSandbox(x, PodById(sbid)));
      } else if n == 1 {
        at := GotExists(st.images, x => MatchImage(x, ImageByName(ctr.image)));
      } else {
        at := GotExists(st.containers, x => MatchContainer(x, ContainerById(ContainerId(sbid, ctr.name, stamp))));
      }
    case StartContainer(id, _) => at := GotExists(st.containers, x => MatchContainer(x, ContainerById(id)));
    case StopContainer(id, _) => at := GotExists(st.containers, x => MatchContainer(x, ContainerById(id)));
    case RemoveContainer(id) => at := GotExists(st.containers, x => MatchContainer(x, ContainerById(id)));
    case ContainerStatus(id) => at := GotExists(st.containers, x => MatchContainer(x, ContainerById(id)));
    case ImageStatus(image) => at := GotExists(st.images, x => MatchImage(x, ImageByName(image)));
    case _ => at := None;
  }

  lemma ListExists(m: map<string, ContainerRec>, sbid: string) returns (keys: seq<string>)
    ensures ListsOf(m, sbid, keys)
  {
    var members := set k | k in m && m[k].p.sandboxId == sbid;
    keys := Enumerate(members);
    forall i | 0 <= i < |keys| ensures keys[i] in members {
      assert keys[i] in keys;
    }
  }

  lemma CbRuns(mid: Store, cb: Callback, pc: CbPc, st: Store) returns (at: Option<string>, keys: seq<string>)
    requires CbOk(mid, cb, pc, st) && !CbFinished(pc)
    ensures CbSection(st, cb, pc, at, keys).Some?
  {
    at, keys := None, [];
    match cb
    case ReadyPod(id) => at := GotExists(st.sandboxes, x => MatchSandbox(x, PodById(id)));
    case UnreadyPod(id, _) =>
      at := GotExists(st.sandboxes, x => MatchSandbox(x, PodById(id)));
      keys := ListExists(st.containers, id);
    case RunCtr(id, _) => at := GotExists(st.containers, x => MatchContainer(x, ContainerById(id)));
    case ExitCtr(id, _) => at := GotExists(st.containers, x => MatchContainer(x, ContainerById(id)));
    case StoreImage(_) =>
  }

  /** A section leads to a strictly later one. */
  lemma SectionAdvances(st: Store, r: Req, n: nat, at: Option<string>)
    requires Section(st, r, n, at).Some? && Section(st, r, n, at).value.1.Goto?
    ensures n < 4 && Section(st, r, n, at).value.1.n == n + 1
  {}

  lemma CbAdvances(st: Store, cb: Callback, pc: CbPc, at: Option<string>, keys: seq<string>)
    requires CbSection(st, cb, pc, at, keys).Some?
    ensures var pc1 := CbSection(st, cb, pc, at, keys).value.1;
            PcRank(pc1) < PcRank(pc) || (PcRank(pc1) == PcRank(pc) && TodoRank(pc1) < TodoRank(pc))
  {}

  /** What the helpful step achieves. */
  ghost predicate Closer(s: Sys, a: Act, s1: Sys)
    requires s.bmu.Some? && s.bmu.value in s.threads
  {
    || s1.bmu.None?
    || (&& s1.bmu == s.bmu && s1.bmu.value in s1.threads
        && Below(RankOf(s1), RankOf(s))
        && TicksLeft(s1) + (if a.TickSplit? then 1 else 0) <= TicksLeft(s))
  }

  ghost predicate Achieves(s: Sys, a: Act) {
    && s.bmu.Some? && s.bmu.value in s.threads
    && Helps(s.bmu.value, a) && Do(s, a).Some? && Closer(s, a, Do(s, a).value)
  }

  /** Unless the holder itself has r.mu, only the ticker can. */
  lemma OnlyTickerHasR(s: Sys)
    requires MutexOk(s) && s.bmu.Some? && !s.threads[s.bmu.value].Inside?
    ensures s.rmu.None? || s.rmu == Some(Ticker)
  {
    if s.rmu.Some? && s.rmu.value.Handler? {
      assert false;
    }
  }

  lemma HelpReady(s: Sys) returns (a: Act)
    requires MutexOk(s) && PendingOk(s) && s.bmu.Some? && s.threads[s.bmu.value].Ready?
    ensures Achieves(s, a)
  {
    NonePending(s);
    OnlyTickerHasR(s);
    a := if s.rmu == Some(Ticker) then TickSplit else LockR(s.bmu.value);
  }

  lemma HelpInside(s: Sys) returns (a: Act)
    requires MutexOk(s) && PendingOk(s) && s.bmu.Some? && s.threads[s.bmu.value].Inside?
    ensures Achieves(s, a)
  {
    var t := s.bmu.value;
    var r, n := s.threads[t].r, s.threads[t].n;
    var at := SectionRuns(s.store, r, n);
    a := DoSection(t, at);
    var next := Section(s.store, r, n, at).value.1;
    if next.Goto? {
      SectionAdvances(s.store, r, n, at);
    } else if next.Schedule? {
      NonePending(s);
    }
  }

  lemma HelpQueued(s: Sys) returns (a: Act)
    requires MutexOk(s) && PendingOk(s) && s.bmu.Some? && s.threads[s.bmu.value].Blocked? && s.events != []
    ensures Achieves(s, a)
  {
    assert |Batch(s.ticker)| + |s.events| == |Pending(s)|;
    assert Batch(s.ticker) == [] && s.events == [s.events[0]];
    OnlyTickerHasR(s);
    match s.ticker
    case Sleeping => a := TickLock;
    case Splitting =>
      a := TickSplit;
      Events.SplitOne(s.events[0], s.seqNo + 1);
    case _ => a := TickDone;
  }

  lemma HelpInCallback(s: Sys) returns (a: Act)
    requires s.bmu.Some? && s.bmu.value in s.threads && s.threads[s.bmu.value].Blocked?
    requires s.ticker.RunningInside? && s.ticker.batch != [] && s.rmu == Some(Ticker) && s.events == []
    requires s.ticker.batch[0].cb == CbOf(s.threads[s.bmu.value].r) && !CbFinished(s.ticker.pc)
    requires Underway(s.base, s.threads[s.bmu.value].r, s.ticker.pc, s.store)
    ensures Achieves(s, a)
  {
    hide CbOk, CbSection, StageOk;
    var r := s.threads[s.bmu.value].r;
    var at, keys := CbRuns(Prepared(s.base, r), CbOf(r), s.ticker.pc, s.store);
    a := CbDo(at, keys);
    CbAdvances(s.store, s.ticker.batch[0].cb, s.ticker.pc, at, keys);
  }

  lemma HelpRunning(s: Sys) returns (a: Act)
    requires MutexOk(s) && PendingOk(s) && s.bmu.Some? && s.threads[s.bmu.value].Blocked? && Batch(s.ticker) != []
    requires Underway(s.base, s.threads[s.bmu.value].r, CbAt(s), s.store)
    ensures Achieves(s, a)
  {
    assert |Batch(s.ticker)| + |s.events| == |Pending(s)|;
    assert s.events == [] && Pending(s)[0] == s.ticker.batch[0];
    OnlyTickerHasR(s);
    hide Underway, CbSection;
    if s.ticker.RunningInside? {
      a := HelpInCallback(s);
    } else if CbFinished(s.ticker.pc) {
      a := CbClose;
    } else {
      a := CbLock;
    }
  }

  /** In every reachable state with b.mu held, a step of the holder or of the ticker is enabled
      that brings the Unlock closer: there is no deadlock. */
  lemma HelpfulStep(s: Sys) returns (a: Act)
    requires MutexOk(s) && PendingOk(s) && StoreOk(s) && s.bmu.Some?
    ensures Achieves(s, a)
  {
    var th := s.threads[s.bmu.value];
    if th.Ready? {
      a := HelpReady(s);
    } else if th.Inside? {
      a := HelpInside(s);
    } else if th.Blocked? {
      if s.events != [] {
        a := HelpQueued(s);
      } else if Batch(s.ticker) != [] {
        a := HelpRunning(s);
      } else {
        a := Wake(s.bmu.value);
      }
    } else {
      a := UnlockB(s.bmu.value);
    }
  }

  // ---------- The bound that holds in every run ----------

  /** Thread t is receiving from channel d, which is open. */
  predicate WaitsFor(s: Sys, t: nat, d: nat) {
    t in s.threads && s.threads[t].Blocked? && s.threads[t].done == d && d !in s.closed
  }

  /** The pending event is e, and a tick up to number `limit` runs it or has run it. */
  predicate OnItsWay(s: Sys, e: Event, limit: nat) {
    Pending(s) == [e] && s.seqNo <= limit && (s.events != [] ==> s.seqNo < e.target <= limit)
  }

  lemma StartsOnItsWay(s: Sys, t: nat, d: nat) returns (e: Event)
    requires MutexOk(s) && PendingOk(s) && WaitsFor(s, t, d)
    ensures e.done == d && OnItsWay(s, e, s.seqNo + DELAY)
  {
    e := Pending(s)[0];
    assert Pending(s) == [e];
    if s.events != [] {
      assert s.events[|s.events| - 1] == Pending(s)[|Pending(s)| - 1] == e;
      assert e in s.events;
    }
  }

  lemma TickStays(s: Sys, e: Event, limit: nat)
    requires OnItsWay(s, e, limit) && DoTickSplit(s).Some?
    ensures OnItsWay(DoTickSplit(s).value, e, limit)
  {
    NothingRuns(s, e);
    Events.SplitOne(e, s.seqNo + 1);
    hide Events.Due, Events.Later;
    assert [e] + [] == [] + [e] == [e];
  }

  lemma NothingRuns(s: Sys, e: Event)
    requires Pending(s) == [e] && s.ticker.Splitting?
    ensures s.events == [e]
  {
    assert [] + s.events == s.events;
  }

  lemma ClosesHead(s: Sys, e: Event)
    requires Pending(s) == [e] && DoCbClose(s).Some?
    ensures e.done in DoCbClose(s).value.closed
  {
    assert Pending(s)[0] == s.ticker.batch[0];
  }

  /** Every step but the close of its channel keeps an event on its way. */
  lemma StepStays(s: Sys, a: Act, e: Event, limit: nat)
    requires MutexOk(s) && PendingOk(s) && OnItsWay(s, e, limit)
    requires Do(s, a).Some? && e.done !in Do(s, a).value.closed
    ensures OnItsWay(Do(s, a).value, e, limit)
  {
    hide Section, CbSection, CbOf;
    if a.TickSplit? {
      TickStays(s, e, limit);
    } else {
      if DoCbClose(s).Some? {
        ClosesHead(s, e);
      }
      assert Pending(Do(s, a).value) == Pending(s);
    }
  }

  lemma ClosedGrows(s: Sys, a: Act)
    requires Do(s, a).Some?
    ensures s.closed <= Do(s, a).value.closed
  {}

  lemma {:induction false} StaysOnItsWay(tr: Trace, k: nat, e: Event, limit: nat)
    requires k <= |tr| && Exec(tr).Some? && Exec(tr[..k]).Some?
    requires OnItsWay(Exec(tr[..k]).value, e, limit) && e.done !in Exec(tr).value.closed
    ensures OnItsWay(Exec(tr).value, e, limit)
  {
    if k == |tr| {
      assert tr[..k] == tr;
    } else {
      var n := |tr| - 1;
      assert tr[..n][..k] == tr[..k];
      ClosedGrows(Exec(tr[..n]).value, tr[n]);
      hide Do, OnItsWay;
      StaysOnItsWay(tr[..n], k, e, limit);
      RunOk(tr[..n]);
      StepStays(Exec(tr[..n]).value, tr[n], e, limit);
    }
  }

  /** The ticks of a run, which the tick counter counts. */
  function Ticks(tr: Trace): nat {
    if tr == [] then 0 else Ticks(tr[..|tr| - 1]) + if tr[|tr| - 1].TickSplit? then 1 else 0
  }

  lemma {:induction false} CounterCounts(tr: Trace)
    requires Exec(tr).Some?
    ensures Exec(tr).value.seqNo == Ticks(tr)
  {
    if tr != [] {
      CounterCounts(tr[..|tr| - 1]);
    }
  }

  lemma {:induction false} TicksCons(a: Act, rest: Trace)
    ensures Ticks([a] + rest) == Ticks(rest) + if a.TickSplit? then 1 else 0
    decreases |rest|
  {
    var tr := [a] + rest;
    if rest == [] {
      assert tr[..0] == [];
    } else {
      var n := |rest| - 1;
      assert tr[..|tr| - 1] == [a] + rest[..n] && tr[|tr| - 1] == rest[n];
      TicksCons(a, rest[..n]);
    }
  }

  /** In every run: while the channel a handler waits for in Enqueue stays open, the ticker has
      ticked at most ten times since, and at the tenth it is running that handler's own callback; it
      does not tick again before it has closed the channel.  So no schedule makes a handler wait for
      more than ten ticks. */
  lemma WaitIsBounded(tr: Trace, k: nat, t: nat, d: nat)
    requires k <= |tr| && Exec(tr).Some? && Exec(tr[..k]).Some?
    requires WaitsFor(Exec(tr[..k]).value, t, d) && d !in Exec(tr).value.closed
    ensures var s0, s := Exec(tr[..k]).value, Exec(tr).value;
            && s.seqNo <= s0.seqNo + 10 && Ticks(tr) <= Ticks(tr[..k]) + 10
            && (s.events == [] || s.seqNo == s0.seqNo + 10 ==>
                  |Batch(s.ticker)| == 1 && Batch(s.ticker)[0].done == d && DoTickSplit(s).None?)
  {
    RunOk(tr[..k]);
    CounterCounts(tr);
    CounterCounts(tr[..k]);
    var s0, s := Exec(tr[..k]).value, Exec(tr).value;
    var e := StartsOnItsWay(s0, t, d);
    StaysOnItsWay(tr, k, e, s0.seqNo + DELAY);
    if s.events == [] || s.seqNo == s0.seqNo + DELAY {
      assert s.events == [];
      assert Batch(s.ticker) == Pending(s);
    }
  }

  // ---------- Not before the tenth tick ----------

  /** Event e waits in the list until the clock reaches its tick. */
  predicate Waits(s: Sys, e: Event) {
    s.seqNo < e.target ==> e in s.events && e.done !in s.closed
  }

  lemma WaitsStep(s: Sys, a: Act, e: Event)
    requires PendingOk(s) && Waits(s, e) && Do(s, a).Some?
    ensures Waits(Do(s, a).value, e) && s.seqNo <= Do(s, a).value.seqNo
  {
    if a.TickSplit? {
      Events.SplitMembers(s.events, s.seqNo + 1, e);
    } else if a.CbClose? && s.seqNo < e.target {
      AloneInList(s, e);
    }
    hide Section, CbSection, Events.Later, Events.Due;
  }

  lemma AloneInList(s: Sys, e: Event)
    requires PendingOk(s) && e in s.events
    ensures Batch(s.ticker) == []
  {
    assert |Pending(s)| == |Batch(s.ticker)| + |s.events|;
  }

  lemma {:induction false} StillWaits(tr: Trace, k: nat, e: Event)
    requires k <= |tr| && Exec(tr).Some? && Exec(tr[..k]).Some? && Waits(Exec(tr[..k]).value, e)
    ensures Waits(Exec(tr).value, e)
  {
    if k == |tr| {
      assert tr[..k] == tr;
    } else {
      var n := |tr| - 1;
      assert tr[..n][..k] == tr[..k];
      hide Do, Waits;
      StillWaits(tr[..n], k, e);
      RunOk(tr[..n]);
      WaitsStep(Exec(tr[..n]).value, tr[n], e);
    }
  }

  lemma Scheduled(s: Sys, a: Act, t: nat)
    requires PendingOk(s) && Do(s, a).Some? && t in s.threads && t in Do(s, a).value.threads
    requires !s.threads[t].Blocked? && Do(s, a).value.threads[t].Blocked?
    requires forall d :: d in s.closed ==> d < s.made
    ensures var s1 := Do(s, a).value;
            exists e: Event :: && e in s1.events && e.done == s1.threads[t].done && e.target == s.seqNo + 10
                               && s1.seqNo == s.seqNo && e.done !in s1.closed
  {
    hide Section, CbSection;
    var s1 := Do(s, a).value;
    assert s1.events[|s1.events| - 1] in s1.events;
  }

  /** A handler that has just begun to wait is not released before the tenth tick; with WaitIsBounded,
      it is released by the tenth exactly. */
  lemma WaitIsLongEnough(tr: Trace, k: nat, t: nat)
    requires k < |tr| && Exec(tr).Some? && Exec(tr[..k]).Some? && Exec(tr[..k + 1]).Some?
    requires t in Exec(tr[..k]).value.threads && t in Exec(tr[..k + 1]).value.threads
    requires !Exec(tr[..k]).value.threads[t].Blocked? && Exec(tr[..k + 1]).value.threads[t].Blocked?
    ensures Exec(tr[..k + 1]).value.threads[t].done in Exec(tr).value.closed ==> Ticks(tr) >= Ticks(tr[..k]) + 10
  {
    hide Do, Exec, MutexOk, StoreOk, ThreadsOk, Waits;
    var s, s1 := Exec(tr[..k]).value, Exec(tr[..k + 1]).value;
    NextIs(tr, k);
    ClosedBelow(tr[..k]);
    CounterCounts(tr);
    CounterCounts(tr[..k]);
    Scheduled(s, tr[k], t);
    var e: Event :| e in s1.events && e.done == s1.threads[t].done && e.target == s.seqNo + 10
                    && s1.seqNo == s.seqNo && e.done !in s1.closed;
    NowWaits(s1, e);
    StillWaits(tr, k + 1, e);
    if e.done in Exec(tr).value.closed {
      Released(Exec(tr).value, e);
    }
  }

  lemma NowWaits(s: Sys, e: Event)
    requires e in s.events && e.done !in s.closed
    ensures Waits(s, e)
  {}

  lemma Released(s: Sys, e: Event)
    requires Waits(s, e) && e.done in s.closed
    ensures s.seqNo >= e.target
  {}

  lemma NextIs(tr: Trace, k: nat)
    requires k < |tr| && Exec(tr[..k]).Some? && Exec(tr[..k + 1]).Some?
    ensures Do(Exec(tr[..k]).value, tr[k]) == Exec(tr[..k + 1])
  {
    assert tr[..k + 1][..k] == tr[..k];
  }

  lemma ClosedBelow(tr: Trace)
    requires Exec(tr).Some?
    ensures var s := Exec(tr).value; PendingOk(s) && forall d :: d in s.closed ==> d < s.made
  {
    RunOk(tr);
  }

  // ---------- Runs that release b.mu ----------

  /** The state some more steps lead to. */
  ghost function Continue(s: Sys, more: Trace): Option<Sys>
    decreases |more|
  {
    if more == [] then Some(s) else
    match Do(s, more[0])
    case None => None
    case Some(s1) => Continue(s1, more[1..])
  }

  lemma {:induction false} ContinueRun(tr: Trace, more: Trace)
    requires Exec(tr).Some?
    ensures Exec(tr + more) == Continue(Exec(tr).value, more)
    decreases |more|
  {
    if more == [] {
      assert tr + more == tr;
    } else {
      assert (tr + [more[0]])[..|tr|] == tr;
      assert tr + more == (tr + [more[0]]) + more[1..];
      if Do(Exec(tr).value, more[0]).Some? {
        ContinueRun(tr + [more[0]], more[1..]);
      } else {
        NoneStays(tr + [more[0]], more[1..]);
      }
    }
  }

  lemma {:induction false} NoneStays(tr: Trace, more: Trace)
    requires Exec(tr).None?
    ensures Exec(tr + more).None?
    decreases |more|
  {
    if more == [] {
      assert tr + more == tr;
    } else {
      var n := |more| - 1;
      assert (tr + more)[..|tr + more| - 1] == tr + more[..n];
      NoneStays(tr, more[..n]);
    }
  }

  lemma HelpfulStepOk(s: Sys) returns (a: Act)
    requires SysOk(s) && s.bmu.Some?
    ensures Achieves(s, a) && SysOk(Do(s, a).value)
  {
    a := HelpfulStep(s);
    StepOk(s, a);
  }

  lemma ContinueOne(s: Sys, a: Act, rest: Trace)
    requires Do(s, a).Some?
    ensures Continue(s, [a] + rest) == Continue(Do(s, a).value, rest)
    ensures Ticks([a] + rest) == Ticks(rest) + if a.TickSplit? then 1 else 0
  {
    assert ([a] + rest)[1..] == rest;
    TicksCons(a, rest);
  }

  /** A way to the Unlock by helpful steps. */
  ghost predicate WayOut(s: Sys, more: Trace) {
    && s.bmu.Some? && s.bmu.value in s.threads
    && Continue(s, more).Some? && Continue(s, more).value.bmu.None?
    && (forall a :: a in more ==> Helps(s.bmu.value, a))
    && Ticks(more) <= TicksLeft(s)
  }

  lemma LongerWay(s: Sys, a: Act, rest: Trace)
    requires Achieves(s, a)
    requires Do(s, a).value.bmu.Some? ==> WayOut(Do(s, a).value, rest)
    requires Do(s, a).value.bmu.None? ==> rest == []
    ensures Do(s, a).value.bmu.Some? ==> WayOut(s, [a] + rest)
    ensures Do(s, a).value.bmu.None? && Ticks([a]) <= TicksLeft(s) ==> WayOut(s, [a])
  {
    ContinueOne(s, a, rest);
    assert [a] + [] == [a];
  }

  /** Only the holder's own step releases b.mu. */
  lemma LastIsUnlock(s: Sys, a: Act)
    requires Do(s, a).Some? && s.bmu.Some? && Do(s, a).value.bmu.None?
    ensures a.UnlockB? && Ticks([a]) == 0
  {
    assert [a][..0] == [];
  }

  lemma {:induction false} Releases(s: Sys) returns (more: Trace)
    requires SysOk(s) && s.bmu.Some? && s.bmu.value in s.threads
    ensures WayOut(s, more)
    decreases RankOf(s).phase, RankOf(s).left, RankOf(s).todo, RankOf(s).rest
  {
    var a := HelpfulStepOk(s);
    var s1 := Do(s, a).value;
    var rest: Trace := [];
    if s1.bmu.Some? {
      rest := Releases(s1);
    } else {
      LastIsUnlock(s, a);
    }
    LongerWay(s, a, rest);
    more := [a] + rest;
    assert s1.bmu.None? ==> more == [a];
  }

  lemma FewTicks(s: Sys)
    requires PendingOk(s) && s.bmu.Some? && s.bmu.value in s.threads
    ensures TicksLeft(s) <= DELAY + 1
  {
    if s.events != [] {
      assert s.events[0] in s.events;
    }
  }

  /** Whoever holds b.mu can release it within eleven ticks, by its own and the ticker's steps. */
  lemma HolderIsReleased(tr: Trace) returns (more: Trace)
    requires Exec(tr).Some? && Exec(tr).value.bmu.Some?
    ensures Exec(tr + more).Some? && Exec(tr + more).value.bmu.None?
    ensures forall a :: a in more ==> Helps(Exec(tr).value.bmu.value, a)
    ensures Ticks(more) <= 11
  {
    RunOk(tr);
    more := Releases(Exec(tr).value);
    FewTicks(Exec(tr).value);
    ContinueRun(tr, more);
  }
}
