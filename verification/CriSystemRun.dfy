/** Every run of the concurrent CRI runtime, whatever is requested, keeps mutual exclusion, at most
    one pending event, and a store explained by serving one request after another. */
module CriSystemRun {
  import opened Base
  import opened CriModel
  import Events
  import opened CriTheorems
  import opened CriSystem
  import opened CriEffects
  import opened CriSystemInvariant

  predicate Holds(th: Thread) {
    th.Ready? || th.Inside? || th.Blocked? || th.Leaving? || th.LeavingAgain?
  }

  function Batch(tk: TickerPc): seq<Event> {
    match tk
    case Running(batch, _) => batch
    case RunningInside(batch, _) => batch
    case _ => []
  }

  /** Events enqueued whose callback has not finished. */
  function Pending(s: Sys): seq<Event> {
    Batch(s.ticker) + s.events
  }

  /** Each lock is held by the goroutine whose program counter says so, and by no other. */
  ghost predicate MutexOk(s: Sys) {
    && (forall t :: t in s.threads ==> (Holds(s.threads[t]) <==> s.bmu == Some(t)))
    && (s.bmu.Some? ==> s.bmu.value in s.threads)
    && (forall t :: t in s.threads ==> (s.threads[t].Inside? <==> s.rmu == Some(Handler(t))))
    && (s.rmu.Some? && s.rmu.value.Handler? ==> s.rmu.value.t in s.threads)
    && (s.rmu == Some(Ticker) <==> s.ticker.Splitting? || s.ticker.RunningInside?)
    && (s.ticker.RunningInside? ==> s.ticker.batch != [] && !CbFinished(s.ticker.pc))
  }

  /** At most one event is pending, and its enqueuer holds b.mu, blocked on its channel. */
  ghost predicate PendingOk(s: Sys) {
    && |Pending(s)| <= 1
    && (forall d :: d in s.closed ==> d < s.made)
    && (|Pending(s)| == 1 ==>
          var e := Pending(s)[0];
          && s.bmu.Some? && s.bmu.value in s.threads
          && s.threads[s.bmu.value] == Blocked(s.threads[s.bmu.value].r, e.done)
          && e.cb == CbOf(s.threads[s.bmu.value].r)
          && e.done < s.made && e.done !in s.closed)
    && (forall t :: t in s.threads && s.threads[t].Blocked? && Pending(s) == [] ==> s.threads[t].done in s.closed)
    && (forall e :: e in s.events ==> s.seqNo < e.target <= s.seqNo + DELAY)
  }

  /** Where the pending callback is. */
  function CbAt(s: Sys): CbPc {
    match s.ticker
    case Running(batch, pc) => if batch == [] then CbGet else pc
    case RunningInside(batch, pc) => if batch == [] then CbGet else pc
    case _ => CbGet
  }

  /** The store may be the outcome of serving these requests with these replies, one by one. */
  ghost predicate Explains(hist: seq<(Req, Reply)>, st: Store) {
    if hist == [] then st == EMPTY
    else
      var h := hist[|hist| - 1];
      exists mid :: Explains(hist[..|hist| - 1], mid) && Serves(mid, h.0, st, h.1)
  }

  /** The store, relative to the one found when b.mu was taken. */
  ghost predicate StoreOk(s: Sys) {
    if s.bmu.None? || s.bmu.value !in s.threads || s.threads[s.bmu.value].LeavingAgain? then Explains(s.hist, s.store)
    else
      Explains(s.hist, s.base) &&
      match s.threads[s.bmu.value]
      case Ready(r, n) => StageOk(s.base, r, n, s.store)
      case Inside(r, n) => StageOk(s.base, r, n, s.store)
      case Blocked(r, _) =>
        if Pending(s) == [] then Serves(s.base, r, s.store, AfterWait(r)) else Underway(s.base, r, CbAt(s), s.store)
      case Leaving(r, reply) => Serves(s.base, r, s.store, reply)
      case _ => true
  }

  /** The callback of r, whose handler found base and passed its checks, is at pc. */
  ghost predicate Underway(base: Store, r: Req, pc: CbPc, st: Store) {
    && Schedules(r) && StageOk(base, r, LastStage(r), Prepared(base, r))
    && CbOk(Prepared(base, r), CbOf(r), pc, st)
  }

  /** A finished request gives the reply recorded for it, except that PullImage may report that
      its context was canceled. */
  predicate ThreadOk(th: Thread, hist: seq<(Req, Reply)>) {
    match th
    case Selecting(r, at) => at < |hist| && r.PullImage? && hist[at] == (r, AfterWait(r))
    case WantBack(r, reply, at) => at < |hist| && r.PullImage? && hist[at].0 == r && Served(r, reply, hist[at].1)
    case LeavingAgain(r, reply, at) => at < |hist| && r.PullImage? && hist[at].0 == r && Served(r, reply, hist[at].1)
    case Finished(r, reply, at) => at < |hist| && hist[at].0 == r && Served(r, reply, hist[at].1)
    case _ => true
  }

  predicate Served(r: Req, reply: Reply, recorded: Reply) {
    reply == recorded || (r.PullImage? && reply == Failed(Canceled))
  }

  ghost predicate ThreadsOk(threads: map<nat, Thread>, hist: seq<(Req, Reply)>) {
    forall t :: t in threads ==> ThreadOk(threads[t], hist)
  }

  ghost predicate SysOk(s: Sys) {
    MutexOk(s) && PendingOk(s) && StoreOk(s) && ThreadsOk(s.threads, s.hist)
  }

  // ---------- Small facts ----------

  lemma BeginOk(base: Store, r: Req)
    ensures match Begin(r)
            case Goto(n) => StageOk(base, r, n, base)
            case Return(reply) => Serves(base, r, base, reply)
            case Schedule(_) => false
  {}

  /** With one event at most a tick takes it or leaves it. */
  lemma FewSplit(events: seq<Event>, now: nat)
    requires |events| <= 1
    ensures Events.Due(events, now) + Events.Later(events, now) == events
    ensures forall e :: e in Events.Later(events, now) ==> e in events && e.target > now
  {
    if events != [] {
      assert events == [events[0]];
      Events.SplitOne(events[0], now);
    }
  }

  lemma ExplainsSnoc(hist: seq<(Req, Reply)>, base: Store, h: (Req, Reply), st: Store)
    requires Explains(hist, base) && Serves(base, h.0, st, h.1)
    ensures Explains(hist + [h], st)
  {
    var all := hist + [h];
    assert all[..|all| - 1] == hist && all[|all| - 1] == h;
    hide Serves;
    assert Explains(all[..|all| - 1], base) && Serves(base, h.0, st, h.1);
  }

  lemma NonePending(s: Sys)
    requires PendingOk(s)
    requires s.bmu.None? || s.bmu.value !in s.threads || !s.threads[s.bmu.value].Blocked?
    ensures Pending(s) == [] && s.events == [] && Batch(s.ticker) == []
  {}

  /** One thread moved. */
  lemma OneThread(threads: map<nat, Thread>, t: nat, th: Thread, hist: seq<(Req, Reply)>)
    requires ThreadsOk(threads, hist) && ThreadOk(th, hist)
    ensures ThreadsOk(threads[t := th], hist)
  {}

  lemma HistGrows(threads: map<nat, Thread>, hist: seq<(Req, Reply)>, h: (Req, Reply))
    requires ThreadsOk(threads, hist)
    ensures ThreadsOk(threads, hist + [h])
  {
    forall p | p in threads ensures ThreadOk(threads[p], hist + [h]) {
      assert ThreadOk(threads[p], hist);
    }
  }

  /** Nothing StoreOk looks at changed. */
  lemma StoreSame(s: Sys, s1: Sys)
    requires StoreOk(s)
    requires s1.bmu == s.bmu && s1.base == s.base && s1.store == s.store && s1.hist == s.hist
    requires s.bmu.Some? ==> s.bmu.value in s.threads && s.bmu.value in s1.threads
                             && s1.threads[s.bmu.value] == s.threads[s.bmu.value]
    requires Pending(s1) == Pending(s) && CbAt(s1) == CbAt(s)
    ensures StoreOk(s1)
  {}

  /** Nothing PendingOk looks at changed, except threads without b.mu and the due time passed. */
  lemma PendingSame(s: Sys, s1: Sys)
    requires PendingOk(s) && MutexOk(s) && Pending(s1) == Pending(s)
    requires s1.bmu == s.bmu && s1.closed == s.closed && s1.made == s.made
    requires s.bmu.Some? ==> s.bmu.value in s1.threads && s1.threads[s.bmu.value] == s.threads[s.bmu.value]
    requires forall t :: t in s1.threads && s1.threads[t].Blocked? ==> s.bmu == Some(t)
    requires forall e :: e in s1.events ==> e in s.events && s1.seqNo < e.target
    requires s.seqNo <= s1.seqNo
    ensures PendingOk(s1)
  {}

  // ---------- Steps of handlers ----------

  /** The thread holding b.mu moves on, still holding it, while nothing is pending. */
  lemma HolderMoves(s: Sys, s1: Sys, t: nat)
    requires SysOk(s) && s.bmu == Some(t) && !s.threads[t].Blocked?
    requires t in s1.threads && s1 == s.(threads := s.threads[t := s1.threads[t]], rmu := s1.rmu, store := s1.store)
    requires Holds(s1.threads[t]) && !s1.threads[t].Blocked? && ThreadOk(s1.threads[t], s1.hist)
    requires s1.threads[t].Inside? <==> s1.rmu == Some(Handler(t))
    requires (s.rmu == s1.rmu) || (s.rmu.None? && s1.rmu == Some(Handler(t))) || (s.rmu == Some(Handler(t)) && s1.rmu.None?)
    requires StoreOk(s1)
    ensures SysOk(s1)
  {
    NonePending(s);
    OneThread(s.threads, t, s1.threads[t], s.hist);
  }

  lemma OutsiderMutex(s: Sys, t: nat, th: Thread)
    requires MutexOk(s) && (t in s.threads ==> !Holds(s.threads[t])) && !Holds(th)
    ensures MutexOk(s.(threads := s.threads[t := th]))
  {}

  /** A thread without b.mu moves on, or arrives, without taking it. */
  lemma OutsiderMoves(s: Sys, t: nat, th: Thread)
    requires SysOk(s) && (t in s.threads ==> !Holds(s.threads[t])) && !Holds(th) && ThreadOk(th, s.hist)
    ensures SysOk(s.(threads := s.threads[t := th]))
  {
    OneThread(s.threads, t, th, s.hist);
    var s1 := s.(threads := s.threads[t := th]);
    StoreSame(s, s1);
    PendingSame(s, s1);
    OutsiderMutex(s, t, th);
  }

  lemma ArriveStep(s: Sys, t: nat, r: Req)
    requires SysOk(s) && DoArrive(s, t, r).Some?
    ensures SysOk(DoArrive(s, t, r).value)
  {
    OutsiderMoves(s, t, WantB(r));
  }

  lemma LockBStep(s: Sys, t: nat)
    requires SysOk(s) && DoLockB(s, t).Some?
    ensures SysOk(DoLockB(s, t).value)
  {
    var s1 := DoLockB(s, t).value;
    assert ThreadOk(s.threads[t], s.hist);
    BeginOk(s.store, s.threads[t].r);
    NonePending(s);
    OneThread(s.threads, t, s1.threads[t], s.hist);
  }

  lemma LockRStep(s: Sys, t: nat)
    requires SysOk(s) && DoLockR(s, t).Some?
    ensures SysOk(DoLockR(s, t).value)
  {
    HolderMoves(s, DoLockR(s, t).value, t);
  }

  /** The section's outcome, in terms of the holder's stages. */
  lemma SectionOutcome(s: Sys, t: nat, at: Option<string>)
    requires SysOk(s) && DoSectionOf(s, t, at).Some?
    ensures s.bmu == Some(t)
    ensures Section(s.store, s.threads[t].r, s.threads[t].n, at).Some?
    ensures var (st, next) := Section(s.store, s.threads[t].r, s.threads[t].n, at).value;
            NextOk(s.base, s.threads[t].r, st, next)
  {
    SectionKeeps(s.base, s.threads[t].r, s.threads[t].n, s.store, at);
  }

  /** Enqueue by the last section of a handler that schedules. */
  lemma ScheduleStep(s: Sys, s1: Sys, t: nat)
    requires SysOk(s) && s.bmu == Some(t) && s.threads[t].Inside?
    requires var r := s.threads[t].r;
             && Schedules(r) && StageOk(s.base, r, LastStage(r), s1.store)
             && s1 == s.(store := s1.store, rmu := None, threads := s.threads[t := Blocked(r, s.made)], made := s.made + 1,
                         events := s.events + [Events.Event(s.seqNo + DELAY, CbOf(r), s.made)])
    ensures SysOk(s1)
  {
    NonePending(s);
    OneThread(s.threads, t, s1.threads[t], s.hist);
    assert Pending(s1) == [Events.Event(s.seqNo + DELAY, CbOf(s.threads[t].r), s.made)];
    assert CbAt(s1) == CbGet;
  }

  /** The next thread state, unless the handler schedules. */
  function MovedOn(r: Req, next: Next): Thread
    requires !next.Schedule?
  {
    match next
    case Goto(n) => Ready(r, n)
    case Return(reply) => Leaving(r, reply)
  }

  lemma SectionMoves(s: Sys, st: Store, t: nat, next: Next)
    requires SysOk(s) && s.bmu == Some(t) && s.threads[t].Inside? && !next.Schedule?
    requires NextOk(s.base, s.threads[t].r, st, next)
    ensures SysOk(s.(store := st, rmu := None, threads := s.threads[t := MovedOn(s.threads[t].r, next)]))
  {
    HolderMoves(s, s.(store := st, rmu := None, threads := s.threads[t := MovedOn(s.threads[t].r, next)]), t);
  }

  lemma SectionStep(s: Sys, t: nat, at: Option<string>)
    requires SysOk(s) && DoSectionOf(s, t, at).Some?
    ensures SysOk(DoSectionOf(s, t, at).value)
  {
    hide SysOk, Section, StageOk, Serves;
    SectionOutcome(s, t, at);
    var (st, next) := Section(s.store, s.threads[t].r, s.threads[t].n, at).value;
    if next.Schedule? {
      ScheduleStep(s, DoSectionOf(s, t, at).value, t);
    } else {
      SectionMoves(s, st, t, next);
    }
  }

  lemma WakeStep(s: Sys, t: nat)
    requires SysOk(s) && DoWake(s, t).Some?
    ensures SysOk(DoWake(s, t).value)
  {
    var s1 := DoWake(s, t).value;
    assert Pending(s) == [];
    assert Pending(s1) == [];
    OneThread(s.threads, t, s1.threads[t], s.hist);
  }

  /** b.mu is released with nothing pending. */
  lemma Released(s: Sys, s1: Sys, t: nat)
    requires MutexOk(s) && PendingOk(s) && s.bmu == Some(t) && !s.threads[t].Blocked? && !s.threads[t].Inside?
    requires t in s1.threads && !Holds(s1.threads[t])
    requires s1 == s.(bmu := None, threads := s.threads[t := s1.threads[t]], hist := s1.hist)
    ensures MutexOk(s1) && PendingOk(s1)
  {
    NonePending(s);
  }

  /** The unlock that ends a request's effect. */
  lemma LeaveStep(s: Sys, t: nat)
    requires SysOk(s) && DoUnlockB(s, t).Some? && s.threads[t].Leaving?
    ensures SysOk(DoUnlockB(s, t).value)
  {
    hide Serves;
    var s1 := DoUnlockB(s, t).value;
    Released(s, s1, t);
    var h := (s.threads[t].r, s.threads[t].reply);
    ExplainsSnoc(s.hist, s.base, h, s.store);
    HistGrows(s.threads, s.hist, h);
    PullReply(s.base, h.0, s.store, h.1);
    OneThread(s.threads, t, s1.threads[t], s1.hist);
  }

  lemma PullReply(base: Store, r: Req, st: Store, reply: Reply)
    requires Serves(base, r, st, reply)
    ensures r.PullImage? ==> reply == AfterWait(r)
  {}

  /** The second unlock of PullImage. */
  lemma LeaveAgainStep(s: Sys, t: nat)
    requires SysOk(s) && DoUnlockB(s, t).Some? && s.threads[t].LeavingAgain?
    ensures SysOk(DoUnlockB(s, t).value)
  {
    hide Explains;
    var s1 := DoUnlockB(s, t).value;
    Released(s, s1, t);
    assert ThreadOk(s.threads[t], s.hist);
    OneThread(s.threads, t, s1.threads[t], s1.hist);
  }

  lemma UnlockStep(s: Sys, t: nat)
    requires SysOk(s) && DoUnlockB(s, t).Some?
    ensures SysOk(DoUnlockB(s, t).value)
  {
    hide SysOk;
    if s.threads[t].Leaving? {
      LeaveStep(s, t);
    } else {
      LeaveAgainStep(s, t);
    }
  }

  lemma SelectStep(s: Sys, t: nat, canceled: bool)
    requires SysOk(s) && DoSelect(s, t, canceled).Some?
    ensures SysOk(DoSelect(s, t, canceled).value)
  {
    assert ThreadOk(s.threads[t], s.hist);
    OutsiderMoves(s, t, DoSelect(s, t, canceled).value.threads[t]);
  }

  lemma LockBackStep(s: Sys, t: nat)
    requires SysOk(s) && DoLockBack(s, t).Some?
    ensures SysOk(DoLockBack(s, t).value)
  {
    assert ThreadOk(s.threads[t], s.hist);
    NonePending(s);
    OneThread(s.threads, t, DoLockBack(s, t).value.threads[t], s.hist);
  }

  // ---------- Steps of the ticker ----------

  /** The ticker moved between states in which the same callback is at the same place. */
  lemma TickerMoves(s: Sys, s1: Sys)
    requires SysOk(s) && s1 == s.(rmu := s1.rmu, ticker := s1.ticker)
    requires Batch(s1.ticker) == Batch(s.ticker) && (Batch(s.ticker) != [] ==> CbAt(s1) == CbAt(s))
    requires s1.rmu == Some(Ticker) <==> s1.ticker.Splitting? || s1.ticker.RunningInside?
    requires s1.ticker.RunningInside? ==> s1.ticker.batch != [] && !CbFinished(s1.ticker.pc)
    requires s1.rmu == s.rmu || (s.rmu.None? && s1.rmu == Some(Ticker))
    ensures SysOk(s1)
  {
    assert Pending(s1) == Pending(s);
    assert CbAt(s1) == CbAt(s);
  }

  lemma TickLockStep(s: Sys)
    requires SysOk(s) && DoTickLock(s).Some?
    ensures SysOk(DoTickLock(s).value)
  {
    TickerMoves(s, DoTickLock(s).value);
  }

  lemma CbLockStep(s: Sys)
    requires SysOk(s) && DoCbLock(s).Some?
    ensures SysOk(DoCbLock(s).value)
  {
    TickerMoves(s, DoCbLock(s).value);
  }

  lemma TickDoneStep(s: Sys)
    requires SysOk(s) && DoTickDone(s).Some?
    ensures SysOk(DoTickDone(s).value)
  {
    TickerMoves(s, DoTickDone(s).value);
  }

  /** The pending event, if any, moves into the batch or stays. */
  lemma SplitMoves(s: Sys, due: seq<Event>, later: seq<Event>)
    requires SysOk(s) && s.ticker.Splitting? && s.rmu == Some(Ticker)
    requires due + later == s.events
    requires forall e :: e in later ==> e in s.events && e.target > s.seqNo + 1
    ensures SysOk(s.(rmu := None, seqNo := s.seqNo + 1, events := later, ticker := Running(due, CbGet)))
  {
    var s1 := s.(rmu := None, seqNo := s.seqNo + 1, events := later, ticker := Running(due, CbGet));
    assert Pending(s1) == due + later == [] + s.events == Pending(s);
    StoreSame(s, s1);
    PendingSame(s, s1);
  }

  lemma FewEvents(s: Sys)
    requires SysOk(s)
    ensures |s.events| <= 1
  {}

  lemma TickSplitStep(s: Sys)
    requires SysOk(s) && DoTickSplit(s).Some?
    ensures SysOk(DoTickSplit(s).value)
  {
    hide SysOk, Events.Due, Events.Later;
    FewEvents(s);
    FewSplit(s.events, s.seqNo + 1);
    SplitMoves(s, Events.Due(s.events, s.seqNo + 1), Events.Later(s.events, s.seqNo + 1));
  }

  /** The callback's section, in terms of the enqueuer's request. */
  lemma CbOutcome(s: Sys, at: Option<string>, keys: seq<string>)
    requires SysOk(s) && DoCbDo(s, at, keys).Some?
    ensures s.bmu.Some? && s.bmu.value in s.threads && s.threads[s.bmu.value].Blocked?
    ensures var s1 := DoCbDo(s, at, keys).value;
            Underway(s.base, s.threads[s.bmu.value].r, s1.ticker.pc, s1.store)
  {
    hide CbOk, CbSection, StageOk, Explains, Serves;
    assert Pending(s)[0] == s.ticker.batch[0];
    var r := s.threads[s.bmu.value].r;
    CbSectionKeeps(Prepared(s.base, r), CbOf(r), s.ticker.pc, s.store, at, keys);
  }

  lemma CbDoStep(s: Sys, at: Option<string>, keys: seq<string>)
    requires SysOk(s) && DoCbDo(s, at, keys).Some?
    ensures SysOk(DoCbDo(s, at, keys).value)
  {
    hide Underway, Explains, Serves, CbSection;
    CbOutcome(s, at, keys);
    var s1 := DoCbDo(s, at, keys).value;
    assert Pending(s1) == Pending(s);
  }

  lemma UnderwayEnds(base: Store, r: Req, pc: CbPc, st: Store)
    requires Underway(base, r, pc, st) && CbFinished(pc)
    ensures Serves(base, r, st, AfterWait(r))
  {
    hide Effect;
    CallbackCompletes(base, r, st);
  }

  lemma CbCloseStep(s: Sys)
    requires SysOk(s) && DoCbClose(s).Some?
    ensures SysOk(DoCbClose(s).value)
  {
    hide Underway, Explains, Serves;
    assert Pending(s)[0] == s.ticker.batch[0];
    assert Pending(DoCbClose(s).value) == [];
    UnderwayEnds(s.base, s.threads[s.bmu.value].r, s.ticker.pc, s.store);
  }

  predicate IsTickerAct(a: Act) {
    a.TickLock? || a.TickSplit? || a.CbLock? || a.CbDo? || a.CbClose? || a.TickDone?
  }

  lemma TickerStepOk(s: Sys, a: Act)
    requires SysOk(s) && IsTickerAct(a) && Do(s, a).Some?
    ensures SysOk(Do(s, a).value)
  {
    match a
    case TickLock => TickLockStep(s);
    case TickSplit => TickSplitStep(s);
    case CbLock => CbLockStep(s);
    case CbDo(at, keys) => CbDoStep(s, at, keys);
    case CbClose => CbCloseStep(s);
    case TickDone => TickDoneStep(s);
  }

  lemma HandlerStepOk(s: Sys, a: Act)
    requires SysOk(s) && !IsTickerAct(a) && Do(s, a).Some?
    ensures SysOk(Do(s, a).value)
  {
    match a
    case Arrive(t, r) => ArriveStep(s, t, r);
    case LockB(t) => LockBStep(s, t);
    case LockR(t) => LockRStep(s, t);
    case DoSection(t, at) => SectionStep(s, t, at);
    case Wake(t) => WakeStep(s, t);
    case UnlockB(t) => UnlockStep(s, t);
    case Select(t, canceled) => SelectStep(s, t, canceled);
    case LockBack(t) => LockBackStep(s, t);
  }

  lemma StepOk(s: Sys, a: Act)
    requires SysOk(s) && Do(s, a).Some?
    ensures SysOk(Do(s, a).value)
  {
    if IsTickerAct(a) {
      TickerStepOk(s, a);
    } else {
      HandlerStepOk(s, a);
    }
  }

  lemma {:induction false} RunOk(tr: Trace)
    requires Exec(tr).Some?
    ensures SysOk(Exec(tr).value)
  {
    if tr != [] {
      RunOk(tr[..|tr| - 1]);
      StepOk(Exec(tr[..|tr| - 1]).value, tr[|tr| - 1]);
    }
  }
}
