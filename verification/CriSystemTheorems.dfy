/** What holds after every run of the concurrent CRI runtime: handlers are atomic, the system
    refines the sequential specification, and whoever holds b.mu can always be released. */
module CriSystemTheorems {
  import opened Base
  import opened CriModel
  import opened CriTheorems
  import opened CriSystem
  import opened CriEffects
  import opened CriSystemInvariant
  import opened CriSystemRun

  // ---------- Atomicity ----------

  /** Thread t enqueued e and is the only handler between its Lock and Unlock of b.mu. */
  ghost predicate AloneWith(s: Sys, t: nat, e: Event) {
    && t in s.threads && s.threads[t].Blocked? && s.threads[t].done == e.done
    && forall u :: u in s.threads && u != t ==> !Holds(s.threads[u])
  }

  lemma Alone(s: Sys)
    requires MutexOk(s) && PendingOk(s)
    ensures forall t, u :: t in s.threads && u in s.threads && Holds(s.threads[t]) && Holds(s.threads[u]) ==> t == u
    ensures forall e :: e in Pending(s) ==> exists t :: AloneWith(s, t, e)
  {
    if Pending(s) != [] {
      assert AloneWith(s, s.bmu.value, Pending(s)[0]);
    }
  }

  /** At most one event is pending; while one is, its enqueuer holds b.mu, blocked on the event's
      channel, and no other handler is between its Lock and Unlock of b.mu. */
  lemma HandlersAreAtomic(tr: Trace)
    requires Exec(tr).Some?
    ensures var s := Exec(tr).value;
            && |Pending(s)| <= 1
            && (forall t, u :: t in s.threads && u in s.threads && Holds(s.threads[t]) && Holds(s.threads[u]) ==> t == u)
            && (forall e :: e in Pending(s) ==> exists t :: AloneWith(s, t, e))
  {
    RunOk(tr);
    Alone(Exec(tr).value);
  }

  // ---------- Refinement of the sequential specification ----------

  /** Whatever was requested: when b.mu is free the store is one that serving the recorded requests
      one by one, with the recorded replies, may leave; when it is held, that is true of the store
      the holder found; and a finished request gives its recorded reply, except that PullImage may
      report a canceled context. */
  lemma RefinesSequential(tr: Trace)
    requires Exec(tr).Some?
    ensures var s := Exec(tr).value;
            && Explains(s.hist, Found(s))
            && (forall t :: t in s.threads && s.threads[t].Finished? ==>
                  var th := s.threads[t];
                  th.at < |s.hist| && s.hist[th.at].0 == th.r && Served(th.r, th.reply, s.hist[th.at].1))
  {
    hide Explains;
    RunOk(tr);
    var s := Exec(tr).value;
    forall t | t in s.threads && s.threads[t].Finished?
      ensures s.threads[t].at < |s.hist| && s.hist[s.threads[t].at].0 == s.threads[t].r
              && Served(s.threads[t].r, s.threads[t].reply, s.hist[s.threads[t].at].1)
    {
      assert ThreadOk(s.threads[t], s.hist);
    }
  }

  /** The thread is past PullImage's select, or never comes to it. */
  predicate Past(th: Thread) { th.WantBack? || th.LeavingAgain? || th.Finished? }

  /** How one step moves a thread past its select. */
  lemma StepSelects(s: Sys, a: Act, t: nat)
    requires Do(s, a).Some? && t in Do(s, a).value.threads
    ensures var s1 := Do(s, a).value; var th1 := s1.threads[t];
            && s.hist <= s1.hist
            && (Past(th1) ==>
                  || (a.Select? && a.t == t && t in s.threads && s.threads[t].Selecting? && th1.at == s.threads[t].at
                      && th1.reply == if a.canceled then Failed(Canceled) else AfterWait(s.threads[t].r))
                  || (!(a.Select? && a.t == t) && t in s.threads && Past(s.threads[t])
                      && th1.reply == s.threads[t].reply && th1.at == s.threads[t].at)
                  || (!a.Select? && (t in s.threads ==> !Past(s.threads[t])) && th1.at == |s.hist|
                      && |s1.hist| == |s.hist| + 1 && s1.hist[|s.hist|].1 == th1.reply))
            && (!Past(th1) ==> !(a.Select? && a.t == t) && (t in s.threads ==> !Past(s.threads[t])))
  {
    hide Section, CbSection;
  }

  /** A finished request gives exactly the reply recorded for it, unless its own select found the
      context canceled, and then it reports that. */
  lemma {:induction false} CanceledExactly(tr: Trace, t: nat)
    requires Exec(tr).Some? && t in Exec(tr).value.threads
    ensures var s := Exec(tr).value; var th := s.threads[t];
            if Past(th)
            then th.at < |s.hist| && th.reply == (if Select(t, true) in tr then Failed(Canceled) else s.hist[th.at].1)
            else Select(t, true) !in tr
  {
    var n := |tr| - 1;
    var s, a := Exec(tr[..n]).value, tr[n];
    assert tr == tr[..n] + [a];
    StepSelects(s, a, t);
    RunOk(tr[..n]);
    hide Do, SysOk, MutexOk, PendingOk, StoreOk, Past;
    if t in s.threads {
      CanceledExactly(tr[..n], t);
      if s.threads[t].Selecting? {
        SelectingReply(s, t);
      }
    } else {
      NoThreadNoSelect(tr[..n], t);
    }
  }

  lemma SelectingReply(s: Sys, t: nat)
    requires SysOk(s) && t in s.threads && s.threads[t].Selecting?
    ensures s.threads[t].at < |s.hist| && s.hist[s.threads[t].at].1 == AfterWait(s.threads[t].r)
  {
    assert ThreadOk(s.threads[t], s.hist);
  }

  lemma {:induction false} NoThreadNoSelect(tr: Trace, t: nat)
    requires Exec(tr).Some? && t !in Exec(tr).value.threads
    ensures Select(t, true) !in tr
  {
    if tr != [] {
      var n := |tr| - 1;
      if t in Exec(tr[..n]).value.threads {
        StepThread(Exec(tr[..n]).value, tr[n], t);
      }
      NoThreadNoSelect(tr[..n], t);
    }
  }

  /** The store as the requests recorded so far left it. */
  function Found(s: Sys): Store {
    if s.bmu.None? || s.bmu.value !in s.threads || s.threads[s.bmu.value].LeavingAgain? then s.store else s.base
  }

  /** A request's place in the order of effects, once it has one. */
  function Slot(th: Thread): Option<nat> {
    match th
    case Selecting(_, at) => Some(at)
    case WantBack(_, _, at) => Some(at)
    case LeavingAgain(_, _, at) => Some(at)
    case Finished(_, _, at) => Some(at)
    case _ => None
  }

  /** A step gives at most one thread a slot, the next one, and takes none away. */
  lemma StepSlots(s: Sys, a: Act, t: nat)
    requires Do(s, a).Some? && t in Do(s, a).value.threads
    ensures var s1 := Do(s, a).value;
            && |s.hist| <= |s1.hist|
            && (Slot(s1.threads[t]) == (if t in s.threads then Slot(s.threads[t]) else None)
                || (a == UnlockB(t) && Slot(s1.threads[t]) == Some(|s.hist|)))
  {}

  /** No two requests share a place in the order. */
  lemma {:induction false} SlotsDistinct(tr: Trace, t: nat, u: nat)
    requires Exec(tr).Some? && t != u
    requires var s := Exec(tr).value; t in s.threads && u in s.threads && Slot(s.threads[t]).Some?
    ensures var s := Exec(tr).value; Slot(s.threads[t]) != Slot(s.threads[u])
  {
    if tr != [] {
      var s, a := Exec(tr[..|tr| - 1]).value, tr[|tr| - 1];
      RunOk(tr[..|tr| - 1]);
      StepSlots(s, a, t);
      StepSlots(s, a, u);
      if t in s.threads && u in s.threads && Slot(s.threads[t]).Some? {
        SlotsDistinct(tr[..|tr| - 1], t, u);
      }
      assert t in s.threads ==> ThreadOk(s.threads[t], s.hist);
      assert u in s.threads ==> ThreadOk(s.threads[u], s.hist);
    }
  }

  /** A thread without a slot at some point gets one no earlier than the next free one. */
  lemma {:induction false} SlotNotBefore(tr: Trace, k: nat, u: nat)
    requires k <= |tr| && Exec(tr).Some? && Exec(tr[..k]).Some?
    requires u in Exec(tr[..k]).value.threads ==> Slot(Exec(tr[..k]).value.threads[u]).None?
    ensures var s := Exec(tr).value;
            && |Exec(tr[..k]).value.hist| <= |s.hist|
            && (u in s.threads && Slot(s.threads[u]).Some? ==> |Exec(tr[..k]).value.hist| <= Slot(s.threads[u]).value)
  {
    if k == |tr| {
      assert tr[..k] == tr;
    } else {
      var n := |tr| - 1;
      assert tr[..n][..k] == tr[..k];
      SlotNotBefore(tr[..n], k, u);
      var s := Exec(tr[..n]).value;
      HistNeverShrinks(s, tr[n]);
      if u in Exec(tr).value.threads {
        StepSlots(s, tr[n], u);
      }
    }
  }

  lemma HistNeverShrinks(s: Sys, a: Act)
    requires Do(s, a).Some?
    ensures |s.hist| <= |Do(s, a).value.hist|
  {}

  lemma FinishedStep(s: Sys, a: Act, t: nat)
    requires Do(s, a).Some? && t in s.threads && s.threads[t].Finished?
    ensures t in Do(s, a).value.threads && Do(s, a).value.threads[t] == s.threads[t]
  {}

  lemma {:induction false} FinishedStays(tr: Trace, k: nat, t: nat)
    requires k <= |tr| && Exec(tr).Some? && Exec(tr[..k]).Some?
    requires t in Exec(tr[..k]).value.threads && Exec(tr[..k]).value.threads[t].Finished?
    ensures t in Exec(tr).value.threads && Exec(tr).value.threads[t] == Exec(tr[..k]).value.threads[t]
  {
    hide Do;
    if k == |tr| {
      assert tr[..k] == tr;
    } else {
      var n := |tr| - 1;
      assert tr[..n][..k] == tr[..k];
      FinishedStays(tr[..n], k, t);
      FinishedStep(Exec(tr[..n]).value, tr[n], t);
    }
  }

  /** The order respects real time: a request finished before another arrived comes first. */
  lemma RealTimeOrder(tr: Trace, k: nat, t: nat, u: nat)
    requires k <= |tr| && Exec(tr).Some? && Exec(tr[..k]).Some?
    requires var s := Exec(tr[..k]).value; t in s.threads && s.threads[t].Finished? && u !in s.threads
    requires var s := Exec(tr).value; u in s.threads && s.threads[u].Finished?
    ensures var s := Exec(tr).value;
            t in s.threads && s.threads[t].Finished? && s.threads[t].at < s.threads[u].at
  {
    RunOk(tr[..k]);
    assert ThreadOk(Exec(tr[..k]).value.threads[t], Exec(tr[..k]).value.hist);
    FinishedStays(tr, k, t);
    SlotNotBefore(tr, k, u);
  }

  /** A thread stays, with its request and its slot. */
  lemma StepThread(s: Sys, a: Act, t: nat)
    requires Do(s, a).Some? && t in s.threads
    ensures var s1 := Do(s, a).value;
            && t in s1.threads && s1.threads[t].r == s.threads[t].r
            && (Slot(s.threads[t]).Some? ==> Slot(s1.threads[t]) == Slot(s.threads[t]))
  {
    hide Section, CbSection;
  }

  /** Only an unlock extends the order, by its own thread's request, and gives that thread the slot. */
  lemma StepServes(s: Sys, a: Act)
    requires Do(s, a).Some?
    ensures var s1 := Do(s, a).value;
            || s1.hist == s.hist
            || (a.UnlockB? && a.t in s.threads && a.t in s1.threads && |s1.hist| == |s.hist| + 1 && s1.hist[..|s.hist|] == s.hist
                && s1.hist[|s.hist|].0 == s.threads[a.t].r && Slot(s1.threads[a.t]) == Some(|s.hist|))
  {
    hide Section, CbSection;
  }

  ghost predicate Owns(s: Sys, t: nat, i: nat) {
    t in s.threads && i < |s.hist| && Slot(s.threads[t]) == Some(i) && s.threads[t].r == s.hist[i].0
  }

  /** The order has no phantoms: every recorded request is one that some handler was given, and its
      place is that handler's. */
  lemma {:induction false} EveryEntryIsServed(tr: Trace, i: nat) returns (t: nat)
    requires Exec(tr).Some? && i < |Exec(tr).value.hist|
    ensures Owns(Exec(tr).value, t, i)
  {
    var n := |tr| - 1;
    var s := Exec(tr[..n]).value;
    StepServes(s, tr[n]);
    if i < |s.hist| {
      t := EveryEntryIsServed(tr[..n], i);
      StepThread(s, tr[n], t);
      hide Do;
      assert Exec(tr).value.hist[i] == Exec(tr).value.hist[..|s.hist|][i];
    } else {
      t := tr[n].t;
      StepThread(s, tr[n], t);
      hide Do;
    }
  }

  // ---------- Requests that name what they are about ----------

  /** Every id and image name that is looked up is not empty. */
  ghost predicate Named(tr: Trace) {
    forall a :: a in tr && a.Arrive? ==> WellFormed(a.r)
  }

  lemma ArriveOnly(s: Sys, a: Act, t: nat)
    requires Do(s, a).Some? && t in Do(s, a).value.threads && t !in s.threads
    ensures a == Arrive(t, Do(s, a).value.threads[t].r)
  {}

  /** Every thread's request arrived. */
  lemma {:induction false} ArrivedAs(tr: Trace, t: nat)
    requires Exec(tr).Some? && t in Exec(tr).value.threads
    ensures Arrive(t, Exec(tr).value.threads[t].r) in tr
  {
    var n := |tr| - 1;
    var s := Exec(tr[..n]).value;
    if t in s.threads {
      StepThread(s, tr[n], t);
      ArrivedAs(tr[..n], t);
    } else {
      ArriveOnly(s, tr[n], t);
    }
  }

  ghost predicate AllNamed(hist: seq<(Req, Reply)>) {
    forall i :: 0 <= i < |hist| ==> WellFormed(hist[i].0)
  }

  lemma NamedHist(tr: Trace)
    requires Exec(tr).Some? && Named(tr)
    ensures AllNamed(Exec(tr).value.hist)
  {
    forall i | 0 <= i < |Exec(tr).value.hist| ensures WellFormed(Exec(tr).value.hist[i].0) {
      var t := EveryEntryIsServed(tr, i);
      ArrivedAs(tr, t);
    }
  }

  /** The recorded replies are those of Handle. */
  ghost predicate Replayed(hist: seq<(Req, Reply)>) {
    forall i :: 0 <= i < |hist| ==> hist[i].1 == Handle(Replay(Requests(hist[..i])), hist[i].0).1
  }

  lemma NamedReplay(hist: seq<(Req, Reply)>)
    requires AllNamed(hist)
    ensures Inv(Replay(Requests(hist)))
  {
    hide Inv, Replay;
    forall r | r in Requests(hist) ensures WellFormed(r) {
      var i :| 0 <= i < |hist| && Requests(hist)[i] == r;
    }
    ReplayInv(Requests(hist));
  }

  lemma ReplayNext(hist: seq<(Req, Reply)>, i: nat)
    requires i < |hist|
    ensures Replay(Requests(hist[..i + 1])) == Handle(Replay(Requests(hist[..i])), hist[i].0).0
  {
    hide Handle;
    assert Requests(hist[..i + 1])[..i] == Requests(hist[..i]);
  }

  lemma ReplayedSnoc(hist: seq<(Req, Reply)>)
    requires hist != [] && Replayed(hist[..|hist| - 1])
    requires var n := |hist| - 1; hist[n].1 == Handle(Replay(Requests(hist[..n])), hist[n].0).1
    ensures Replayed(hist)
  {
    hide Handle, Replay, Requests;
    var n := |hist| - 1;
    forall i | 0 <= i < |hist| ensures hist[i].1 == Handle(Replay(Requests(hist[..i])), hist[i].0).1 {
      if i < n {
        assert hist[..n][..i] == hist[..i];
      }
    }
  }

  /** With names that are not empty there is only one explanation. */
  lemma {:induction false} ExplainsIsReplay(hist: seq<(Req, Reply)>, st: Store)
    requires Explains(hist, st) && AllNamed(hist)
    ensures st == Replay(Requests(hist)) && Replayed(hist)
  {
    if hist != [] {
      var n := |hist| - 1;
      var h := hist[n];
      var mid :| Explains(hist[..n], mid) && Serves(mid, h.0, st, h.1);
      hide Serves, Handle, Explains, Replay, Replayed, Inv, Requests;
      ExplainsIsReplay(hist[..n], mid);
      NamedReplay(hist[..n]);
      ServesIsHandle(mid, h.0, st, h.1);
      assert hist[..n + 1] == hist;
      ReplayNext(hist, n);
      ReplayedSnoc(hist);
    }
  }

  /** In a run whose requests name what they are about the system refines one function: the replies
      are those of Handle, and the store is the one the recorded requests produce. */
  lemma RefinesHandle(tr: Trace)
    requires Exec(tr).Some? && Named(tr)
    ensures var s := Exec(tr).value; Replayed(s.hist) && Found(s) == Replay(Requests(s.hist))
  {
    hide Explains, Handle, Replay;
    RefinesSequential(tr);
    NamedHist(tr);
    ExplainsIsReplay(Exec(tr).value.hist, Found(Exec(tr).value));
  }

  // ---------- The invariant at every instant ----------

  /** Step a ends the effect of thread a.t's request. */
  predicate Leaves(s: Sys, a: Act) {
    a.UnlockB? && a.t in s.threads && s.bmu == Some(a.t) && s.threads[a.t].Leaving?
  }

  /** The store found at the next Lock changes only when a request leaves, and as that request may
      change it. */
  lemma FoundStep(s: Sys, a: Act)
    requires SysOk(s) && Do(s, a).Some?
    ensures var s1 := Do(s, a).value;
            if Leaves(s, a) then Serves(Found(s), s.threads[a.t].r, Found(s1), s.threads[a.t].reply)
            else Found(s1) == Found(s)
  {
    hide Section, CbSection, Serves, StageOk, Underway, Explains;
  }

  /** The invariant held of the store found, now and at every earlier instant. */
  ghost predicate InvThroughout(tr: Trace)
    requires Exec(tr).Some?
  {
    Inv(Found(Exec(tr).value)) && (tr != [] ==> InvThroughout(tr[..|tr| - 1]))
  }

  /** Every request that left was harmless to the store it found. */
  ghost predicate AllHarmless(tr: Trace)
    requires Exec(tr).Some?
  {
    tr != [] ==>
      var n := |tr| - 1;
      var s := Exec(tr[..n]).value;
      AllHarmless(tr[..n]) && (Leaves(s, tr[n]) ==> Harmless(Found(s), s.threads[tr[n].t].r))
  }

  /** Exactly: between requests the store invariant holds all along a run if and only if every
      request was harmless to the store it found. */
  lemma {:induction false} InvThroughoutExactly(tr: Trace)
    requires Exec(tr).Some?
    ensures InvThroughout(tr) <==> AllHarmless(tr)
  {
    if tr == [] {
      assert Inv(EMPTY);
    } else {
      var n := |tr| - 1;
      InvThroughoutExactly(tr[..n]);
      RunOk(tr[..n]);
      var s, s1 := Exec(tr[..n]).value, Exec(tr).value;
      FoundStep(s, tr[n]);
      hide Inv, Do, Serves, Harmless;
      assert InvThroughout(tr[..n]) ==> Inv(Found(s));
      if Leaves(s, tr[n]) && Inv(Found(s)) {
        ServesKeepsInvExactly(Found(s), s.threads[tr[n].t].r, Found(s1), s.threads[tr[n].t].reply);
      }
    }
  }

  /** The request being served, if any, is harmless to the store it found. */
  predicate HolderHarmless(s: Sys) {
    s.bmu.Some? && s.bmu.value in s.threads && !s.threads[s.bmu.value].LeavingAgain? ==>
      Harmless(s.base, s.threads[s.bmu.value].r)
  }

  /** No request of the run is anything but harmless while it is served. */
  ghost predicate Tame(tr: Trace)
    requires Exec(tr).Some?
  {
    HolderHarmless(Exec(tr).value) && (tr != [] ==> Tame(tr[..|tr| - 1]))
  }

  /** A request that stops or starts nothing by the empty id, and pulls no nil image. */
  predicate Targeted(r: Req) {
    match r
    case StopPod(id, _) => id != ""
    case StartContainer(id, _) => id != ""
    case StopContainer(id, _) => id != ""
    case PullImage(image) => image.Some?
    case _ => true
  }

  /** Runs whose stops and starts have ids are tame, whatever their other ids. */
  lemma {:induction false} TargetedIsTame(tr: Trace)
    requires Exec(tr).Some? && forall a :: a in tr && a.Arrive? ==> Targeted(a.r)
    ensures Tame(tr)
  {
    var s := Exec(tr).value;
    if s.bmu.Some? && s.bmu.value in s.threads {
      ArrivedAs(tr, s.bmu.value);
    }
    if tr != [] {
      TargetedIsTame(tr[..|tr| - 1]);
    }
  }

  lemma {:induction false} TameFound(tr: Trace)
    requires Exec(tr).Some? && Tame(tr)
    ensures Inv(Found(Exec(tr).value))
  {
    if tr == [] {
      assert Inv(EMPTY);
    } else {
      var n := |tr| - 1;
      TameFound(tr[..n]);
      RunOk(tr[..n]);
      var s, s1 := Exec(tr[..n]).value, Exec(tr).value;
      FoundStep(s, tr[n]);
      hide Inv, Do, Serves, Harmless;
      if Leaves(s, tr[n]) {
        ServesKeepsInvExactly(Found(s), s.threads[tr[n].t].r, Found(s1), s.threads[tr[n].t].reply);
      }
    }
  }

  lemma UnderwayInv(base: Store, r: Req, pc: CbPc, st: Store)
    requires Inv(base) && Harmless(base, r) && Underway(base, r, pc, st)
    ensures Inv(st) && Inv(Prepared(base, r)) && Selective(Prepared(base, r), CbOf(r))
  {
    hide Inv, CbOk, Harmless, Selective;
    PreparedInv(base, r);
    hide Prepared;
    CbInv(Prepared(base, r), CbOf(r), pc, st);
  }

  lemma HolderInv(s: Sys)
    requires SysOk(s) && s.bmu.Some? && Inv(Found(s)) && HolderHarmless(s)
    ensures Inv(s.store)
  {
    hide Inv, Explains, Serves, Underway, StageOk, Harmless;
    match s.threads[s.bmu.value]
    case Ready(r, n) => StageInv(s.base, r, n, s.store);
    case Inside(r, n) => StageInv(s.base, r, n, s.store);
    case Blocked(r, _) =>
      if Pending(s) == [] {
        ServesKeepsInvExactly(s.base, r, s.store, AfterWait(r));
      } else {
        UnderwayInv(s.base, r, CbAt(s), s.store);
      }
    case Leaving(r, reply) => ServesKeepsInvExactly(s.base, r, s.store, reply);
    case _ =>
  }

  /** Keys, mirrored state, referential integrity and timestamps hold at every instant of every tame
      run, also between the critical sections of one handler or callback. */
  lemma AlwaysInv(tr: Trace)
    requires Exec(tr).Some? && Tame(tr)
    ensures Inv(Exec(tr).value.store)
  {
    hide Inv, SysOk, Harmless;
    RunOk(tr);
    TameFound(tr);
    if Exec(tr).value.bmu.Some? {
      HolderInv(Exec(tr).value);
    } else {
      assert Found(Exec(tr).value) == Exec(tr).value.store;
    }
  }

  /** In a tame run a StopPodSandbox that succeeds takes the store it found to one in which exactly
      that pod and its containers are stopped. */
  lemma StopsCascade(tr: Trace, t: nat)
    requires Exec(tr).Some? && Tame(tr) && Leaves(Exec(tr).value, UnlockB(t))
    requires var th := Exec(tr).value.threads[t]; th.r.StopPod? && th.reply == Done
    ensures Do(Exec(tr).value, UnlockB(t)).Some?
    ensures var s := Exec(tr).value;
            Cascaded(Found(s), s.threads[t].r.id, Found(Do(s, UnlockB(t)).value))
  {
    hide Inv, Cascaded, Serves, Explains, StageOk, CbOk, Harmless;
    TameFound(tr);
    RunOk(tr);
    var s := Exec(tr).value;
    FoundStep(s, UnlockB(t));
    StopServed(Found(s), s.threads[t].r, Found(Do(s, UnlockB(t)).value));
  }

  lemma StopServed(st: Store, r: Req, st1: Store)
    requires Inv(st) && r.StopPod? && Harmless(st, r) && Serves(st, r, st1, Done)
    ensures Cascaded(st, r.id, st1)
  {
    NothingMatches(st);
    hide Inv, Cascaded, NoPod, Effect;
    ServesIsHandle(st, r, st1, Done);
    StopCascades(st, r.id, r.at);
  }

  /** In a tame run no step of a callback adds or removes a sandbox or a container. */
  lemma CallbackKeepsKeys(tr: Trace, at: Option<string>, keys: seq<string>)
    requires Exec(tr).Some? && Tame(tr) && Do(Exec(tr).value, CbDo(at, keys)).Some?
    ensures var s, s1 := Exec(tr).value, Do(Exec(tr).value, CbDo(at, keys)).value;
            s1.store.sandboxes.Keys == s.store.sandboxes.Keys && s1.store.containers.Keys == s.store.containers.Keys
  {
    hide Inv, Explains, Serves, StageOk, CbOk, CbSection, Selective, Prepared, Harmless;
    RunOk(tr);
    TameFound(tr);
    var s := Exec(tr).value;
    assert Pending(s)[0] == s.ticker.batch[0];
    var r := s.threads[s.bmu.value].r;
    UnderwayInv(s.base, r, s.ticker.pc, s.store);
    CbKeys(Prepared(s.base, r), CbOf(r), s.ticker.pc, s.store, at, keys);
  }

  lemma PodTurnedKeys(mid: Store, id: string, state: PodState, x: SandboxRec)
    requires Inv(mid) && PodTurned(mid, id, state, x) && (id != "" || mid.sandboxes == map[])
    ensures id in mid.sandboxes
  {
    var r :| SandboxScan(mid, id, Some(r)) && x == SetPodState(r, state);
    hide Inv, SandboxScan;
    SandboxScanIs(mid, id, Some(r));
  }

  lemma CtrTurnedKeys(mid: Store, cb: Callback, y: ContainerRec)
    requires Inv(mid) && (cb.RunCtr? || cb.ExitCtr?) && CtrTurned(mid, cb, y) && (cb.id != "" || mid.containers == map[])
    ensures cb.id in mid.containers
  {
    var r :| ContainerScan(mid, cb.id, Some(r)) && y == if cb.RunCtr? then SetRunning(r, cb.now) else SetExited(r, cb.now);
    hide Inv, ContainerScan;
    ContainerScanIs(mid, cb.id, Some(r));
  }

  lemma WalkedKeys(mid: Store, cb: Callback, todo: seq<ContainerRec>, st: Store)
    requires Inv(mid) && cb.UnreadyPod? && todo != []
    requires exists r, keys, i :: Walked(mid, cb.id, cb.at, r, keys, i, todo, st)
    ensures todo[0].p.id in st.containers
  {
    var r, order, i :| Walked(mid, cb.id, cb.at, r, order, i, todo, st);
    hide Inv, SandboxScan;
    InvKeyed(mid);
    WalkIs(mid.containers, cb.id, cb.at, order[..i]);
    assert todo[0] == mid.containers[order[i]];
  }

  lemma CbKeys(mid: Store, cb: Callback, pc: CbPc, st: Store, at: Option<string>, keys: seq<string>)
    requires Inv(mid) && Selective(mid, cb) && CbOk(mid, cb, pc, st) && !CbFinished(pc)
    requires CbSection(st, cb, pc, at, keys).Some?
    ensures var st1 := CbSection(st, cb, pc, at, keys).value.0;
            st1.sandboxes.Keys == st.sandboxes.Keys && st1.containers.Keys == st.containers.Keys
  {
    hide Inv, PodTurned, CtrTurned, Walked, Unready;
    if pc.CbPutSandbox? {
      PodTurnedKeys(mid, cb.id, if cb.ReadyPod? then SandboxReady else SandboxNotReady, pc.x);
    } else if pc.CbPutContainer? {
      CtrTurnedKeys(mid, cb, pc.y);
    } else if pc.CbEach? {
      WalkedKeys(mid, cb, pc.todo, st);
    }
  }
}
