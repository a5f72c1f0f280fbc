/** A run that is not tame: it stops a pod with the empty id, and the store invariant is gone. */
module CriSystemLimits {
  import opened Base
  import opened CriModel
  import opened CriTheorems
  import opened CriSystem
  import opened CriEffects
  import opened CriSystemInvariant
  import opened CriSystemRun
  import opened CriSystemTheorems
  import opened CriSystemProgress

  // ---------- Serving one request to its end ----------

  /** Thread t, serving r since the order was h, is still inside, or has left with one more entry. */
  ghost predicate Serving(s: Sys, t: nat, r: Req, h: seq<(Req, Reply)>) {
    && t in s.threads && s.threads[t].r == r
    && if s.bmu == Some(t) then s.hist == h && !s.threads[t].LeavingAgain?
       else s.bmu.None? && |s.hist| == |h| + 1 && s.hist[..|h|] == h && s.hist[|h|].0 == r
  }

  lemma ServingStep(s: Sys, a: Act, t: nat, r: Req, h: seq<(Req, Reply)>)
    requires Serving(s, t, r, h) && Helps(t, a) && Do(s, a).Some?
    ensures Serving(Do(s, a).value, t, r, h) && Do(s, a).value.threads.Keys == s.threads.Keys
  {
    hide Section, CbSection;
  }

  lemma {:induction false} ServingRun(s: Sys, more: Trace, t: nat, r: Req, h: seq<(Req, Reply)>)
    requires Serving(s, t, r, h) && Continue(s, more).Some? && forall a :: a in more ==> Helps(t, a)
    ensures Serving(Continue(s, more).value, t, r, h) && Continue(s, more).value.threads.Keys == s.threads.Keys
    decreases |more|
  {
    if more != [] {
      hide Serving, Helps, Do;
      ServingStep(s, more[0], t, r, h);
      ServingRun(Do(s, more[0]).value, more[1..], t, r, h);
    }
  }

  lemma Extend(tr: Trace, a: Act)
    requires Exec(tr).Some?
    ensures Exec(tr + [a]) == Do(Exec(tr).value, a)
  {
    assert (tr + [a])[..|tr|] == tr;
  }

  lemma Entering(s: Sys, t: nat, r: Req)
    requires s.bmu.None? && t !in s.threads
    ensures Do(s, Arrive(t, r)).Some? && Do(Do(s, Arrive(t, r)).value, LockB(t)).Some?
    ensures var s1 := Do(Do(s, Arrive(t, r)).value, LockB(t)).value;
            s1.bmu == Some(t) && Serving(s1, t, r, s.hist) && s1.threads.Keys == s.threads.Keys + {t}
  {
    hide Section;
  }

  /** Any request can be served to its end while nobody else moves. */
  lemma ServeOne(tr: Trace, t: nat, r: Req) returns (tr1: Trace)
    requires Exec(tr).Some? && Exec(tr).value.bmu.None? && t !in Exec(tr).value.threads
    ensures Exec(tr1).Some? && Exec(tr1).value.bmu.None? && Serving(Exec(tr1).value, t, r, Exec(tr).value.hist)
    ensures Exec(tr1).value.threads.Keys == Exec(tr).value.threads.Keys + {t}
    ensures forall a :: a in tr1 && a.Arrive? ==> a in tr || a == Arrive(t, r)
  {
    hide Serving, Do, Exec;
    var mid := tr + [Arrive(t, r)] + [LockB(t)];
    Entering(Exec(tr).value, t, r);
    Extend(tr, Arrive(t, r));
    Extend(tr + [Arrive(t, r)], LockB(t));
    var more := HolderIsReleased(mid);
    ContinueRun(mid, more);
    ServingRun(Exec(mid).value, more, t, r, Exec(tr).value.hist);
    tr1 := mid + more;
  }

  // ---------- The empty id ----------

  lemma OnePod(st: Store, pod: PodConfig, stamp: string, now: Time, reply: Reply)
    requires pod.meta.uid != "" && Serves(EMPTY, RunPod(pod, stamp, now), st, reply)
    ensures Inv(st) && st.sandboxes != map[]
  {
    assert Inv(EMPTY);
    hide Serves;
    ServesIsHandle(EMPTY, RunPod(pod, stamp, now), st, reply);
    HandleKeepsInv(EMPTY, RunPod(pod, stamp, now));
    hide Inv;
    assert SandboxId(pod.meta.uid, stamp) in st.sandboxes;
  }

  lemma StopEmpty(st: Store, at: map<string, Time>, st1: Store, reply: Reply)
    requires Inv(st) && st.sandboxes != map[] && Serves(st, StopPod("", at), st1, reply)
    ensures "" in st1.sandboxes && !Inv(st1)
  {
    NothingMatches(st);
    hide NoPod, Inv;
    StrayPodKey(st, UnreadyPod("", at), st1);
    ServesKeepsInvExactly(st, StopPod("", at), st1, reply);
  }

  lemma Broken(hist: seq<(Req, Reply)>, st: Store, pod: PodConfig, stamp: string, now: Time, at: map<string, Time>)
    requires |hist| == 2 && Explains(hist, st) && pod.meta.uid != ""
    requires hist[0].0 == RunPod(pod, stamp, now) && hist[1].0 == StopPod("", at)
    ensures "" in st.sandboxes && !Inv(st)
  {
    hide Serves, Inv;
    var mid :| Explains(hist[..1], mid) && Serves(mid, hist[1].0, st, hist[1].1);
    var first :| Explains(hist[..1][..0], first) && Serves(first, hist[..1][0].0, mid, hist[..1][0].1);
    assert hist[..1][..0] == [] && hist[..1][0] == hist[0];
    OnePod(mid, pod, stamp, now, hist[0].1);
    StopEmpty(mid, at, st, hist[1].1);
  }

  /** After one pod has been run, stopping the pod with the empty id stores a record under an empty
      key: the store invariant is gone.  Only such requests break it (CriEffects.HarmlessExactly). */
  lemma EmptyIdBreaks(pod: PodConfig, stamp: string, now: Time) returns (tr: Trace)
    requires pod.meta.uid != ""
    ensures Exec(tr).Some? && !Inv(Exec(tr).value.store) && "" in Exec(tr).value.store.sandboxes
    ensures forall a :: a in tr && a.Arrive? ==> a.r == RunPod(pod, stamp, now) || a.r == StopPod("", map[])
  {
    var run, stop := RunPod(pod, stamp, now), StopPod("", map[]);
    var tr1 := ServeOne([], 0, run);
    tr := ServeOne(tr1, 1, stop);
    var s1, s := Exec(tr1).value, Exec(tr).value;
    assert |s1.hist| == 1 && s1.hist[0].0 == run;
    assert |s.hist| == 2 && s.hist[0] == s.hist[..1][0] == s1.hist[0] && s.hist[1].0 == stop;
    hide Explains, Inv, Serving;
    RefinesSequential(tr);
    Broken(s.hist, s.store, pod, stamp, now, map[]);
  }
}
