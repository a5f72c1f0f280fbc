/** What a handler and its callback have established between two of their critical sections, in
    terms of the store the handler found when it took b.mu. */
module CriSystemInvariant {
  import opened Base
  import opened CriModel
  import opened CriTheorems
  import opened CriSystem
  import opened CriEffects

  // ---------- Handlers, section by section ----------

  function Requests(hist: seq<(Req, Reply)>): seq<Req> {
    seq(|hist|, i requires 0 <= i < |hist| => hist[i].0)
  }

  function LastStage(r: Req): nat {
    if r.RunPod? then 2 else if r.PullImage? then 0 else 1
  }

  /** What a handler has established when it is about to run section n; `base` is the store it
      found when it took b.mu. */
  ghost predicate StageOk(base: Store, r: Req, n: nat, st: Store) {
    match r
    case RunPod(pod, stamp, _) =>
      && pod.meta.uid != "" && n <= 2
      && (n >= 1 ==> NoPod(base, SandboxId(pod.meta.uid, stamp)))
      && st == if n <= 1 then base else Prepared(base, r)
    case StopPod(id, _) => n <= 1 && st == base && (n == 1 ==> !NoPod(base, id))
    case RemovePod(id) =>
      && id != "" && n <= 2 && st == base
      && (n >= 1 ==> !NoPod(base, id)) && (n == 2 ==> !HasContainers(base, id))
    case CreateContainer(sbid, ctr, stamp, _) =>
      && sbid != "" && n <= 3 && st == base
      && (n >= 1 ==> !NoPod(base, sbid)) && (n >= 2 ==> !NoImage(base, ctr.image))
      && (n == 3 ==> NoContainer(base, ContainerId(sbid, ctr.name, stamp)))
    case StartContainer(id, _) => n <= 1 && st == base && (n == 1 ==> !NoContainer(base, id))
    case StopContainer(id, _) => n <= 1 && st == base && (n == 1 ==> !NoContainer(base, id))
    case RemoveContainer(id) => n <= 1 && st == base && (n == 1 ==> !NoContainer(base, id))
    case _ => n == 0 && st == base
  }

  ghost predicate NextOk(base: Store, r: Req, st: Store, next: Next) {
    match next
    case Goto(m) => StageOk(base, r, m, st)
    case Return(reply) => Serves(base, r, st, reply)
    case Schedule(cb) => Schedules(r) && cb == CbOf(r) && StageOk(base, r, LastStage(r), st)
  }

  /** A get that stopped somewhere found what is there; one that did not found nothing. */
  lemma GotPod(st: Store, id: string, at: Option<string>)
    requires GotSandbox(st, id, at)
    ensures at.None? <==> NoPod(st, id)
    ensures at.None? ==> SandboxScan(st, id, None)
    ensures at.Some? ==> at.value in st.sandboxes && SandboxScan(st, id, Some(st.sandboxes[at.value]))
  {}

  lemma GotCtr(st: Store, id: string, at: Option<string>)
    requires GotContainer(st, id, at)
    ensures at.None? <==> NoContainer(st, id)
    ensures at.None? ==> ContainerScan(st, id, None)
    ensures at.Some? ==> at.value in st.containers && ContainerScan(st, id, Some(st.containers[at.value]))
  {}

  lemma GotImg(st: Store, name: string, at: Option<string>)
    requires GotImage(st, name, at)
    ensures at.None? <==> NoImage(st, name)
    ensures at.Some? ==> at.value in st.images && ImageScan(st, name, Some(st.images[at.value]))
  {}

  lemma PodSection(base: Store, r: Req, n: nat, st: Store, at: Option<string>)
    requires StageOk(base, r, n, st) && Section(st, r, n, at).Some?
    requires r.RunPod? || r.StopPod? || r.RemovePod? || r.PodStatus? || r.ListPods?
    ensures var (st1, next) := Section(st, r, n, at).value; NextOk(base, r, st1, next)
  {
    hide GotSandbox, NoPod, SandboxScan, Effect;
    match r
    case RunPod(pod, stamp, _) => if n == 0 { GotPod(st, SandboxId(pod.meta.uid, stamp), at); }
    case StopPod(id, _) => if n == 0 { GotPod(st, id, at); }
    case RemovePod(id) => if n == 0 { GotPod(st, id, at); }
    case PodStatus(id) => GotPod(st, id, at);
    case _ =>
  }

  lemma CreateSection(base: Store, r: Req, n: nat, st: Store, at: Option<string>)
    requires StageOk(base, r, n, st) && Section(st, r, n, at).Some? && r.CreateContainer?
    ensures var (st1, next) := Section(st, r, n, at).value; NextOk(base, r, st1, next)
  {
    hide GotSandbox, GotContainer, GotImage, NoPod, NoContainer, NoImage;
    if n == 0 {
      GotPod(st, r.id, at);
    } else if n == 1 {
      GotImg(st, r.ctr.image, at);
    } else if n == 2 {
      GotCtr(st, ContainerId(r.id, r.ctr.name, r.stamp), at);
    }
  }

  lemma OtherSection(base: Store, r: Req, n: nat, st: Store, at: Option<string>)
    requires StageOk(base, r, n, st) && Section(st, r, n, at).Some?
    requires !(r.RunPod? || r.StopPod? || r.RemovePod? || r.PodStatus? || r.ListPods? || r.CreateContainer?)
    ensures var (st1, next) := Section(st, r, n, at).value; NextOk(base, r, st1, next)
  {
    hide GotContainer, GotImage, NoContainer, NoImage, ContainerScan, ImageScan, Effect;
    match r
    case StartContainer(id, _) => if n == 0 { GotCtr(st, id, at); }
    case StopContainer(id, _) => if n == 0 { GotCtr(st, id, at); }
    case RemoveContainer(id) => if n == 0 { GotCtr(st, id, at); }
    case ContainerStatus(id) => GotCtr(st, id, at);
    case ImageStatus(image) => GotImg(st, image, at);
    case _ =>
  }

  /** One critical section of a handler moves it to its next stage, or ends it with a reply and a
      store the request alone could have produced. */
  lemma SectionKeeps(base: Store, r: Req, n: nat, st: Store, at: Option<string>)
    requires StageOk(base, r, n, st) && Section(st, r, n, at).Some?
    ensures var (st1, next) := Section(st, r, n, at).value; NextOk(base, r, st1, next)
  {
    hide StageOk, NextOk, Section;
    if r.CreateContainer? {
      CreateSection(base, r, n, st, at);
    } else if r.RunPod? || r.StopPod? || r.RemovePod? || r.PodStatus? || r.ListPods? {
      PodSection(base, r, n, st, at);
    } else {
      OtherSection(base, r, n, st, at);
    }
  }

  /** Inv of the stores a handler passes through. */
  lemma StageInv(base: Store, r: Req, n: nat, st: Store)
    requires Inv(base) && StageOk(base, r, n, st)
    ensures Inv(st)
  {}

  // ---------- Callbacks, section by section ----------

  /** A pod's callback is about to write back what its get found. */
  ghost predicate PodTurned(mid: Store, id: string, state: PodState, x: SandboxRec) {
    exists r :: SandboxScan(mid, id, Some(r)) && x == SetPodState(r, state)
  }

  ghost predicate CtrTurned(mid: Store, cb: Callback, y: ContainerRec)
    requires cb.RunCtr? || cb.ExitCtr?
  {
    exists r :: ContainerScan(mid, cb.id, Some(r)) && y == if cb.RunCtr? then SetRunning(r, cb.now) else SetExited(r, cb.now)
  }

  /** The pod has been turned, if there was one. */
  ghost predicate Unready(mid: Store, id: string, st: Store) {
    exists r :: SandboxScan(mid, id, r) && st == Turned(mid, id, r, SandboxNotReady)
  }

  /** Of the listing `keys`, the first i containers have been written back and todo is left. */
  ghost predicate Walked(mid: Store, id: string, at: map<string, Time>, r: Option<SandboxRec>, keys: seq<string>, i: nat,
                         todo: seq<ContainerRec>, st: Store) {
    && SandboxScan(mid, id, r) && ListsOf(mid.containers, id, keys) && i <= |keys|
    && todo == Records(mid.containers, keys[i..])
    && st == Turned(mid, id, r, SandboxNotReady).(containers := Walk(mid.containers, id, at, keys[..i]))
  }

  /** A callback at pc, having made of the store `mid` it started from the store st. */
  ghost predicate CbOk(mid: Store, cb: Callback, pc: CbPc, st: Store) {
    if CbFinished(pc) then Effect(mid, cb, st)
    else if pc.CbGet? then st == mid
    else
      match cb
      case ReadyPod(id) => pc.CbPutSandbox? && st == mid && PodTurned(mid, id, SandboxReady, pc.x)
      case UnreadyPod(id, at) =>
        if pc.CbPutSandbox? then st == mid && PodTurned(mid, id, SandboxNotReady, pc.x)
        else if pc.CbList? then Unready(mid, id, st)
        else pc.CbEach? && exists r, keys, i :: Walked(mid, id, at, r, keys, i, pc.todo, st)
      case RunCtr(_, _) => pc.CbPutContainer? && st == mid && CtrTurned(mid, cb, pc.y)
      case ExitCtr(_, _) => pc.CbPutContainer? && st == mid && CtrTurned(mid, cb, pc.y)
      case StoreImage(_) => false
  }

  lemma ReadySection(mid: Store, id: string, pc: CbPc, st: Store, at: Option<string>, keys: seq<string>)
    requires CbOk(mid, ReadyPod(id), pc, st) && !CbFinished(pc) && CbSection(st, ReadyPod(id), pc, at, keys).Some?
    ensures var (st1, pc1) := CbSection(st, ReadyPod(id), pc, at, keys).value; CbOk(mid, ReadyPod(id), pc1, st1)
  {
    hide SandboxScan, GotSandbox, NoPod;
    if pc.CbGet? {
      GotPod(st, id, at);
      if at.None? {
        assert Turned(st, id, None, SandboxReady) == st;
      } else {
        assert PodTurned(mid, id, SandboxReady, SetPodState(st.sandboxes[at.value], SandboxReady));
      }
    } else {
      var r :| SandboxScan(mid, id, Some(r)) && pc.x == SetPodState(r, SandboxReady);
      assert Turned(mid, id, Some(r), SandboxReady) == st.(sandboxes := st.sandboxes[id := pc.x]);
    }
  }

  lemma StopSection(mid: Store, id: string, times: map<string, Time>, pc: CbPc, st: Store, at: Option<string>)
    requires CbOk(mid, UnreadyPod(id, times), pc, st) && (pc.CbGet? || pc.CbPutSandbox?)
    requires CbSection(st, UnreadyPod(id, times), pc, at, []).Some?
    ensures var (st1, pc1) := CbSection(st, UnreadyPod(id, times), pc, at, []).value; CbOk(mid, UnreadyPod(id, times), pc1, st1)
  {
    hide SandboxScan, GotSandbox, NoPod;
    if pc.CbGet? {
      GotPod(st, id, at);
      if at.None? {
        assert st == Turned(st, id, None, SandboxNotReady);
      } else {
        assert PodTurned(mid, id, SandboxNotReady, SetPodState(st.sandboxes[at.value], SandboxNotReady));
      }
    } else {
      var r :| SandboxScan(mid, id, Some(r)) && pc.x == SetPodState(r, SandboxNotReady);
      assert Turned(mid, id, Some(r), SandboxNotReady) == st.(sandboxes := st.sandboxes[id := pc.x]);
    }
  }

  /** The walk over the listing is over, or has one container more to do. */
  lemma WalkedOk(mid: Store, id: string, at: map<string, Time>, r: Option<SandboxRec>, keys: seq<string>, i: nat,
                 todo: seq<ContainerRec>, st: Store)
    requires Walked(mid, id, at, r, keys, i, todo, st)
    ensures CbOk(mid, UnreadyPod(id, at), CbEach(todo), st)
  {
    hide SandboxScan;
    if todo == [] {
      assert keys[..i] == keys;
      assert Covers(mid.containers, id, keys);
    }
  }

  lemma ListSection(mid: Store, id: string, at: map<string, Time>, st: Store, keys: seq<string>)
    requires Unready(mid, id, st) && ListsOf(st.containers, id, keys)
    ensures CbOk(mid, UnreadyPod(id, at), CbEach(Records(st.containers, keys)), st)
  {
    hide SandboxScan;
    var r :| SandboxScan(mid, id, r) && st == Turned(mid, id, r, SandboxNotReady);
    assert keys[0..] == keys && st.containers == mid.containers;
    WalkedOk(mid, id, at, r, keys, 0, Records(st.containers, keys), st);
  }

  lemma EachSection(mid: Store, id: string, at: map<string, Time>, r: Option<SandboxRec>, keys: seq<string>, i: nat,
                    todo: seq<ContainerRec>, st: Store)
    requires Walked(mid, id, at, r, keys, i, todo, st) && todo != []
    ensures var y := todo[0];
            CbOk(mid, UnreadyPod(id, at), CbEach(todo[1..]),
                 st.(containers := st.containers[y.p.id := SetExited(y, StopTime(at, y.p.id))]))
  {
    hide SandboxScan;
    var y := todo[0];
    assert y == mid.containers[keys[i]] && keys[i..][1..] == keys[i + 1..];
    assert keys[..i + 1][..i] == keys[..i];
    WalkedOk(mid, id, at, r, keys, i + 1, todo[1..],
             st.(containers := st.containers[y.p.id := SetExited(y, StopTime(at, y.p.id))]));
  }

  lemma UnreadySection(mid: Store, id: string, times: map<string, Time>, pc: CbPc, st: Store, at: Option<string>, keys: seq<string>)
    requires CbOk(mid, UnreadyPod(id, times), pc, st) && !CbFinished(pc)
    requires CbSection(st, UnreadyPod(id, times), pc, at, keys).Some?
    ensures var (st1, pc1) := CbSection(st, UnreadyPod(id, times), pc, at, keys).value; CbOk(mid, UnreadyPod(id, times), pc1, st1)
  {
    if pc.CbGet? || pc.CbPutSandbox? {
      StopSection(mid, id, times, pc, st, at);
    } else if pc.CbList? {
      ListSection(mid, id, times, st, keys);
    } else {
      var r, order, i :| Walked(mid, id, times, r, order, i, pc.todo, st);
      hide Walked;
      EachSection(mid, id, times, r, order, i, pc.todo, st);
    }
  }

  lemma CtrSection(mid: Store, cb: Callback, pc: CbPc, st: Store, at: Option<string>, keys: seq<string>)
    requires (cb.RunCtr? || cb.ExitCtr?) && CbOk(mid, cb, pc, st) && !CbFinished(pc)
    requires CbSection(st, cb, pc, at, keys).Some?
    ensures var (st1, pc1) := CbSection(st, cb, pc, at, keys).value; CbOk(mid, cb, pc1, st1)
  {
    hide ContainerScan, GotContainer, NoContainer;
    if pc.CbGet? {
      GotCtr(st, cb.id, at);
      if at.Some? {
        var r := st.containers[at.value];
        assert CtrTurned(mid, cb, if cb.RunCtr? then SetRunning(r, cb.now) else SetExited(r, cb.now));
      } else {
        assert ContainerScan(mid, cb.id, None);
      }
    } else {
      var r :| ContainerScan(mid, cb.id, Some(r)) && pc.y == if cb.RunCtr? then SetRunning(r, cb.now) else SetExited(r, cb.now);
      assert ContainerScan(mid, cb.id, Some(r));
    }
  }

  /** One critical section of a callback brings it closer to its effect. */
  lemma CbSectionKeeps(mid: Store, cb: Callback, pc: CbPc, st: Store, at: Option<string>, keys: seq<string>)
    requires CbOk(mid, cb, pc, st) && !CbFinished(pc) && CbSection(st, cb, pc, at, keys).Some?
    ensures var (st1, pc1) := CbSection(st, cb, pc, at, keys).value; CbOk(mid, cb, pc1, st1)
  {
    match cb
    case ReadyPod(id) => ReadySection(mid, id, pc, st, at, keys);
    case UnreadyPod(id, times) => UnreadySection(mid, id, times, pc, st, at, keys);
    case StoreImage(_) =>
    case _ => CtrSection(mid, cb, pc, st, at, keys);
  }

  // ---------- The invariant during a callback ----------

  lemma EarlyInv(mid: Store, cb: Callback, pc: CbPc, st: Store)
    requires Inv(mid) && Selective(mid, cb) && CbOk(mid, cb, pc, st) && !CbFinished(pc) && !pc.CbEach?
    ensures Inv(st) && (!cb.StoreImage? ==> KeysNotEnlarged(mid, st))
  {
    hide SandboxScan, ContainerScan;
    if pc.CbList? {
      var r :| SandboxScan(mid, cb.id, r) && st == Turned(mid, cb.id, r, SandboxNotReady);
      TurnedInv(mid, cb.id, r, SandboxNotReady);
    }
  }

  /** With a selective callback the invariant holds and no key is new at every point of it. */
  lemma CbInv(mid: Store, cb: Callback, pc: CbPc, st: Store)
    requires Inv(mid) && Selective(mid, cb) && CbOk(mid, cb, pc, st)
    ensures Inv(st) && (!cb.StoreImage? ==> KeysNotEnlarged(mid, st))
  {
    hide Inv, Effect, SandboxScan;
    if CbFinished(pc) {
      SelectiveKeeps(mid, cb, st);
    } else if !pc.CbEach? {
      EarlyInv(mid, cb, pc, st);
    } else {
      var r, keys, i :| Walked(mid, cb.id, cb.at, r, keys, i, pc.todo, st);
      TurnedInv(mid, cb.id, r, SandboxNotReady);
      InvKeyed(mid);
      WalkIs(mid.containers, cb.id, cb.at, keys[..i]);
      ExitSomeInv(Turned(mid, cb.id, r, SandboxNotReady), cb.id, cb.at, keys[..i]);
    }
  }
}
