/** The delayed transitions as whole callbacks and the requests as whole steps, for any id and any
    store: relations over every order a map scan may take, and when they are functions. */
module CriEffects {
  import opened Base
  import opened CriModel
  import opened CriTheorems
  import opened CriSystem

  function PutSandbox(st: Store, id: string, x: SandboxRec): Store {
    st.(sandboxes := st.sandboxes[id := x])
  }

  function PutContainer(st: Store, id: string, y: ContainerRec): Store {
    st.(containers := st.containers[id := y])
  }

  // ---------- Ending the containers of a sandbox ----------

  /** keys lists records of m, each once, and all those of sandbox sbid. */
  ghost predicate Covers(m: map<string, ContainerRec>, sbid: string, keys: seq<string>) {
    && (forall k :: k in keys ==> k in m)
    && (forall k :: k in m && m[k].p.sandboxId == sbid ==> k in keys)
    && Distinct(keys)
  }

  /** The loop over a listing taken from m: each record of sbid is written back, exited, under the
      id it carries. */
  function Walk(m: map<string, ContainerRec>, sbid: string, at: map<string, Time>, keys: seq<string>)
    : map<string, ContainerRec>
  {
    if keys == [] then m else
      var k, w := keys[|keys| - 1], Walk(m, sbid, at, keys[..|keys| - 1]);
      if k in m && m[k].p.sandboxId == sbid then w[m[k].p.id := SetExited(m[k], StopTime(at, m[k].p.id))] else w
  }

  /** Every container is stored under its own id. */
  ghost predicate Keyed(m: map<string, ContainerRec>) {
    forall k :: k in m ==> m[k].p.id == k
  }

  /** The containers of sandbox sbid among `done` exited, all others as they were. */
  function ExitSome(m: map<string, ContainerRec>, sbid: string, at: map<string, Time>, done: seq<string>)
    : map<string, ContainerRec>
  {
    map k | k in m :: if k in done && m[k].p.sandboxId == sbid then SetExited(m[k], StopTime(at, m[k].p.id)) else m[k]
  }

  /** When keys are ids the order of the loop does not matter. */
  lemma {:induction false} WalkIs(m: map<string, ContainerRec>, sbid: string, at: map<string, Time>, keys: seq<string>)
    requires Keyed(m)
    ensures Walk(m, sbid, at, keys) == ExitSome(m, sbid, at, keys)
  {
    if keys != [] {
      var n := |keys| - 1;
      WalkIs(m, sbid, at, keys[..n]);
      assert keys == keys[..n] + [keys[n]];
    }
  }

  lemma WalkAll(m: map<string, ContainerRec>, sbid: string, at: map<string, Time>, keys: seq<string>)
    requires Keyed(m) && Covers(m, sbid, keys)
    ensures Walk(m, sbid, at, keys) == ExitAll(m, sbid, at)
  {
    WalkIs(m, sbid, at, keys);
  }

  lemma {:induction false} Enumerate(keys: set<string>) returns (order: seq<string>)
    ensures (forall k :: k in order <==> k in keys) && Distinct(order)
    decreases |keys|
  {
    order := [];
    if keys != {} {
      var k :| k in keys;
      var rest := Enumerate(keys - {k});
      order := [k] + rest;
    }
  }

  // ---------- Callbacks ----------

  /** The sandbox a get found, if any, written back in another state. */
  function Turned(st: Store, id: string, r: Option<SandboxRec>, state: PodState): Store {
    if r.None? then st else PutSandbox(st, id, SetPodState(r.value, state))
  }

  /** What a callback may make of a store, over every order its scans may take. */
  ghost predicate Effect(st: Store, cb: Callback, st1: Store) {
    match cb
    case ReadyPod(id) =>
      exists r :: SandboxScan(st, id, r) && st1 == Turned(st, id, r, SandboxReady)
    case UnreadyPod(id, at) =>
      exists r, keys :: SandboxScan(st, id, r) && Covers(st.containers, id, keys) &&
        st1 == Turned(st, id, r, SandboxNotReady).(containers := Walk(st.containers, id, at, keys))
    case RunCtr(id, now) =>
      exists r :: ContainerScan(st, id, r) &&
        st1 == if r.None? then st else PutContainer(st, id, SetRunning(r.value, now))
    case ExitCtr(id, now) =>
      exists r :: ContainerScan(st, id, r) &&
        st1 == if r.None? then st else PutContainer(st, id, SetExited(r.value, now))
    case StoreImage(spec) => st1 == st.(images := st.images[SpecName(spec) := spec])
  }

  /** What several callbacks, one after the other, may make of a store. */
  ghost predicate Effects(st: Store, evs: seq<Event>, st1: Store) {
    if evs == [] then st1 == st
    else
      var e := evs[|evs| - 1];
      exists mid :: Effects(st, evs[..|evs| - 1], mid) && Effect(mid, e.cb, st1)
  }

  lemma EffectsSnoc(st: Store, evs: seq<Event>, mid: Store, e: Event, st1: Store)
    requires Effects(st, evs, mid) && Effect(mid, e.cb, st1)
    ensures Effects(st, evs + [e], st1)
  {
    hide Effect;
    var all := evs + [e];
    assert all[..|all| - 1] == evs && all[|all| - 1] == e;
    assert Effects(st, all[..|all| - 1], mid) && Effect(mid, all[|all| - 1].cb, st1);
  }

  lemma EffectsOne(st: Store, e: Event, st1: Store)
    ensures Effects(st, [e], st1) <==> Effect(st, e.cb, st1)
  {
    hide Effect;
    assert [e][..0] == [] && [e][0] == e;
    assert Effects(st, [e][..0], st);
    if Effect(st, e.cb, st1) {
      EffectsSnoc(st, [], st, e, st1);
      assert [] + [e] == [e];
    }
  }

  lemma {:induction false} EffectsJoin(st: Store, a: seq<Event>, mid: Store, b: seq<Event>, st1: Store)
    requires Effects(st, a, mid) && Effects(mid, b, st1)
    ensures Effects(st, a + b, st1)
    decreases b
  {
    hide Effect;
    if b == [] {
      assert a + b == a;
    } else {
      var n := |b| - 1;
      var mid1 :| Effects(mid, b[..n], mid1) && Effect(mid1, b[n].cb, st1);
      EffectsJoin(st, a, mid, b[..n], mid1);
      EffectsSnoc(st, a + b[..n], mid1, b[n], st1);
      assert a + b[..n] + [b[n]] == a + b;
    }
  }

  /** The guard under which a callback does what its author meant: its id selects one object, or
      there is nothing to select; an image spec is not nil. */
  predicate Selective(st: Store, cb: Callback) {
    match cb
    case ReadyPod(id) => id != "" || st.sandboxes == map[]
    case UnreadyPod(id, _) => id != "" || st.sandboxes == map[]
    case RunCtr(id, _) => id != "" || st.containers == map[]
    case ExitCtr(id, _) => id != "" || st.containers == map[]
    case StoreImage(spec) => spec.Some?
  }

  ghost predicate KeysNotEnlarged(st: Store, st1: Store) {
    st1.sandboxes.Keys <= st.sandboxes.Keys && st1.containers.Keys <= st.containers.Keys
  }

  lemma SandboxScanIs(st: Store, id: string, r: Option<SandboxRec>)
    requires Inv(st) && (id != "" || st.sandboxes == map[])
    ensures SandboxScan(st, id, r) <==> r == Lookup(st.sandboxes, id)
  {
    SandboxScanExact(st, id);
  }

  lemma ContainerScanIs(st: Store, id: string, r: Option<ContainerRec>)
    requires Inv(st) && (id != "" || st.containers == map[])
    ensures ContainerScan(st, id, r) <==> r == Lookup(st.containers, id)
  {
    ContainerScanExact(st, id);
  }

  lemma PutSandboxInv(st: Store, id: string, state: PodState)
    requires Inv(st) && id in st.sandboxes
    ensures var st1 := PutSandbox(st, id, SetPodState(st.sandboxes[id], state)); Inv(st1) && KeysNotEnlarged(st, st1)
  {}

  lemma PutContainerInv(st: Store, id: string, y: ContainerRec)
    requires Inv(st) && id in st.containers && ContainerOk(id, y) && y.p.sandboxId == st.containers[id].p.sandboxId
    ensures Inv(PutContainer(st, id, y)) && KeysNotEnlarged(st, PutContainer(st, id, y))
  {}

  lemma ExitSomeInv(st: Store, id: string, at: map<string, Time>, done: seq<string>)
    requires Inv(st)
    ensures Inv(st.(containers := ExitSome(st.containers, id, at, done)))
  {}

  lemma InvKeyed(st: Store)
    requires Inv(st)
    ensures Keyed(st.containers)
  {}

  /** What a selective lookup finds is turned in place. */
  lemma TurnedInv(st: Store, id: string, r: Option<SandboxRec>, state: PodState)
    requires Inv(st) && SandboxScan(st, id, r) && (id != "" || st.sandboxes == map[])
    ensures var st1 := Turned(st, id, r, state); Inv(st1) && KeysNotEnlarged(st, st1) && st1.containers == st.containers
  {
    SandboxScanIs(st, id, r);
    if r.Some? {
      PutSandboxInv(st, id, state);
    }
  }

  /** A selective callback adds no key and keeps the invariant, whenever it runs and whatever was
      removed since it was enqueued. */
  lemma SelectiveReady(st: Store, id: string, st1: Store)
    requires Inv(st) && Effect(st, ReadyPod(id), st1) && Selective(st, ReadyPod(id))
    ensures KeysNotEnlarged(st, st1) && Inv(st1)
  {
    var r :| SandboxScan(st, id, r) && st1 == Turned(st, id, r, SandboxReady);
    TurnedInv(st, id, r, SandboxReady);
  }

  lemma SelectiveUnready(st: Store, id: string, at: map<string, Time>, st1: Store)
    requires Inv(st) && Effect(st, UnreadyPod(id, at), st1) && Selective(st, UnreadyPod(id, at))
    ensures KeysNotEnlarged(st, st1) && Inv(st1)
  {
    var r, keys :| SandboxScan(st, id, r) && Covers(st.containers, id, keys) &&
      st1 == Turned(st, id, r, SandboxNotReady).(containers := Walk(st.containers, id, at, keys));
    hide Inv, SandboxScan;
    TurnedInv(st, id, r, SandboxNotReady);
    InvKeyed(st);
    WalkIs(st.containers, id, at, keys);
    ExitSomeInv(Turned(st, id, r, SandboxNotReady), id, at, keys);
  }

  lemma SelectiveRun(st: Store, id: string, now: Time, st1: Store)
    requires Inv(st) && Effect(st, RunCtr(id, now), st1) && Selective(st, RunCtr(id, now))
    ensures KeysNotEnlarged(st, st1) && Inv(st1)
  {
    var r :| ContainerScan(st, id, r) && st1 == if r.None? then st else PutContainer(st, id, SetRunning(r.value, now));
    ContainerScanIs(st, id, r);
    if r.Some? {
      PutContainerInv(st, id, SetRunning(r.value, now));
    }
  }

  lemma SelectiveExit(st: Store, id: string, now: Time, st1: Store)
    requires Inv(st) && Effect(st, ExitCtr(id, now), st1) && Selective(st, ExitCtr(id, now))
    ensures KeysNotEnlarged(st, st1) && Inv(st1)
  {
    var r :| ContainerScan(st, id, r) && st1 == if r.None? then st else PutContainer(st, id, SetExited(r.value, now));
    ContainerScanIs(st, id, r);
    if r.Some? {
      PutContainerInv(st, id, SetExited(r.value, now));
    }
  }

  lemma SelectiveKeeps(st: Store, cb: Callback, st1: Store)
    requires Inv(st) && Effect(st, cb, st1) && Selective(st, cb)
    ensures (!cb.StoreImage? ==> KeysNotEnlarged(st, st1)) && Inv(st1)
  {
    hide KeysNotEnlarged, SandboxScan, ContainerScan;
    match cb
    case ReadyPod(id) => SelectiveReady(st, id, st1);
    case UnreadyPod(id, at) => SelectiveUnready(st, id, at, st1);
    case RunCtr(id, now) => SelectiveRun(st, id, now, st1);
    case ExitCtr(id, now) => SelectiveExit(st, id, now, st1);
    case StoreImage(_) =>
  }

  /** An effect of an empty id on a store with sandboxes. */
  lemma StrayPod(st: Store, cb: Callback) returns (st1: Store)
    requires Inv(st) && st.sandboxes != map[] && (cb == ReadyPod("") || (cb.UnreadyPod? && cb.id == ""))
    ensures Effect(st, cb, st1) && "" in st1.sandboxes
  {
    var k :| k in st.sandboxes;
    var r := Some(st.sandboxes[k]);
    assert MatchSandbox(st.sandboxes[k], PodById(""));
    assert SandboxScan(st, "", r);
    var keys := Enumerate(st.containers.Keys);
    assert Covers(st.containers, "", keys);
    hide SandboxScan, Covers;
    if cb.ReadyPod? {
      st1 := Turned(st, "", r, SandboxReady);
    } else {
      st1 := Turned(st, "", r, SandboxNotReady).(containers := Walk(st.containers, "", cb.at, keys));
    }
  }

  /** An effect of an empty id on a store with containers. */
  lemma StrayContainer(st: Store, cb: Callback) returns (st1: Store)
    requires Inv(st) && st.containers != map[] && (cb.RunCtr? || cb.ExitCtr?) && cb.id == ""
    ensures Effect(st, cb, st1) && "" in st1.containers
  {
    var k :| k in st.containers;
    var r := Some(st.containers[k]);
    assert MatchContainer(st.containers[k], ContainerById(""));
    assert ContainerScan(st, "", r);
    hide ContainerScan;
    st1 := PutContainer(st, "", if cb.RunCtr? then SetRunning(r.value, cb.now) else SetExited(r.value, cb.now));
  }

  /** No key is empty under the invariant, but for an image named so. */
  lemma EmptyKey(st: Store, st1: Store)
    requires Inv(st) && ("" in st1.sandboxes || "" in st1.containers)
    ensures !Inv(st1) && !KeysNotEnlarged(st, st1)
  {
    assert "" !in st.sandboxes && "" !in st.containers;
  }

  /** An effect of a callback that is not selective. */
  lemma Stray(st: Store, cb: Callback) returns (st1: Store)
    requires Inv(st) && !Selective(st, cb)
    ensures Effect(st, cb, st1) && !Inv(st1)
    ensures !cb.StoreImage? ==> !KeysNotEnlarged(st, st1)
  {
    if cb.StoreImage? {
      st1 := st.(images := st.images["" := None]);
      assert "" in st1.images;
    } else {
      hide Effect, Inv, KeysNotEnlarged;
      if cb.ReadyPod? || cb.UnreadyPod? {
        st1 := StrayPod(st, cb);
      } else {
        st1 := StrayContainer(st, cb);
      }
      EmptyKey(st, st1);
    }
  }

  /** No resurrection, exactly: a delayed transition of a sandbox or container never adds a key,
      over all its scan orders, if and only if its id is not empty or there is nothing to select. */
  lemma NoResurrectionExactly(st: Store, cb: Callback)
    requires Inv(st) && !cb.StoreImage?
    ensures (forall st1 :: Effect(st, cb, st1) ==> KeysNotEnlarged(st, st1)) <==> Selective(st, cb)
  {
    if Selective(st, cb) {
      forall st1 | Effect(st, cb, st1) ensures KeysNotEnlarged(st, st1) {
        SelectiveKeeps(st, cb, st1);
      }
    } else {
      var st1 := Stray(st, cb);
    }
  }

  /** The store invariant survives a callback, over all its scan orders, if and only if its id is
      not empty or there is nothing to select, and an image spec is not nil. */
  lemma InvKeptExactly(st: Store, cb: Callback)
    requires Inv(st)
    ensures (forall st1 :: Effect(st, cb, st1) ==> Inv(st1)) <==> Selective(st, cb)
  {
    if Selective(st, cb) {
      forall st1 | Effect(st, cb, st1) ensures Inv(st1) {
        SelectiveKeeps(st, cb, st1);
      }
    } else {
      var st1 := Stray(st, cb);
    }
  }

  // ---------- Requests ----------

  /** The callback a request schedules, and whether it does. */
  function CbOf(r: Req): Callback {
    match r
    case RunPod(pod, stamp, _) => ReadyPod(SandboxId(pod.meta.uid, stamp))
    case StopPod(id, at) => UnreadyPod(id, at)
    case StartContainer(id, now) => RunCtr(id, now)
    case StopContainer(id, now) => ExitCtr(id, now)
    case PullImage(image) => StoreImage(image)
    case _ => StoreImage(None)
  }

  predicate Schedules(r: Req) {
    r.RunPod? || r.StopPod? || r.StartContainer? || r.StopContainer? || r.PullImage?
  }

  /** The store a handler has when it schedules its callback. */
  function Prepared(st: Store, r: Req): Store {
    match r
    case RunPod(pod, stamp, now) =>
      PutSandbox(st, SandboxId(pod.meta.uid, stamp), NewPod(SandboxId(pod.meta.uid, stamp), pod, now))
    case _ => st
  }

  ghost predicate NoPod(st: Store, id: string) { SandboxScan(st, id, None) }

  ghost predicate NoContainer(st: Store, id: string) { ContainerScan(st, id, None) }

  ghost predicate NoImage(st: Store, name: string) { ImageScan(st, name, None) }

  predicate HasContainers(st: Store, id: string) {
    exists k :: k in st.containers && st.containers[k].p.sandboxId == id
  }

  /** One request served alone, with its delayed transition: the possible stores and replies, for
      any id, also an empty one that every object matches. */
  ghost predicate Serves(st: Store, r: Req, st1: Store, reply: Reply) {
    match r
    case RunPod(pod, stamp, now) =>
      if pod.meta.uid == "" then st1 == st && reply == Failed(InvalidArgument)
      else if !NoPod(st, SandboxId(pod.meta.uid, stamp)) then st1 == st && reply == Failed(AlreadyExists)
      else Effect(Prepared(st, r), CbOf(r), st1) && reply == AfterWait(r)
    case StopPod(id, _) =>
      if NoPod(st, id) then st1 == st && reply == Failed(NotFound)
      else Effect(st, CbOf(r), st1) && reply == Done
    case RemovePod(id) =>
      if id == "" then st1 == st && reply == Failed(InvalidArgument)
      else if NoPod(st, id) then st1 == st && reply == Failed(NotFound)
      else if HasContainers(st, id) then st1 == st && reply == Failed(InvalidArgument)
      else st1 == st.(sandboxes := st.sandboxes - {id}) && reply == Done
    case PodStatus(id) =>
      && st1 == st
      && if NoPod(st, id) then reply == Failed(NotFound)
         else exists x :: SandboxScan(st, id, Some(x)) && reply == ThePod(x.s)
    case ListPods(f) =>
      st1 == st && reply == ThePods(Listed(st.sandboxes, f))
    case CreateContainer(sbid, ctr, stamp, now) =>
      var id := ContainerId(sbid, ctr.name, stamp);
      if sbid == "" then st1 == st && reply == Failed(InvalidArgument)
      else if NoPod(st, sbid) then st1 == st && reply == Failed(NotFound)
      else if NoImage(st, ctr.image) then st1 == st && reply == Failed(NotFound)
      else if !NoContainer(st, id) then st1 == st && reply == Failed(AlreadyExists)
      else st1 == PutContainer(st, id, NewCtr(id, sbid, ctr, now)) && reply == NewId(id)
    case StartContainer(id, _) =>
      if NoContainer(st, id) then st1 == st && reply == Failed(NotFound)
      else Effect(st, CbOf(r), st1) && reply == Done
    case StopContainer(id, _) =>
      if NoContainer(st, id) then st1 == st && reply == Failed(NotFound)
      else Effect(st, CbOf(r), st1) && reply == Done
    case RemoveContainer(id) =>
      if NoContainer(st, id) then st1 == st && reply == Failed(NotFound)
      else st1 == st.(containers := st.containers - {id}) && reply == Done
    case ContainerStatus(id) =>
      && st1 == st
      && if NoContainer(st, id) then reply == Failed(NotFound)
         else exists y :: ContainerScan(st, id, Some(y)) && reply == TheContainer(y.s)
    case ListContainers(f) =>
      st1 == st && reply == TheContainers(ListedCtrs(st.containers, f))
    case PullImage(image) => Effect(st, CbOf(r), st1) && reply == AfterWait(r)
    case RemoveImage(image) => st1 == st.(images := st.images - {image}) && reply == Done
    case ImageStatus(image) =>
      && st1 == st
      && if NoImage(st, image) then reply == TheImage(None)
         else exists x :: ImageScan(st, image, Some(x)) && reply == TheImage(Some(SpecName(x)))
  }

  // ---------- Requests with ids that are not empty ----------

  lemma ReadyOnNew(st: Store, pod: PodConfig, stamp: string, now: Time, st1: Store)
    requires Inv(st) && SandboxId(pod.meta.uid, stamp) !in st.sandboxes
    ensures var id, r := SandboxId(pod.meta.uid, stamp), RunPod(pod, stamp, now);
            Effect(Prepared(st, r), ReadyPod(id), st1) <==>
            st1 == PutSandbox(st, id, SetPodState(NewPod(id, pod, now), SandboxReady))
  {
    var id, mid := SandboxId(pod.meta.uid, stamp), Prepared(st, RunPod(pod, stamp, now));
    assert Inv(mid);
    var x := Some(NewPod(id, pod, now));
    forall r ensures SandboxScan(mid, id, r) <==> r == x {
      SandboxScanIs(mid, id, r);
    }
    hide SandboxScan, Inv;
    assert SandboxScan(mid, id, x);
    assert Turned(mid, id, x, SandboxReady).sandboxes == st.sandboxes[id := SetPodState(x.value, SandboxReady)];
  }

  lemma UnreadyIs(st: Store, id: string, at: map<string, Time>, st1: Store)
    requires Inv(st) && id in st.sandboxes && id != ""
    ensures Effect(st, UnreadyPod(id, at), st1) <==>
            st1 == PutSandbox(st, id, SetPodState(st.sandboxes[id], SandboxNotReady)).(containers := ExitAll(st.containers, id, at))
  {
    var x := Some(st.sandboxes[id]);
    forall r ensures SandboxScan(st, id, r) <==> r == x {
      SandboxScanIs(st, id, r);
    }
    InvKeyed(st);
    forall keys | Covers(st.containers, id, keys) ensures Walk(st.containers, id, at, keys) == ExitAll(st.containers, id, at) {
      WalkAll(st.containers, id, at, keys);
    }
    var order := Enumerate(st.containers.Keys);
    assert Covers(st.containers, id, order) && SandboxScan(st, id, x);
  }

  lemma RunIs(st: Store, id: string, now: Time, st1: Store)
    requires Inv(st) && id in st.containers && id != ""
    ensures Effect(st, RunCtr(id, now), st1) <==> st1 == PutContainer(st, id, SetRunning(st.containers[id], now))
  {
    var y := Some(st.containers[id]);
    forall r ensures ContainerScan(st, id, r) <==> r == y {
      ContainerScanIs(st, id, r);
    }
    assert ContainerScan(st, id, y);
  }

  lemma ExitIs(st: Store, id: string, now: Time, st1: Store)
    requires Inv(st) && id in st.containers && id != ""
    ensures Effect(st, ExitCtr(id, now), st1) <==> st1 == PutContainer(st, id, SetExited(st.containers[id], now))
  {
    var y := Some(st.containers[id]);
    forall r ensures ContainerScan(st, id, r) <==> r == y {
      ContainerScanIs(st, id, r);
    }
    assert ContainerScan(st, id, y);
  }

  lemma RunPodIs(st: Store, r: Req, st1: Store, reply: Reply)
    requires Inv(st) && r.RunPod?
    ensures Serves(st, r, st1, reply) <==> (st1, reply) == Handle(st, r)
  {
    hide Inv, SandboxScan, Effect, SandboxId;
    var id := SandboxId(r.pod.meta.uid, r.stamp);
    SandboxScanIs(st, id, None);
    if id !in st.sandboxes {
      ReadyOnNew(st, r.pod, r.stamp, r.now, st1);
    }
  }

  lemma StopPodIs(st: Store, r: Req, st1: Store, reply: Reply)
    requires Inv(st) && WellFormed(r) && r.StopPod?
    ensures Serves(st, r, st1, reply) <==> (st1, reply) == Handle(st, r)
  {
    hide Inv, SandboxScan, Effect, ExitAll;
    SandboxScanIs(st, r.id, None);
    if r.id in st.sandboxes {
      UnreadyIs(st, r.id, r.at, st1);
    }
  }

  lemma RemovePodIs(st: Store, r: Req, st1: Store, reply: Reply)
    requires Inv(st) && r.RemovePod?
    ensures Serves(st, r, st1, reply) <==> (st1, reply) == Handle(st, r)
  {
    hide Inv, SandboxScan;
    if r.id != "" {
      SandboxScanIs(st, r.id, None);
    }
  }

  lemma PodStatusIs(st: Store, id: string, reply: Reply)
    requires Inv(st) && id != ""
    ensures Serves(st, PodStatus(id), st, reply) <==> reply == Handle(st, PodStatus(id)).1
  {
    forall r ensures SandboxScan(st, id, r) <==> r == Lookup(st.sandboxes, id) {
      SandboxScanIs(st, id, r);
    }
    hide SandboxScan;
    if id in st.sandboxes {
      assert SandboxScan(st, id, Some(st.sandboxes[id]));
    }
  }

  lemma ContainerStatusIs(st: Store, id: string, reply: Reply)
    requires Inv(st) && id != ""
    ensures Serves(st, ContainerStatus(id), st, reply) <==> reply == Handle(st, ContainerStatus(id)).1
  {
    forall r ensures ContainerScan(st, id, r) <==> r == Lookup(st.containers, id) {
      ContainerScanIs(st, id, r);
    }
    hide ContainerScan;
    if id in st.containers {
      assert ContainerScan(st, id, Some(st.containers[id]));
    }
  }

  lemma ImageStatusIs(st: Store, image: string, reply: Reply)
    requires Inv(st) && image != ""
    ensures Serves(st, ImageStatus(image), st, reply) <==> reply == Handle(st, ImageStatus(image)).1
  {
    ImageScanExact(st, image);
    if image in st.images {
      assert st.images[image] == Some(image);
      assert ImageScan(st, image, Some(st.images[image]));
    }
  }

  lemma CreateIs(st: Store, r: Req, st1: Store, reply: Reply)
    requires Inv(st) && WellFormed(r) && r.CreateContainer?
    ensures Serves(st, r, st1, reply) <==> (st1, reply) == Handle(st, r)
  {
    hide SandboxScan, ContainerScan, ImageScan, Inv;
    if r.id != "" {
      SandboxScanIs(st, r.id, None);
      ImageScanExact(st, r.ctr.image);
      assert ImageScan(st, r.ctr.image, None) <==> None == Lookup(st.images, r.ctr.image);
      ContainerScanIs(st, ContainerId(r.id, r.ctr.name, r.stamp), None);
    }
  }

  lemma ContainerRequestIs(st: Store, r: Req, st1: Store, reply: Reply)
    requires Inv(st) && WellFormed(r) && (r.StartContainer? || r.StopContainer? || r.RemoveContainer?)
    ensures Serves(st, r, st1, reply) <==> (st1, reply) == Handle(st, r)
  {
    hide Inv, ContainerScan, Effect;
    ContainerScanIs(st, r.id, None);
    if r.id in st.containers {
      match r
      case StartContainer(id, now) => RunIs(st, id, now, st1);
      case StopContainer(id, now) => ExitIs(st, id, now, st1);
      case RemoveContainer(_) =>
    }
  }

  /** Under the invariant a request with ids that are not empty has exactly one outcome, the one
      `Handle` computes: no scan order shows. */
  lemma ServesIsHandle(st: Store, r: Req, st1: Store, reply: Reply)
    requires Inv(st) && WellFormed(r)
    ensures Serves(st, r, st1, reply) <==> (st1, reply) == Handle(st, r)
  {
    hide Inv, Effect, NoPod, NoContainer, NoImage, SandboxScan, ContainerScan, ImageScan, HasContainers;
    match r
    case RunPod(_, _, _) => RunPodIs(st, r, st1, reply);
    case StopPod(_, _) => StopPodIs(st, r, st1, reply);
    case RemovePod(_) => RemovePodIs(st, r, st1, reply);
    case PodStatus(id) => PodStatusIs(st, id, reply);
    case ListPods(_) =>
    case CreateContainer(_, _, _, _) => CreateIs(st, r, st1, reply);
    case StartContainer(_, _) => ContainerRequestIs(st, r, st1, reply);
    case StopContainer(_, _) => ContainerRequestIs(st, r, st1, reply);
    case RemoveContainer(_) => ContainerRequestIs(st, r, st1, reply);
    case ContainerStatus(id) => ContainerStatusIs(st, id, reply);
    case ListContainers(_) =>
    case PullImage(image) => PullIs(st, image, st1);
    case RemoveImage(_) =>
    case ImageStatus(image) => ImageStatusIs(st, image, reply);
  }

  lemma PullIs(st: Store, image: Option<string>, st1: Store)
    ensures Effect(st, StoreImage(image), st1) <==> st1 == Handle(st, PullImage(image)).0
  {}

  // ---------- Which requests keep the invariant ----------

  /** The guard under which a request keeps the store invariant: only a stop or start with an empty
      id that finds something, and the pull of a nil image, break it. */
  predicate Harmless(st: Store, r: Req) {
    match r
    case StopPod(id, _) => id != "" || st.sandboxes == map[]
    case StartContainer(id, _) => id != "" || st.containers == map[]
    case StopContainer(id, _) => id != "" || st.containers == map[]
    case PullImage(image) => image.Some?
    case _ => true
  }

  lemma NothingMatches(st: Store)
    ensures NoPod(st, "") <==> st.sandboxes == map[]
    ensures NoContainer(st, "") <==> st.containers == map[]
  {
    if st.sandboxes != map[] {
      var k :| k in st.sandboxes;
      assert MatchSandbox(st.sandboxes[k], PodById(""));
    }
    if st.containers != map[] {
      var k :| k in st.containers;
      assert MatchContainer(st.containers[k], ContainerById(""));
    }
  }

  lemma StrayPodKey(st: Store, cb: Callback, st1: Store)
    requires (cb.ReadyPod? || cb.UnreadyPod?) && cb.id == "" && st.sandboxes != map[] && Effect(st, cb, st1)
    ensures "" in st1.sandboxes
  {
    NothingMatches(st);
    hide Covers, Walk;
  }

  lemma StrayContainerKey(st: Store, cb: Callback, st1: Store)
    requires (cb.RunCtr? || cb.ExitCtr?) && cb.id == "" && st.containers != map[] && Effect(st, cb, st1)
    ensures "" in st1.containers
  {
    NothingMatches(st);
  }

  /** A callback with an empty id that finds something stores it under an empty key. */
  lemma StrayBreaks(st: Store, cb: Callback, st1: Store)
    requires Inv(st) && !Selective(st, cb) && Effect(st, cb, st1)
    ensures !Inv(st1)
  {
    if cb.StoreImage? {
      assert "" in st1.images && st1.images[""] == None;
    } else {
      hide Inv, Effect, KeysNotEnlarged;
      if cb.ReadyPod? || cb.UnreadyPod? {
        StrayPodKey(st, cb, st1);
      } else {
        StrayContainerKey(st, cb, st1);
      }
      EmptyKey(st, st1);
    }
  }

  /** A callback's outcome keeps the invariant exactly when it was selective. */
  lemma EffectKeepsExactly(st: Store, cb: Callback, st1: Store)
    requires Inv(st) && Effect(st, cb, st1)
    ensures Inv(st1) <==> Selective(st, cb)
  {
    hide Inv, Effect, Selective;
    if Selective(st, cb) {
      SelectiveKeeps(st, cb, st1);
    } else {
      StrayBreaks(st, cb, st1);
    }
  }

  lemma PreparedInv(st: Store, r: Req)
    requires Inv(st) && (r.RunPod? ==> NoPod(st, SandboxId(r.pod.meta.uid, r.stamp)))
    ensures Inv(Prepared(st, r))
    ensures Schedules(r) ==> (Selective(Prepared(st, r), CbOf(r)) <==> Harmless(st, r))
  {
    if r.RunPod? {
      SandboxScanIs(st, SandboxId(r.pod.meta.uid, r.stamp), None);
    }
  }

  lemma RemovalsKeep(st: Store, r: Req, st1: Store, reply: Reply)
    requires Inv(st) && (r.RemovePod? || r.RemoveContainer? || r.RemoveImage?) && Serves(st, r, st1, reply)
    ensures Inv(st1)
  {
    hide NoPod, NoContainer;
  }

  lemma CreateKeepsInv(st: Store, r: Req, st1: Store, reply: Reply)
    requires Inv(st) && r.CreateContainer? && Serves(st, r, st1, reply)
    ensures Inv(st1)
  {
    if st1 != st {
      SandboxScanIs(st, r.id, None);
      ContainerScanIs(st, ContainerId(r.id, r.ctr.name, r.stamp), None);
    }
  }

  lemma SchedulingKeepsExactly(st: Store, r: Req, st1: Store, reply: Reply)
    requires Inv(st) && Schedules(r) && Serves(st, r, st1, reply)
    ensures Inv(st1) <==> Harmless(st, r)
  {
    NothingMatches(st);
    hide Inv, Effect, NoPod, NoContainer;
    if Effect(Prepared(st, r), CbOf(r), st1) && (r.RunPod? ==> NoPod(st, SandboxId(r.pod.meta.uid, r.stamp))) {
      PreparedInv(st, r);
      EffectKeepsExactly(Prepared(st, r), CbOf(r), st1);
    }
  }

  /** Whatever its outcome, a request keeps the store invariant if and only if it is harmless. */
  lemma ServesKeepsInvExactly(st: Store, r: Req, st1: Store, reply: Reply)
    requires Inv(st) && Serves(st, r, st1, reply)
    ensures Inv(st1) <==> Harmless(st, r)
  {
    if Schedules(r) {
      SchedulingKeepsExactly(st, r, st1, reply);
    } else if r.RemovePod? || r.RemoveContainer? || r.RemoveImage? {
      RemovalsKeep(st, r, st1, reply);
    } else if r.CreateContainer? {
      CreateKeepsInv(st, r, st1, reply);
    }
  }

  /** A request that is not harmless has an outcome. */
  lemma HarmHappens(st: Store, r: Req) returns (st1: Store, reply: Reply)
    requires Inv(st) && !Harmless(st, r)
    ensures Serves(st, r, st1, reply)
  {
    NothingMatches(st);
    hide Inv, Effect;
    st1 := Stray(st, CbOf(r));
    reply := AfterWait(r);
  }

  /** Over all outcomes: a request keeps the store invariant if and only if it is harmless. */
  lemma HarmlessExactly(st: Store, r: Req)
    requires Inv(st)
    ensures (forall st1, reply :: Serves(st, r, st1, reply) ==> Inv(st1)) <==> Harmless(st, r)
  {
    hide Inv, Serves, Harmless;
    forall st1, reply | Serves(st, r, st1, reply) ensures Inv(st1) <==> Harmless(st, r) {
      ServesKeepsInvExactly(st, r, st1, reply);
    }
    if !Harmless(st, r) {
      var st1, reply := HarmHappens(st, r);
    }
  }

  /** The callback of a handler whose checks have passed completes the request. */
  lemma CallbackCompletes(st: Store, r: Req, st1: Store)
    requires Schedules(r) && Effect(Prepared(st, r), CbOf(r), st1)
    requires r.RunPod? ==> r.pod.meta.uid != "" && NoPod(st, SandboxId(r.pod.meta.uid, r.stamp))
    requires r.StopPod? ==> !NoPod(st, r.id)
    requires r.StartContainer? || r.StopContainer? ==> !NoContainer(st, r.id)
    ensures Serves(st, r, st1, AfterWait(r))
  {}
}
