/** What each request does, field by field and in literal words: a second account of the requests,
    which names none of the functions the handlers and the specification are built from, and which
    fits them exactly. */
module CriAnswers {
  import opened Base
  import opened CriModel
  import opened CriTheorems
  import opened CriSystem
  import opened CriEffects
  import opened CriSystemInvariant
  import opened CriSystemRun
  import opened CriSystemTheorems

  /** Sandboxes apart from id, containers and images are as they were. */
  ghost predicate OnlySandbox(st: Store, id: string, st1: Store) {
    && st1.containers == st.containers && st1.images == st.images
    && st1.sandboxes.Keys == st.sandboxes.Keys + {id}
    && forall k :: k in st.sandboxes && k != id ==> st1.sandboxes[k] == st.sandboxes[k]
  }

  ghost predicate OnlyContainer(st: Store, id: string, st1: Store) {
    && st1.sandboxes == st.sandboxes && st1.images == st.images
    && st1.containers.Keys == st.containers.Keys + {id}
    && forall k :: k in st.containers && k != id ==> st1.containers[k] == st.containers[k]
  }

  // ---------- Sandboxes ----------

  /** Exactly one more sandbox, READY in both views, with everything the request said. */
  ghost predicate PodRun(st: Store, pod: PodConfig, id: string, now: Time, st1: Store) {
    && id !in st.sandboxes && OnlySandbox(st, id, st1)
    && var p, s := st1.sandboxes[id].p, st1.sandboxes[id].s;
    && p.id == id && s.id == id
    && p.meta == pod.meta && s.meta == pod.meta
    && p.labels == pod.labels && s.labels == pod.labels
    && p.handler == pod.handler && s.handler == pod.handler
    && p.createdAt == now && s.createdAt == now
    && p.state == SandboxReady && s.state == SandboxReady
    && s.ip == "10.0.0.1"
  }

  /** x1 is x in both views, but for the state. */
  predicate PodTurned(x: SandboxRec, state: PodState, x1: SandboxRec) {
    && x1.p.state == state && x1.s.state == state
    && x1.p.id == x.p.id && x1.p.meta == x.p.meta && x1.p.labels == x.p.labels && x1.p.handler == x.p.handler
    && x1.p.createdAt == x.p.createdAt
    && x1.s.id == x.s.id && x1.s.meta == x.s.meta && x1.s.labels == x.s.labels && x1.s.handler == x.s.handler
    && x1.s.createdAt == x.s.createdAt && x1.s.ip == x.s.ip
  }

  /** The fields of a container that no transition changes. */
  predicate SameContainer(y: ContainerRec, y1: ContainerRec) {
    && y1.p.id == y.p.id && y1.p.sandboxId == y.p.sandboxId && y1.p.name == y.p.name && y1.p.image == y.p.image
    && y1.p.imageRef == y.p.imageRef && y1.p.labels == y.p.labels && y1.p.createdAt == y.p.createdAt
    && y1.s.id == y.s.id && y1.s.name == y.s.name && y1.s.image == y.s.image && y1.s.imageRef == y.s.imageRef
    && y1.s.labels == y.s.labels && y1.s.createdAt == y.s.createdAt && y1.s.logPath == y.s.logPath
  }

  predicate WasStarted(y: ContainerRec, now: Time, y1: ContainerRec) {
    && SameContainer(y, y1) && y1.p.state == ContainerRunning && y1.s.state == ContainerRunning
    && y1.s.startedAt == now && y1.s.finishedAt == y.s.finishedAt
  }

  predicate WasEnded(y: ContainerRec, now: Time, y1: ContainerRec) {
    && SameContainer(y, y1) && y1.p.state == ContainerExited && y1.s.state == ContainerExited
    && y1.s.finishedAt == now && y1.s.startedAt == y.s.startedAt
  }

  /** A container after sandbox sbid was stopped: its own are exited, the others untouched. */
  predicate AfterStop(y: ContainerRec, sbid: string, now: Time, y1: ContainerRec) {
    if y.p.sandboxId == sbid then WasEnded(y, now, y1) else y1 == y
  }

  /** The sandbox is NOTREADY, its containers are exited, each with the clock reading taken for it. */
  ghost predicate PodStopped(st: Store, id: string, at: map<string, Time>, st1: Store) {
    && id in st.sandboxes && st1.images == st.images
    && st1.sandboxes.Keys == st.sandboxes.Keys && st1.containers.Keys == st.containers.Keys
    && PodTurned(st.sandboxes[id], SandboxNotReady, st1.sandboxes[id])
    && (forall k :: k in st.sandboxes && k != id ==> st1.sandboxes[k] == st.sandboxes[k])
    && (forall k :: k in st.containers ==>
          AfterStop(st.containers[k], id, if k in at then at[k] else 1, st1.containers[k]))
  }

  /** The filter wants this sandbox: id and state agree, and the selector's pairs are among its labels. */
  predicate WantsPod(f: PodFilter, x: SandboxRec) {
    && (f.id == "" || x.p.id == f.id)
    && (f.state.None? || x.s.state == f.state.value)
    && (f.selector.None? || f.selector.value.Items <= x.p.labels.Items)
  }

  predicate WantsContainer(f: ContainerFilter, y: ContainerRec) {
    && (f.id == "" || y.p.id == f.id)
    && (f.sandboxId == "" || y.p.sandboxId == f.sandboxId)
    && (f.state.None? || y.s.state == f.state.value)
    && (f.selector.None? || f.selector.value.Items <= y.p.labels.Items)
  }

  // ---------- Containers ----------

  /** Exactly one more container, CREATED in both views, with everything the request said. */
  ghost predicate ContainerMade(st: Store, sbid: string, c: ContainerConfig, id: string, now: Time, st1: Store) {
    && id !in st.containers && OnlyContainer(st, id, st1)
    && var p, s := st1.containers[id].p, st1.containers[id].s;
    && p.id == id && s.id == id && p.sandboxId == sbid
    && p.name == c.name && s.name == c.name
    && p.image == c.image && s.image == c.image && p.imageRef == c.image && s.imageRef == c.image
    && p.labels == c.labels && s.labels == c.labels
    && p.createdAt == now && s.createdAt == now
    && p.state == ContainerCreated && s.state == ContainerCreated
    && s.startedAt == 0 && s.finishedAt == 0 && s.logPath == c.logPath
  }

  /** An id is looked up: the key with that id, or any key for the empty one. */
  predicate Names(id: string, k: string) { id == "" || k == id }

  ghost predicate SomePod(st: Store, id: string) { exists k :: k in st.sandboxes && Names(id, k) }

  ghost predicate SomeContainer(st: Store, id: string) { exists k :: k in st.containers && Names(id, k) }

  ghost predicate SomeImage(st: Store, name: string) { exists k :: k in st.images && Names(name, k) }

  // ---------- Every request ----------

  /** What the requests that need no lookup by scan may answer, and what each does to the store. */
  ghost predicate PodAnswer(st: Store, r: Req, st1: Store, reply: Reply)
    requires r.RunPod? || r.StopPod? || r.RemovePod? || r.PodStatus? || r.ListPods?
  {
    match r
    case RunPod(pod, stamp, now) =>
      var id := "sandbox-" + pod.meta.uid + "-" + stamp;
      if pod.meta.uid == "" then st1 == st && reply == Failed(InvalidArgument)
      else if id in st.sandboxes then st1 == st && reply == Failed(AlreadyExists)
      else reply == NewId(id) && PodRun(st, pod, id, now, st1)
    case StopPod(id, at) =>
      if !SomePod(st, id) then st1 == st && reply == Failed(NotFound)
      else reply == Done && PodStopped(st, id, at, st1)
    case RemovePod(id) =>
      if id == "" then st1 == st && reply == Failed(InvalidArgument)
      else if id !in st.sandboxes then st1 == st && reply == Failed(NotFound)
      else if exists k :: k in st.containers && st.containers[k].p.sandboxId == id
      then st1 == st && reply == Failed(InvalidArgument)
      else
        && reply == Done && st1.containers == st.containers && st1.images == st.images
        && st1.sandboxes.Keys == st.sandboxes.Keys - {id}
        && forall k :: k in st1.sandboxes ==> st1.sandboxes[k] == st.sandboxes[k]
    case PodStatus(id) =>
      && st1 == st
      && if !SomePod(st, id) then reply == Failed(NotFound)
         else exists k :: k in st.sandboxes && Names(id, k) && reply == ThePod(st.sandboxes[k].s)
    case ListPods(f) =>
      && st1 == st && reply.ThePods?
      && (forall k :: k in reply.pods <==> k in st.sandboxes && WantsPod(f, st.sandboxes[k]))
      && (forall k :: k in reply.pods ==> reply.pods[k] == st.sandboxes[k].p)
  }

  ghost predicate ContainerAnswer(st: Store, r: Req, st1: Store, reply: Reply)
    requires r.CreateContainer? || r.StartContainer? || r.StopContainer? || r.RemoveContainer? || r.ContainerStatus?
             || r.ListContainers?
  {
    match r
    case CreateContainer(sbid, c, stamp, now) =>
      var id := "container-" + sbid + "-" + c.name + "-" + stamp;
      if sbid == "" then st1 == st && reply == Failed(InvalidArgument)
      else if sbid !in st.sandboxes then st1 == st && reply == Failed(NotFound)
      else if !SomeImage(st, c.image) then st1 == st && reply == Failed(NotFound)
      else if id in st.containers then st1 == st && reply == Failed(AlreadyExists)
      else reply == NewId(id) && ContainerMade(st, sbid, c, id, now, st1)
    case StartContainer(id, now) =>
      if !SomeContainer(st, id) then st1 == st && reply == Failed(NotFound)
      else reply == Done && id in st.containers && OnlyContainer(st, id, st1)
           && WasStarted(st.containers[id], now, st1.containers[id])
    case StopContainer(id, now) =>
      if !SomeContainer(st, id) then st1 == st && reply == Failed(NotFound)
      else reply == Done && id in st.containers && OnlyContainer(st, id, st1)
           && WasEnded(st.containers[id], now, st1.containers[id])
    case RemoveContainer(id) =>
      if !SomeContainer(st, id) then st1 == st && reply == Failed(NotFound)
      else
        && reply == Done && st1.sandboxes == st.sandboxes && st1.images == st.images
        && st1.containers.Keys == st.containers.Keys - {id}
        && forall k :: k in st1.containers ==> st1.containers[k] == st.containers[k]
    case ContainerStatus(id) =>
      && st1 == st
      && if !SomeContainer(st, id) then reply == Failed(NotFound)
         else exists k :: k in st.containers && Names(id, k) && reply == TheContainer(st.containers[k].s)
    case ListContainers(f) =>
      && st1 == st && reply.TheContainers?
      && (forall k :: k in reply.ctrs <==> k in st.containers && WantsContainer(f, st.containers[k]))
      && (forall k :: k in reply.ctrs ==> reply.ctrs[k] == st.containers[k].p)
  }

  ghost predicate ImageAnswer(st: Store, r: Req, st1: Store, reply: Reply)
    requires r.PullImage? || r.RemoveImage? || r.ImageStatus?
  {
    match r
    case PullImage(spec) =>
      && spec.Some? && reply == TheImage(spec)
      && st1.sandboxes == st.sandboxes && st1.containers == st.containers
      && st1.images.Keys == st.images.Keys + {spec.value} && st1.images[spec.value] == spec
      && forall k :: k in st.images && k != spec.value ==> st1.images[k] == st.images[k]
    case RemoveImage(name) =>
      && reply == Done && st1.sandboxes == st.sandboxes && st1.containers == st.containers
      && st1.images.Keys == st.images.Keys - {name}
      && forall k :: k in st1.images ==> st1.images[k] == st.images[k]
    case ImageStatus(name) =>
      && st1 == st
      && if !SomeImage(st, name) then reply == TheImage(None)
         else exists k :: k in st.images && Names(name, k) && reply == TheImage(Some(k))
  }

  ghost predicate Answer(st: Store, r: Req, st1: Store, reply: Reply) {
    if r.RunPod? || r.StopPod? || r.RemovePod? || r.PodStatus? || r.ListPods? then PodAnswer(st, r, st1, reply)
    else if r.PullImage? || r.RemoveImage? || r.ImageStatus? then ImageAnswer(st, r, st1, reply)
    else ContainerAnswer(st, r, st1, reply)
  }

  // ---------- Lookups ----------

  lemma PodScanIs(st: Store, id: string, r: Option<SandboxRec>)
    requires Inv(st)
    ensures SandboxScan(st, id, r) <==>
            if r.None? then !SomePod(st, id) else exists k :: k in st.sandboxes && Names(id, k) && st.sandboxes[k] == r.value
  {
    assert forall k :: k in st.sandboxes ==> (MatchSandbox(st.sandboxes[k], PodById(id)) <==> Names(id, k));
  }

  lemma CtrScanIs(st: Store, id: string, r: Option<ContainerRec>)
    requires Inv(st)
    ensures ContainerScan(st, id, r) <==>
            if r.None? then !SomeContainer(st, id)
            else exists k :: k in st.containers && Names(id, k) && st.containers[k] == r.value
  {
    assert forall k :: k in st.containers ==> (MatchContainer(st.containers[k], ContainerById(id)) <==> Names(id, k));
  }

  lemma ImageScanIs(st: Store, name: string, r: Option<ImageRec>)
    requires Inv(st)
    ensures ImageScan(st, name, r) <==>
            if r.None? then !SomeImage(st, name) else exists k :: k in st.images && Names(name, k) && r.value == Some(k)
  {
    assert forall k :: k in st.images ==> (MatchImage(st.images[k], ImageByName(name)) <==> Names(name, k));
  }

  // ---------- Each request answers as said ----------

  lemma IdsAre(uid: string, sbid: string, name: string, stamp: string)
    ensures SandboxId(uid, stamp) == "sandbox-" + uid + "-" + stamp
    ensures ContainerId(sbid, name, stamp) == "container-" + sbid + "-" + name + "-" + stamp
  {
    assert Join([stamp]) == stamp;
    assert Join([uid, stamp]) == uid + "-" + stamp by { assert [uid, stamp][1..] == [stamp]; }
    assert Join([name, stamp]) == name + "-" + stamp by { assert [name, stamp][1..] == [stamp]; }
    assert Join([sbid, name, stamp]) == sbid + "-" + (name + "-" + stamp) by {
      assert [sbid, name, stamp][1..] == [name, stamp];
    }
    assert ["sandbox", uid, stamp][1..] == [uid, stamp];
    assert ["container", sbid, name, stamp][1..] == [sbid, name, stamp];
    assert "sandbox" + "-" + (uid + "-" + stamp) == "sandbox-" + uid + "-" + stamp;
    assert "container" + "-" + (sbid + "-" + (name + "-" + stamp)) == "container-" + sbid + "-" + name + "-" + stamp;
  }

  lemma PodRunIs(st: Store, pod: PodConfig, id: string, now: Time, st1: Store)
    requires id !in st.sandboxes
    ensures PodRun(st, pod, id, now, st1) <==>
            st1 == st.(sandboxes := st.sandboxes[id := SetPodState(NewPod(id, pod, now), SandboxReady)])
  {}

  lemma PodTurnedIs(x: SandboxRec, x1: SandboxRec)
    ensures PodTurned(x, SandboxNotReady, x1) <==> x1 == SetPodState(x, SandboxNotReady)
  {}

  lemma EndedIs(y: ContainerRec, now: Time, y1: ContainerRec)
    ensures WasEnded(y, now, y1) <==> y1 == SetExited(y, now)
    ensures WasStarted(y, now, y1) <==> y1 == SetRunning(y, now)
  {}

  lemma AfterStopIs(st: Store, id: string, at: map<string, Time>, k: string, y1: ContainerRec)
    requires Inv(st) && k in st.containers
    ensures AfterStop(st.containers[k], id, if k in at then at[k] else 1, y1) <==> y1 == ExitAll(st.containers, id, at)[k]
  {
    hide WasEnded, SetExited;
    EndedIs(st.containers[k], if k in at then at[k] else 1, y1);
  }

  lemma ContainersEnded(st: Store, id: string, at: map<string, Time>, m1: map<string, ContainerRec>)
    requires Inv(st) && m1.Keys == st.containers.Keys
    ensures m1 == ExitAll(st.containers, id, at) <==>
            forall k :: k in st.containers ==> AfterStop(st.containers[k], id, if k in at then at[k] else 1, m1[k])
  {
    var all := ExitAll(st.containers, id, at);
    assert all.Keys == st.containers.Keys;
    hide Inv, AfterStop, ExitAll;
    forall k | k in st.containers
      ensures AfterStop(st.containers[k], id, if k in at then at[k] else 1, m1[k]) <==> m1[k] == all[k]
    {
      AfterStopIs(st, id, at, k, m1[k]);
    }
  }

  lemma ExitAllKeys(m: map<string, ContainerRec>, id: string, at: map<string, Time>)
    ensures ExitAll(m, id, at).Keys == m.Keys
  {}

  lemma PodStoppedIs(st: Store, id: string, at: map<string, Time>, st1: Store)
    requires Inv(st) && id in st.sandboxes
    ensures PodStopped(st, id, at, st1) <==>
            st1 == st.(sandboxes := st.sandboxes[id := SetPodState(st.sandboxes[id], SandboxNotReady)],
                       containers := ExitAll(st.containers, id, at))
  {
    hide Inv, AfterStop, ExitAll, PodTurned, SetPodState;
    ExitAllKeys(st.containers, id, at);
    if st1.containers.Keys == st.containers.Keys {
      ContainersEnded(st, id, at, st1.containers);
    }
    if id in st1.sandboxes {
      PodTurnedIs(st.sandboxes[id], st1.sandboxes[id]);
    }
    if PodStopped(st, id, at, st1) {
      assert st1.sandboxes == st.sandboxes[id := SetPodState(st.sandboxes[id], SandboxNotReady)];
    }
  }

  lemma RunPodAnswers(st: Store, r: Req, st1: Store, reply: Reply)
    requires Inv(st) && r.RunPod?
    ensures Serves(st, r, st1, reply) <==> PodAnswer(st, r, st1, reply)
  {
    hide Inv, Serves, PodRun, SandboxId, NewPod, SetPodState;
    ServesIsHandle(st, r, st1, reply);
    IdsAre(r.pod.meta.uid, "", "", r.stamp);
    var id := SandboxId(r.pod.meta.uid, r.stamp);
    if id !in st.sandboxes {
      PodRunIs(st, r.pod, id, r.now, st1);
    }
  }

  lemma StopPodAnswers(st: Store, r: Req, st1: Store, reply: Reply)
    requires Inv(st) && r.StopPod? && Harmless(st, r)
    ensures Serves(st, r, st1, reply) <==> PodAnswer(st, r, st1, reply)
  {
    hide Inv, PodStopped, SetPodState, ExitAll, SandboxScan, Effect;
    if r.id != "" {
      StopNamed(st, r, st1, reply);
    } else {
      PodScanIs(st, r.id, None);
    }
  }

  lemma StopNamed(st: Store, r: Req, st1: Store, reply: Reply)
    requires Inv(st) && r.StopPod? && r.id != ""
    ensures Serves(st, r, st1, reply) <==> PodAnswer(st, r, st1, reply)
  {
    hide Inv, Serves, PodStopped, SetPodState, ExitAll;
    ServesIsHandle(st, r, st1, reply);
    NamedOne(st, r.id);
    hide SomePod;
    if r.id in st.sandboxes {
      PodStoppedIs(st, r.id, r.at, st1);
    }
  }

  lemma RemovePodAnswers(st: Store, r: Req, st1: Store, reply: Reply)
    requires Inv(st) && r.RemovePod?
    ensures Serves(st, r, st1, reply) <==> PodAnswer(st, r, st1, reply)
  {
    hide Inv, Serves;
    ServesIsHandle(st, r, st1, reply);
    if PodAnswer(st, r, st1, reply) && reply == Done {
      assert st1.sandboxes == st.sandboxes - {r.id};
    }
  }

  lemma PodStatusAnswers(st: Store, r: Req, st1: Store, reply: Reply)
    requires Inv(st) && r.PodStatus?
    ensures Serves(st, r, st1, reply) <==> PodAnswer(st, r, st1, reply)
  {
    hide Inv, SandboxScan, SomePod, Names, Effect;
    forall x ensures SandboxScan(st, r.id, x) <==>
            if x.None? then !SomePod(st, r.id) else exists k :: k in st.sandboxes && Names(r.id, k) && st.sandboxes[k] == x.value
    {
      PodScanIs(st, r.id, x);
    }
    if PodAnswer(st, r, st1, reply) && SomePod(st, r.id) {
      var k :| k in st.sandboxes && Names(r.id, k) && reply == ThePod(st.sandboxes[k].s);
      assert SandboxScan(st, r.id, Some(st.sandboxes[k]));
    }
  }

  /** A listing shows a record exactly when the filter wants it. */
  lemma ListPodsAnswers(st: Store, r: Req, st1: Store, reply: Reply)
    requires r.ListPods?
    ensures Serves(st, r, st1, reply) <==> PodAnswer(st, r, st1, reply)
  {
    forall k | k in st.sandboxes ensures MatchSandbox(st.sandboxes[k], r.pods) <==> WantsPod(r.pods, st.sandboxes[k]) {
      if r.pods.selector.Some? {
        SelectsItems(r.pods.selector.value, st.sandboxes[k].p.labels);
      }
    }
    hide Effect, MatchSandbox, WantsPod;
    if PodAnswer(st, r, st1, reply) {
      assert reply.pods == Listed(st.sandboxes, r.pods);
    }
  }

  lemma ContainerMadeIs(st: Store, sbid: string, c: ContainerConfig, id: string, now: Time, st1: Store)
    requires id !in st.containers
    ensures ContainerMade(st, sbid, c, id, now, st1) <==> st1 == PutContainer(st, id, NewCtr(id, sbid, c, now))
  {}

  lemma CreateAnswers(st: Store, r: Req, st1: Store, reply: Reply)
    requires Inv(st) && r.CreateContainer?
    ensures Serves(st, r, st1, reply) <==> ContainerAnswer(st, r, st1, reply)
  {
    hide Inv, SandboxScan, ContainerScan, ImageScan, ContainerMade, NewCtr, PutContainer, ContainerId, Effect;
    IdsAre("", r.id, r.ctr.name, r.stamp);
    var id := ContainerId(r.id, r.ctr.name, r.stamp);
    PodScanIs(st, r.id, None);
    ImageScanIs(st, r.ctr.image, None);
    CtrScanIs(st, id, None);
    NamedOne(st, r.id);
    NamedOne(st, id);
    hide SomePod, SomeImage, SomeContainer;
    if id !in st.containers {
      ContainerMadeIs(st, r.id, r.ctr, id, r.now, st1);
    }
  }

  lemma NamedOne(st: Store, id: string)
    ensures id != "" ==> (SomePod(st, id) <==> id in st.sandboxes) && (SomeContainer(st, id) <==> id in st.containers)
  {}

  lemma TurnedIs(st: Store, r: Req, st1: Store)
    requires (r.StartContainer? || r.StopContainer?) && r.id in st.containers
    ensures OnlyContainer(st, r.id, st1)
            && (if r.StartContainer? then WasStarted(st.containers[r.id], r.now, st1.containers[r.id])
                else WasEnded(st.containers[r.id], r.now, st1.containers[r.id]))
            <==> st1 == Handle(st, r).0
  {
    hide WasStarted, WasEnded, SetRunning, SetExited;
    if r.id in st1.containers {
      EndedIs(st.containers[r.id], r.now, st1.containers[r.id]);
    }
    if OnlyContainer(st, r.id, st1) && st1.containers[r.id] == Handle(st, r).0.containers[r.id] {
      assert st1.containers == Handle(st, r).0.containers;
    }
  }

  lemma StartStopAnswers(st: Store, r: Req, st1: Store, reply: Reply)
    requires Inv(st) && (r.StartContainer? || r.StopContainer?) && Harmless(st, r)
    ensures Serves(st, r, st1, reply) <==> ContainerAnswer(st, r, st1, reply)
  {
    hide Inv, WasStarted, WasEnded, SetRunning, SetExited, ContainerScan, Effect, OnlyContainer;
    if r.id != "" {
      StartStopNamed(st, r, st1, reply);
    } else {
      CtrScanIs(st, r.id, None);
    }
  }

  lemma StartStopNamed(st: Store, r: Req, st1: Store, reply: Reply)
    requires Inv(st) && (r.StartContainer? || r.StopContainer?) && r.id != ""
    ensures Serves(st, r, st1, reply) <==> ContainerAnswer(st, r, st1, reply)
  {
    hide Inv, Serves, WasStarted, WasEnded, SetRunning, SetExited, OnlyContainer;
    ServesIsHandle(st, r, st1, reply);
    NamedOne(st, r.id);
    hide SomeContainer;
    if r.id in st.containers {
      TurnedIs(st, r, st1);
    }
  }

  lemma RemoveContainerAnswers(st: Store, r: Req, st1: Store, reply: Reply)
    requires Inv(st) && r.RemoveContainer?
    ensures Serves(st, r, st1, reply) <==> ContainerAnswer(st, r, st1, reply)
  {
    CtrScanIs(st, r.id, None);
    hide Inv, ContainerScan, Effect, SomeContainer;
  }

  lemma ContainerStatusAnswers(st: Store, r: Req, st1: Store, reply: Reply)
    requires Inv(st) && r.ContainerStatus?
    ensures Serves(st, r, st1, reply) <==> ContainerAnswer(st, r, st1, reply)
  {
    hide Inv, ContainerScan, SomeContainer, Names, Effect;
    forall y ensures ContainerScan(st, r.id, y) <==>
            if y.None? then !SomeContainer(st, r.id)
            else exists k :: k in st.containers && Names(r.id, k) && st.containers[k] == y.value
    {
      CtrScanIs(st, r.id, y);
    }
    if ContainerAnswer(st, r, st1, reply) && SomeContainer(st, r.id) {
      var k :| k in st.containers && Names(r.id, k) && reply == TheContainer(st.containers[k].s);
      assert ContainerScan(st, r.id, Some(st.containers[k]));
    }
  }

  lemma ListContainersAnswers(st: Store, r: Req, st1: Store, reply: Reply)
    requires r.ListContainers?
    ensures Serves(st, r, st1, reply) <==> ContainerAnswer(st, r, st1, reply)
  {
    forall k | k in st.containers ensures MatchContainer(st.containers[k], r.ctrs) <==> WantsContainer(r.ctrs, st.containers[k]) {
      if r.ctrs.selector.Some? {
        SelectsItems(r.ctrs.selector.value, st.containers[k].p.labels);
      }
    }
    hide Effect, MatchContainer, WantsContainer;
    if ContainerAnswer(st, r, st1, reply) {
      assert reply.ctrs == ListedCtrs(st.containers, r.ctrs);
    }
  }

  lemma ImageStatusAnswers(st: Store, r: Req, st1: Store, reply: Reply)
    requires Inv(st) && r.ImageStatus?
    ensures Serves(st, r, st1, reply) <==> ImageAnswer(st, r, st1, reply)
  {
    hide Inv, ImageScan, SomeImage, Names, Effect;
    forall x ensures ImageScan(st, r.image, x) <==>
            if x.None? then !SomeImage(st, r.image) else exists k :: k in st.images && Names(r.image, k) && x.value == Some(k)
    {
      ImageScanIs(st, r.image, x);
    }
    if ImageAnswer(st, r, st1, reply) && SomeImage(st, r.image) {
      var k :| k in st.images && Names(r.image, k) && reply == TheImage(Some(k));
      assert ImageScan(st, r.image, Some(Some(k)));
    }
  }

  lemma OtherImageAnswers(st: Store, r: Req, st1: Store, reply: Reply)
    requires (r.PullImage? && r.spec.Some?) || r.RemoveImage?
    ensures Serves(st, r, st1, reply) <==> ImageAnswer(st, r, st1, reply)
  {}

  /** The specification and the account above agree, both ways: under the store invariant a request
      that is harmless has exactly the outcomes described. */
  lemma ServesExactly(st: Store, r: Req, st1: Store, reply: Reply)
    requires Inv(st) && Harmless(st, r)
    ensures Serves(st, r, st1, reply) <==> Answer(st, r, st1, reply)
  {
    hide Inv, Serves, Harmless, PodAnswer, ContainerAnswer, ImageAnswer;
    match r
    case RunPod(_, _, _) => RunPodAnswers(st, r, st1, reply);
    case StopPod(_, _) => StopPodAnswers(st, r, st1, reply);
    case RemovePod(_) => RemovePodAnswers(st, r, st1, reply);
    case PodStatus(_) => PodStatusAnswers(st, r, st1, reply);
    case ListPods(_) => ListPodsAnswers(st, r, st1, reply);
    case CreateContainer(_, _, _, _) => CreateAnswers(st, r, st1, reply);
    case StartContainer(_, _) => StartStopAnswers(st, r, st1, reply);
    case StopContainer(_, _) => StartStopAnswers(st, r, st1, reply);
    case RemoveContainer(_) => RemoveContainerAnswers(st, r, st1, reply);
    case ContainerStatus(_) => ContainerStatusAnswers(st, r, st1, reply);
    case ListContainers(_) => ListContainersAnswers(st, r, st1, reply);
    case PullImage(_) => PullAnswers(st, r, st1, reply);
    case RemoveImage(_) => OtherImageAnswers(st, r, st1, reply);
    case ImageStatus(_) => ImageStatusAnswers(st, r, st1, reply);
  }

  lemma PullAnswers(st: Store, r: Req, st1: Store, reply: Reply)
    requires r.PullImage? && Harmless(st, r)
    ensures Serves(st, r, st1, reply) <==> ImageAnswer(st, r, st1, reply)
  {
    OtherImageAnswers(st, r, st1, reply);
  }

  // ---------- Ending containers whose keys are not their ids ----------

  /** Record k of m, of sandbox sbid, carries this id. */
  predicate Ends(m: map<string, ContainerRec>, sbid: string, keys: seq<string>, k: string, id: string) {
    k in keys && k in m && m[k].p.sandboxId == sbid && m[k].p.id == id
  }

  /** Whatever the keys are: the loop writes under each id carried by a listed container of the sandbox
      one of those containers, ended, and leaves everything else as it was. */
  lemma {:induction false} WalkDoes(m: map<string, ContainerRec>, sbid: string, at: map<string, Time>, keys: seq<string>, id: string)
    ensures var w := Walk(m, sbid, at, keys);
            if exists k :: Ends(m, sbid, keys, k, id)
            then id in w && exists k :: Ends(m, sbid, keys, k, id) && WasEnded(m[k], if id in at then at[id] else 1, w[id])
            else (id in w <==> id in m) && (id in m ==> w[id] == m[id])
  {
    if keys != [] {
      var n := |keys| - 1;
      var front, k := keys[..n], keys[n];
      WalkDoes(m, sbid, at, front, id);
      assert keys == front + [k];
      hide SameContainer;
      if k in m && m[k].p.sandboxId == sbid && m[k].p.id == id {
        EndedIs(m[k], if id in at then at[id] else 1, Walk(m, sbid, at, keys)[id]);
        assert Ends(m, sbid, keys, k, id);
      } else {
        forall x ensures Ends(m, sbid, keys, x, id) <==> Ends(m, sbid, front, x, id) {}
      }
    }
  }

  // ---------- In every run ----------

  /** In every tame run of the concurrent system, each request that leaves has been answered, and has
      left the store, as described. */
  lemma RunsAnswer(tr: Trace, t: nat)
    requires Exec(tr).Some? && Tame(tr) && Leaves(Exec(tr).value, UnlockB(t))
    ensures Do(Exec(tr).value, UnlockB(t)).Some?
    ensures var s := Exec(tr).value;
            Answer(Found(s), s.threads[t].r, Found(Do(s, UnlockB(t)).value), s.threads[t].reply)
  {
    hide Inv, Answer, Serves, Explains, StageOk, CbOk, Harmless;
    TameFound(tr);
    RunOk(tr);
    var s := Exec(tr).value;
    FoundStep(s, UnlockB(t));
    ServesExactly(Found(s), s.threads[t].r, Found(Do(s, UnlockB(t)).value), s.threads[t].reply);
  }

  /** So a pod that was run is there, READY, as the request described it, and is the only new one. */
  lemma RunMakesReady(tr: Trace, t: nat)
    requires Exec(tr).Some? && Tame(tr) && Leaves(Exec(tr).value, UnlockB(t))
    requires var th := Exec(tr).value.threads[t]; th.r.RunPod? && th.reply.NewId?
    ensures Do(Exec(tr).value, UnlockB(t)).Some?
    ensures var s := Exec(tr).value; var th := s.threads[t];
            PodRun(Found(s), th.r.pod, th.reply.id, th.r.now, Found(Do(s, UnlockB(t)).value))
  {
    hide Exec, Do, Tame, PodRun, Found;
    RunsAnswer(tr, t);
  }

  /** A container whose start was answered Done runs since then, one whose stop was is exited since
      then, in both views; and nothing else has changed. */
  lemma StartAndStop(tr: Trace, t: nat)
    requires Exec(tr).Some? && Tame(tr) && Leaves(Exec(tr).value, UnlockB(t))
    requires var th := Exec(tr).value.threads[t]; (th.r.StartContainer? || th.r.StopContainer?) && th.reply == Done
    ensures Do(Exec(tr).value, UnlockB(t)).Some?
    ensures var s := Exec(tr).value; var st, st1, r := Found(s), Found(Do(s, UnlockB(t)).value), s.threads[t].r;
            && r.id in st.containers && OnlyContainer(st, r.id, st1)
            && (r.StartContainer? ==> WasStarted(st.containers[r.id], r.now, st1.containers[r.id]))
            && (r.StopContainer? ==> WasEnded(st.containers[r.id], r.now, st1.containers[r.id]))
  {
    hide Exec, Do, Tame, WasStarted, WasEnded, Found;
    RunsAnswer(tr, t);
  }

  /** In any run at all, tame or not, a listing shows what the filter wants. */
  lemma RunsList(tr: Trace, t: nat)
    requires Exec(tr).Some? && Leaves(Exec(tr).value, UnlockB(t))
    requires var r := Exec(tr).value.threads[t].r; r.ListPods? || r.ListContainers?
    ensures var s := Exec(tr).value; Answer(Found(s), s.threads[t].r, Found(s), s.threads[t].reply)
  {
    hide Inv, PodAnswer, ContainerAnswer, Explains, StageOk, CbOk, Effect;
    RunOk(tr);
    var s := Exec(tr).value;
    FoundStep(s, UnlockB(t));
    var st1 := Found(Do(s, UnlockB(t)).value);
    if s.threads[t].r.ListPods? {
      ListPodsAnswers(Found(s), s.threads[t].r, st1, s.threads[t].reply);
    } else {
      ListContainersAnswers(Found(s), s.threads[t].r, st1, s.threads[t].reply);
    }
  }
}
