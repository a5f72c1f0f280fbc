/** The values kept by the fake CRI runtime: sandboxes, containers and images, the filters that
    select them, and the effect of each request as one function of the whole store. */
module CriModel {
  import opened Base

  /** A clock reading (nanoseconds); zero is the unset value. */
  type Time = t: int | t > 0 witness 1

  type Labels = map<string, string>

  datatype PodState = SandboxReady | SandboxNotReady

  datatype ContainerState = ContainerCreated | ContainerRunning | ContainerExited | ContainerUnknown

  datatype PodMeta = PodMeta(name: string, uid: string, namespace: string, attempt: nat)

  datatype PodVal = PodVal(id: string, meta: PodMeta, labels: Labels, handler: string, createdAt: int, state: PodState)

  datatype PodStatusVal = PodStatusVal(id: string, meta: PodMeta, labels: Labels, handler: string, createdAt: int,
                                       state: PodState, ip: string)

  datatype SandboxRec = SandboxRec(p: PodVal, s: PodStatusVal)

  datatype ContainerVal = ContainerVal(id: string, sandboxId: string, name: string, image: string, imageRef: string,
                                       labels: Labels, createdAt: int, state: ContainerState)

  datatype ContainerStatusVal = ContainerStatusVal(id: string, name: string, image: string, imageRef: string,
                                                   labels: Labels, createdAt: int, startedAt: int, finishedAt: int,
                                                   state: ContainerState, logPath: string)

  datatype ContainerRec = ContainerRec(p: ContainerVal, s: ContainerStatusVal)

  /** An image is stored as its spec; None is a nil spec. */
  type ImageRec = Option<string>

  datatype Store = Store(
    sandboxes: map<string, SandboxRec>,
    containers: map<string, ContainerRec>,
    images: map<string, ImageRec>)

  const EMPTY := Store(map[], map[], map[])

  // ---------- Filters ----------

  datatype PodFilter = PodFilter(id: string, state: Option<PodState>, selector: Option<Labels>)

  datatype ContainerFilter = ContainerFilter(id: string, sandboxId: string, state: Option<ContainerState>,
                                             selector: Option<Labels>)

  /** A selector matches the label sets that carry all its pairs. */
  predicate Selects(selector: Labels, labels: Labels) {
    forall k :: k in selector ==> k in labels && labels[k] == selector[k]
  }

  /** That is, the sets of labels its pairs are part of. */
  lemma SelectsItems(selector: Labels, labels: Labels)
    ensures Selects(selector, labels) <==> selector.Items <= labels.Items
  {
    if selector.Items <= labels.Items {
      forall k | k in selector ensures k in labels && labels[k] == selector[k] {
        assert (k, selector[k]) in selector.Items;
      }
    }
  }

  predicate MatchSandbox(x: SandboxRec, f: PodFilter) {
    && (f.id != "" ==> x.p.id == f.id)
    && (f.state.Some? ==> x.s.state == f.state.value)
    && (f.selector.Some? ==> Selects(f.selector.value, x.p.labels))
  }

  predicate MatchContainer(x: ContainerRec, f: ContainerFilter) {
    && (f.id != "" ==> x.p.id == f.id)
    && (f.sandboxId != "" ==> x.p.sandboxId == f.sandboxId)
    && (f.state.Some? ==> x.s.state == f.state.value)
    && (f.selector.Some? ==> Selects(f.selector.value, x.p.labels))
  }

  /** A nil spec on either side matches. */
  predicate MatchImage(x: ImageRec, f: Option<string>) {
    f.Some? && x.Some? ==> x.value == f.value
  }

  /** The filters of GetSandbox, GetContainer and GetImage. */
  function PodById(id: string): PodFilter { PodFilter(id, None, None) }

  function ContainerById(id: string): ContainerFilter { ContainerFilter(id, "", None, None) }

  /** GetImage of a possibly nil spec. */
  function SpecName(spec: Option<string>): string { if spec.None? then "" else spec.value }

  function ImageByName(name: string): Option<string> { if name == "" then None else Some(name) }

  // ---------- Requests ----------

  datatype PodConfig = PodConfig(meta: PodMeta, labels: Labels, handler: string)

  datatype ContainerConfig = ContainerConfig(name: string, image: string, labels: Labels, logPath: string)

  /** A request with everything its handler takes from the environment: the time stamp of a new
      id and the clock readings (at(c) is the one taken when container c is stopped). */
  datatype Req =
    | RunPod(pod: PodConfig, stamp: string, now: Time)
    | StopPod(id: string, at: map<string, Time>)
    | RemovePod(id: string)
    | PodStatus(id: string)
    | ListPods(pods: PodFilter)
    | CreateContainer(id: string, ctr: ContainerConfig, stamp: string, now: Time)
    | StartContainer(id: string, now: Time)
    | StopContainer(id: string, now: Time)
    | RemoveContainer(id: string)
    | ContainerStatus(id: string)
    | ListContainers(ctrs: ContainerFilter)
    | PullImage(spec: Option<string>)
    | RemoveImage(image: string)
    | ImageStatus(image: string)

  datatype Code = InvalidArgument | NotFound | AlreadyExists | Canceled

  /** Lists are given by key: one entry for each record listed, in no order. */
  datatype Reply =
    | Failed(code: Code)
    | Done
    | NewId(id: string)
    | ThePod(pod: PodStatusVal)
    | ThePods(pods: map<string, PodVal>)
    | TheContainer(ctr: ContainerStatusVal)
    | TheContainers(ctrs: map<string, ContainerVal>)
    | TheImage(image: Option<string>)

  // ---------- New records and transitions ----------

  function Join(parts: seq<string>): string {
    if parts == [] then ""
    else if |parts| == 1 then parts[0]
    else parts[0] + "-" + Join(parts[1..])
  }

  function SandboxId(uid: string, stamp: string): (id: string)
    ensures id != ""
  {
    Join(["sandbox", uid, stamp])
  }

  function ContainerId(sbid: string, name: string, stamp: string): (id: string)
    ensures id != ""
  {
    Join(["container", sbid, name, stamp])
  }

  const POD_IP := "10.0.0.1"

  function NewPod(id: string, c: PodConfig, now: Time): SandboxRec {
    SandboxRec(PodVal(id, c.meta, c.labels, c.handler, now, SandboxNotReady),
               PodStatusVal(id, c.meta, c.labels, c.handler, now, SandboxNotReady, POD_IP))
  }

  function NewCtr(id: string, sbid: string, c: ContainerConfig, now: Time): ContainerRec {
    ContainerRec(ContainerVal(id, sbid, c.name, c.image, c.image, c.labels, now, ContainerCreated),
                 ContainerStatusVal(id, c.name, c.image, c.image, c.labels, now, 0, 0, ContainerCreated, c.logPath))
  }

  function SetPodState(x: SandboxRec, st: PodState): SandboxRec {
    SandboxRec(x.p.(state := st), x.s.(state := st))
  }

  function SetRunning(x: ContainerRec, now: Time): ContainerRec {
    ContainerRec(x.p.(state := ContainerRunning), x.s.(state := ContainerRunning, startedAt := now))
  }

  function SetExited(x: ContainerRec, now: Time): ContainerRec {
    ContainerRec(x.p.(state := ContainerExited), x.s.(state := ContainerExited, finishedAt := now))
  }

  /** The time taken for one container of a stopped pod. */
  function StopTime(at: map<string, Time>, id: string): Time {
    if id in at then at[id] else 1
  }

  /** The containers of sandbox sbid exited, all others as they were. */
  function ExitAll(m: map<string, ContainerRec>, sbid: string, at: map<string, Time>): map<string, ContainerRec> {
    map k | k in m :: if m[k].p.sandboxId == sbid then SetExited(m[k], StopTime(at, m[k].p.id)) else m[k]
  }

  /** What the list handlers show of a store. */
  function Listed(m: map<string, SandboxRec>, f: PodFilter): map<string, PodVal> {
    map k | k in m && MatchSandbox(m[k], f) :: m[k].p
  }

  function ListedCtrs(m: map<string, ContainerRec>, f: ContainerFilter): map<string, ContainerVal> {
    map k | k in m && MatchContainer(m[k], f) :: m[k].p
  }

  // ---------- The sequential specification ----------

  /** A request and its delayed transition as one step. */
  function Handle(st: Store, r: Req): (Store, Reply) {
    match r
    case RunPod(pod, stamp, now) =>
      var id := SandboxId(pod.meta.uid, stamp);
      if pod.meta.uid == "" then (st, Failed(InvalidArgument))
      else if id in st.sandboxes then (st, Failed(AlreadyExists))
      else (st.(sandboxes := st.sandboxes[id := SetPodState(NewPod(id, pod, now), SandboxReady)]), NewId(id))
    case StopPod(id, at) =>
      if id !in st.sandboxes then (st, Failed(NotFound))
      else (st.(sandboxes := st.sandboxes[id := SetPodState(st.sandboxes[id], SandboxNotReady)],
                containers := ExitAll(st.containers, id, at)), Done)
    case RemovePod(id) =>
      if id == "" then (st, Failed(InvalidArgument))
      else if id !in st.sandboxes then (st, Failed(NotFound))
      else if exists k :: k in st.containers && st.containers[k].p.sandboxId == id then (st, Failed(InvalidArgument))
      else (st.(sandboxes := st.sandboxes - {id}), Done)
    case PodStatus(id) =>
      (st, if id in st.sandboxes then ThePod(st.sandboxes[id].s) else Failed(NotFound))
    case ListPods(f) =>
      (st, ThePods(Listed(st.sandboxes, f)))
    case CreateContainer(sbid, ctr, stamp, now) =>
      var id := ContainerId(sbid, ctr.name, stamp);
      if sbid == "" then (st, Failed(InvalidArgument))
      else if sbid !in st.sandboxes then (st, Failed(NotFound))
      else if ctr.image !in st.images then (st, Failed(NotFound))
      else if id in st.containers then (st, Failed(AlreadyExists))
      else (st.(containers := st.containers[id := NewCtr(id, sbid, ctr, now)]), NewId(id))
    case StartContainer(id, now) =>
      if id !in st.containers then (st, Failed(NotFound))
      else (st.(containers := st.containers[id := SetRunning(st.containers[id], now)]), Done)
    case StopContainer(id, now) =>
      if id !in st.containers then (st, Failed(NotFound))
      else (st.(containers := st.containers[id := SetExited(st.containers[id], now)]), Done)
    case RemoveContainer(id) =>
      if id !in st.containers then (st, Failed(NotFound))
      else (st.(containers := st.containers - {id}), Done)
    case ContainerStatus(id) =>
      (st, if id in st.containers then TheContainer(st.containers[id].s) else Failed(NotFound))
    case ListContainers(f) =>
      (st, TheContainers(ListedCtrs(st.containers, f)))
    case PullImage(image) =>
      (st.(images := st.images[SpecName(image) := image]), TheImage(Some(SpecName(image))))
    case RemoveImage(image) =>
      (st.(images := st.images - {image}), Done)
    case ImageStatus(image) =>
      (st, TheImage(if image in st.images then Some(image) else None))
  }

  /** Ids and image names that are looked up are not empty, and an image to pull is not nil. */
  predicate WellFormed(r: Req) {
    match r
    case StopPod(id, _) => id != ""
    case PodStatus(id) => id != ""
    case CreateContainer(_, ctr, _, _) => ctr.image != ""
    case StartContainer(id, _) => id != ""
    case StopContainer(id, _) => id != ""
    case RemoveContainer(id) => id != ""
    case ContainerStatus(id) => id != ""
    case ImageStatus(image) => image != ""
    case PullImage(image) => image.Some?
    case _ => true
  }

  // ---------- The store invariant ----------

  predicate SandboxOk(k: string, x: SandboxRec) {
    k != "" && x.p.id == k && x.s.id == k && x.p.state == x.s.state
  }

  predicate ContainerOk(k: string, x: ContainerRec) {
    && k != "" && x.p.id == k && x.s.id == k && x.p.state == x.s.state
    && (x.s.state == ContainerRunning ==> x.s.startedAt > 0)
    && (x.s.state == ContainerExited ==> x.s.finishedAt > 0)
  }

  /** Keys are the stored ids, records mirror their status, and every container's sandbox exists. */
  ghost predicate RecordsInv(st: Store) {
    && (forall k :: k in st.sandboxes ==> SandboxOk(k, st.sandboxes[k]))
    && (forall k :: k in st.containers ==> ContainerOk(k, st.containers[k]))
    && (forall k :: k in st.containers ==> st.containers[k].p.sandboxId in st.sandboxes)
  }

  /** And images are stored under their own names. */
  ghost predicate Inv(st: Store) {
    RecordsInv(st) && forall k :: k in st.images ==> st.images[k] == Some(k)
  }

  // ---------- Scanning a store ----------

  /** What a filtered scan in some iteration order may return first. */
  ghost predicate Scan<T(!new)>(m: map<string, T>, keep: T -> bool, r: Option<T>) {
    if r.None? then forall k :: k in m ==> !keep(m[k])
    else exists k :: k in m && keep(m[k]) && m[k] == r.value
  }

  function Lookup<T>(m: map<string, T>, k: string): Option<T> {
    if k in m then Some(m[k]) else None
  }

  lemma ScanUnique<T(!new)>(m: map<string, T>, keep: T -> bool, id: string, r: Option<T>)
    requires forall k :: k in m ==> (keep(m[k]) <==> k == id)
    ensures Scan(m, keep, r) <==> r == Lookup(m, id)
  {
    if r == Lookup(m, id) && r.Some? {
      assert id in m && keep(m[id]);
    }
  }
}
