/** The fake CRI runtime as a concurrent system: any number of handler goroutines, the ticker
    goroutine, BuiltinCRIRuntime.mu, Runtime.mu, the event list and the done channels.  Each
    Lock, each critical section of Runtime.mu with its Unlock, each channel operation is a step. */
module CriSystem {
  import opened Base
  import opened CriModel
  import Events

  /** Every handler that schedules a transition uses this delay. */
  const DELAY: nat := 10

  datatype Callback =
    | ReadyPod(id: string)
    | UnreadyPod(id: string, at: map<string, Time>)
    | RunCtr(id: string, now: Time)
    | ExitCtr(id: string, now: Time)
    | StoreImage(spec: Option<string>)

  type Event = Events.Event<Callback>

  // ---------- Handlers ----------

  datatype Next = Goto(n: nat) | Schedule(cb: Callback) | Return(reply: Reply)

  /** What a handler does before it first touches the runtime. */
  function Begin(r: Req): Next {
    match r
    case RunPod(pod, _, _) => if pod.meta.uid == "" then Return(Failed(InvalidArgument)) else Goto(0)
    case RemovePod(id) => if id == "" then Return(Failed(InvalidArgument)) else Goto(0)
    case CreateContainer(sbid, _, _, _) => if sbid == "" then Return(Failed(InvalidArgument)) else Goto(0)
    case _ => Goto(0)
  }

  /** A Get returned: the key its scan stopped at, or None when nothing matched. */
  ghost predicate Got<T(!new)>(m: map<string, T>, keep: T -> bool, at: Option<string>) {
    if at.None? then forall k :: k in m ==> !keep(m[k])
    else at.value in m && keep(m[at.value])
  }

  ghost predicate GotSandbox(st: Store, id: string, at: Option<string>) {
    Got(st.sandboxes, x => MatchSandbox(x, PodById(id)), at)
  }

  ghost predicate GotContainer(st: Store, id: string, at: Option<string>) {
    Got(st.containers, x => MatchContainer(x, ContainerById(id)), at)
  }

  ghost predicate GotImage(st: Store, name: string, at: Option<string>) {
    Got(st.images, x => MatchImage(x, ImageByName(name)), at)
  }

  /** The n-th critical section of a handler: the store after it and what comes next.  `at` is
      where the scan of a Get stopped. */
  ghost function Section(st: Store, r: Req, n: nat, at: Option<string>): Option<(Store, Next)> {
    match r
    case RunPod(pod, stamp, now) =>
      var id := SandboxId(pod.meta.uid, stamp);
      if n == 0 then
        if !GotSandbox(st, id, at) then None
        else Some((st, if at.Some? then Return(Failed(AlreadyExists)) else Goto(1)))
      else if n == 1 then Some((st.(sandboxes := st.sandboxes[id := NewPod(id, pod, now)]), Goto(2)))
      else Some((st, Schedule(ReadyPod(id))))
    case StopPod(id, times) =>
      if n == 0 then
        if !GotSandbox(st, id, at) then None
        else Some((st, if at.None? then Return(Failed(NotFound)) else Goto(1)))
      else Some((st, Schedule(UnreadyPod(id, times))))
    case RemovePod(id) =>
      if n == 0 then
        if !GotSandbox(st, id, at) then None
        else Some((st, if at.None? then Return(Failed(NotFound)) else Goto(1)))
      else if n == 1 then
        Some((st, if exists k :: k in st.containers && st.containers[k].p.sandboxId == id
                  then Return(Failed(InvalidArgument)) else Goto(2)))
      else Some((st.(sandboxes := st.sandboxes - {id}), Return(Done)))
    case PodStatus(id) =>
      if !GotSandbox(st, id, at) then None
      else Some((st, Return(if at.Some? then ThePod(st.sandboxes[at.value].s) else Failed(NotFound))))
    case ListPods(f) =>
      Some((st, Return(ThePods(Listed(st.sandboxes, f)))))
    case CreateContainer(sbid, ctr, stamp, now) =>
      var id := ContainerId(sbid, ctr.name, stamp);
      if n == 0 then
        if !GotSandbox(st, sbid, at) then None
        else Some((st, if at.None? then Return(Failed(NotFound)) else Goto(1)))
      else if n == 1 then
        if !GotImage(st, ctr.image, at) then None
        else Some((st, if at.None? then Return(Failed(NotFound)) else Goto(2)))
      else if n == 2 then
        if !GotContainer(st, id, at) then None
        else Some((st, if at.Some? then Return(Failed(AlreadyExists)) else Goto(3)))
      else Some((st.(containers := st.containers[id := NewCtr(id, sbid, ctr, now)]), Return(NewId(id))))
    case StartContainer(id, now) =>
      if n == 0 then
        if !GotContainer(st, id, at) then None
        else Some((st, if at.None? then Return(Failed(NotFound)) else Goto(1)))
      else Some((st, Schedule(RunCtr(id, now))))
    case StopContainer(id, now) =>
      if n == 0 then
        if !GotContainer(st, id, at) then None
        else Some((st, if at.None? then Return(Failed(NotFound)) else Goto(1)))
      else Some((st, Schedule(ExitCtr(id, now))))
    case RemoveContainer(id) =>
      if n == 0 then
        if !GotContainer(st, id, at) then None
        else Some((st, if at.None? then Return(Failed(NotFound)) else Goto(1)))
      else Some((st.(containers := st.containers - {id}), Return(Done)))
    case ContainerStatus(id) =>
      if !GotContainer(st, id, at) then None
      else Some((st, Return(if at.Some? then TheContainer(st.containers[at.value].s) else Failed(NotFound))))
    case ListContainers(f) =>
      Some((st, Return(TheContainers(ListedCtrs(st.containers, f)))))
    case PullImage(image) => Some((st, Schedule(StoreImage(image))))
    case RemoveImage(image) => Some((st.(images := st.images - {image}), Return(Done)))
    case ImageStatus(image) =>
      if !GotImage(st, image, at) then None
      else Some((st, Return(TheImage(if at.Some? then Some(SpecName(st.images[at.value])) else None))))
  }

  /** The reply of a handler whose callback has run. */
  function AfterWait(r: Req): Reply {
    match r
    case RunPod(pod, stamp, _) => NewId(SandboxId(pod.meta.uid, stamp))
    case PullImage(image) => TheImage(Some(SpecName(image)))
    case _ => Done
  }

  // ---------- Callbacks ----------

  /** Where a callback is, with the handles it holds. */
  datatype CbPc =
    | CbGet
    | CbPutSandbox(x: SandboxRec)
    | CbPutContainer(y: ContainerRec)
    | CbList
    | CbEach(todo: seq<ContainerRec>)
    | CbEnd

  /** An order in which a map iteration may deliver the containers of one sandbox. */
  ghost predicate ListsOf(m: map<string, ContainerRec>, sbid: string, keys: seq<string>) {
    && (forall i :: 0 <= i < |keys| ==> keys[i] in m && m[keys[i]].p.sandboxId == sbid)
    && (forall k :: k in m && m[k].p.sandboxId == sbid ==> k in keys)
    && (forall i, j :: 0 <= i < j < |keys| ==> keys[i] != keys[j])
  }

  function Records(m: map<string, ContainerRec>, keys: seq<string>): seq<ContainerRec>
    requires forall i :: 0 <= i < |keys| ==> keys[i] in m
  {
    seq(|keys|, i requires 0 <= i < |keys| => m[keys[i]])
  }

  /** One critical section of a callback. */
  ghost function CbSection(st: Store, cb: Callback, pc: CbPc, at: Option<string>, keys: seq<string>): Option<(Store, CbPc)> {
    match cb
    case ReadyPod(id) =>
      if pc.CbGet? then
        if !GotSandbox(st, id, at) then None
        else Some((st, if at.Some? then CbPutSandbox(SetPodState(st.sandboxes[at.value], SandboxReady)) else CbEnd))
      else if pc.CbPutSandbox? then Some((st.(sandboxes := st.sandboxes[id := pc.x]), CbEnd))
      else None
    case UnreadyPod(id, times) =>
      if pc.CbGet? then
        if !GotSandbox(st, id, at) then None
        else Some((st, if at.Some? then CbPutSandbox(SetPodState(st.sandboxes[at.value], SandboxNotReady)) else CbList))
      else if pc.CbPutSandbox? then Some((st.(sandboxes := st.sandboxes[id := pc.x]), CbList))
      else if pc.CbList? then
        if ListsOf(st.containers, id, keys) then Some((st, CbEach(Records(st.containers, keys)))) else None
      else if pc.CbEach? && pc.todo != [] then
        var y := pc.todo[0];
        Some((st.(containers := st.containers[y.p.id := SetExited(y, StopTime(times, y.p.id))]), CbEach(pc.todo[1..])))
      else None
    case RunCtr(id, now) =>
      if pc.CbGet? then
        if !GotContainer(st, id, at) then None
        else Some((st, if at.Some? then CbPutContainer(SetRunning(st.containers[at.value], now)) else CbEnd))
      else if pc.CbPutContainer? then Some((st.(containers := st.containers[id := pc.y]), CbEnd))
      else None
    case ExitCtr(id, now) =>
      if pc.CbGet? then
        if !GotContainer(st, id, at) then None
        else Some((st, if at.Some? then CbPutContainer(SetExited(st.containers[at.value], now)) else CbEnd))
      else if pc.CbPutContainer? then Some((st.(containers := st.containers[id := pc.y]), CbEnd))
      else None
    case StoreImage(spec) =>
      if pc.CbGet? then Some((st.(images := st.images[SpecName(spec) := spec]), CbEnd)) else None
  }

  /** Nothing is left to do but close the done channel. */
  predicate CbFinished(pc: CbPc) {
    pc.CbEnd? || (pc.CbEach? && pc.todo == [])
  }

  // ---------- The system ----------

  datatype Thread =
    | WantB(r: Req)                          // b.mu.Lock
    | Ready(r: Req, n: nat)                  // holds b.mu; r.mu.Lock for section n
    | Inside(r: Req, n: nat)                 // holds b.mu and r.mu
    | Blocked(r: Req, done: nat)             // holds b.mu; receiving from a done channel
    | Leaving(r: Req, reply: Reply)          // b.mu.Unlock
    | Selecting(r: Req, at: nat)             // PullImage's select, b.mu released
    | WantBack(r: Req, reply: Reply, at: nat)
    | LeavingAgain(r: Req, reply: Reply, at: nat)
    | Finished(r: Req, reply: Reply, at: nat)

  datatype Agent = Handler(t: nat) | Ticker

  datatype TickerPc =
    | Sleeping
    | Splitting                              // holds r.mu
    | Running(batch: seq<Event>, pc: CbPc)   // the first event's callback is at pc
    | RunningInside(batch: seq<Event>, pc: CbPc)

  /** `base` is the store when b.mu was last taken and `hist` the requests served, in the order
      they released b.mu; both are history. */
  datatype Sys = Sys(
    store: Store,
    seqNo: nat,
    events: seq<Event>,
    made: nat,
    closed: set<nat>,
    bmu: Option<nat>,
    rmu: Option<Agent>,
    threads: map<nat, Thread>,
    ticker: TickerPc,
    base: Store,
    hist: seq<(Req, Reply)>)

  const INIT := Sys(EMPTY, 0, [], 0, {}, None, None, map[], Sleeping, EMPTY, [])

  datatype Act =
    | Arrive(t: nat, r: Req)
    | LockB(t: nat)
    | LockR(t: nat)
    | DoSection(t: nat, at: Option<string>)
    | Wake(t: nat)
    | UnlockB(t: nat)
    | Select(t: nat, canceled: bool)
    | LockBack(t: nat)
    | TickLock
    | TickSplit
    | CbLock
    | CbDo(at: Option<string>, keys: seq<string>)
    | CbClose
    | TickDone

  function Entered(r: Req): Thread {
    match Begin(r)
    case Return(reply) => Leaving(r, reply)
    case Goto(n) => Ready(r, n)
    case Schedule(_) => Ready(r, 0)
  }

  ghost function DoSectionOf(s: Sys, t: nat, at: Option<string>): Option<Sys> {
    if t !in s.threads || !s.threads[t].Inside? || s.rmu != Some(Handler(t)) then None else
    var r := s.threads[t].r;
    match Section(s.store, r, s.threads[t].n, at)
    case None => None
    case Some((st, next)) =>
      var s1 := s.(store := st, rmu := None);
      match next
      case Goto(n) => Some(s1.(threads := s.threads[t := Ready(r, n)]))
      case Return(reply) => Some(s1.(threads := s.threads[t := Leaving(r, reply)]))
      case Schedule(cb) =>
        Some(s1.(threads := s.threads[t := Blocked(r, s.made)], made := s.made + 1,
                 events := s.events + [Events.Event(s.seqNo + DELAY, cb, s.made)]))
  }

  function DoArrive(s: Sys, t: nat, r: Req): Option<Sys> {
    if t in s.threads then None else Some(s.(threads := s.threads[t := WantB(r)]))
  }

  function DoLockB(s: Sys, t: nat): Option<Sys> {
    if t !in s.threads || !s.threads[t].WantB? || s.bmu.Some? then None
    else Some(s.(bmu := Some(t), base := s.store, threads := s.threads[t := Entered(s.threads[t].r)]))
  }

  function DoLockR(s: Sys, t: nat): Option<Sys> {
    if t !in s.threads || !s.threads[t].Ready? || s.rmu.Some? then None
    else Some(s.(rmu := Some(Handler(t)), threads := s.threads[t := Inside(s.threads[t].r, s.threads[t].n)]))
  }

  function DoWake(s: Sys, t: nat): Option<Sys> {
    if t !in s.threads || !s.threads[t].Blocked? || s.threads[t].done !in s.closed then None
    else Some(s.(threads := s.threads[t := Leaving(s.threads[t].r, AfterWait(s.threads[t].r))]))
  }

  /** The unlock that ends a request, or PullImage's first one, which follows its effect. */
  function DoUnlockB(s: Sys, t: nat): Option<Sys> {
    if t !in s.threads || s.bmu != Some(t) then None else
    var th := s.threads[t];
    if th.Leaving? then
      var next := if th.r.PullImage? then Selecting(th.r, |s.hist|) else Finished(th.r, th.reply, |s.hist|);
      Some(s.(bmu := None, hist := s.hist + [(th.r, th.reply)], threads := s.threads[t := next]))
    else if th.LeavingAgain? then
      Some(s.(bmu := None, threads := s.threads[t := Finished(th.r, th.reply, th.at)]))
    else None
  }

  function DoSelect(s: Sys, t: nat, canceled: bool): Option<Sys> {
    if t !in s.threads || !s.threads[t].Selecting? then None else
    var th := s.threads[t];
    Some(s.(threads := s.threads[t := WantBack(th.r, if canceled then Failed(Canceled) else AfterWait(th.r), th.at)]))
  }

  function DoLockBack(s: Sys, t: nat): Option<Sys> {
    if t !in s.threads || !s.threads[t].WantBack? || s.bmu.Some? then None else
    var th := s.threads[t];
    Some(s.(bmu := Some(t), base := s.store, threads := s.threads[t := LeavingAgain(th.r, th.reply, th.at)]))
  }

  function DoTickLock(s: Sys): Option<Sys> {
    if !s.ticker.Sleeping? || s.rmu.Some? then None else Some(s.(rmu := Some(Ticker), ticker := Splitting))
  }

  function DoTickSplit(s: Sys): Option<Sys> {
    if !s.ticker.Splitting? || s.rmu != Some(Ticker) then None
    else Some(s.(rmu := None, seqNo := s.seqNo + 1, events := Events.Later(s.events, s.seqNo + 1),
                 ticker := Running(Events.Due(s.events, s.seqNo + 1), CbGet)))
  }

  function DoCbLock(s: Sys): Option<Sys> {
    if !s.ticker.Running? || s.ticker.batch == [] || CbFinished(s.ticker.pc) || s.rmu.Some? then None
    else Some(s.(rmu := Some(Ticker), ticker := RunningInside(s.ticker.batch, s.ticker.pc)))
  }

  ghost function DoCbDo(s: Sys, at: Option<string>, keys: seq<string>): Option<Sys> {
    if !s.ticker.RunningInside? || s.ticker.batch == [] || s.rmu != Some(Ticker) then None else
    match CbSection(s.store, s.ticker.batch[0].cb, s.ticker.pc, at, keys)
    case None => None
    case Some((st, pc)) => Some(s.(store := st, rmu := None, ticker := Running(s.ticker.batch, pc)))
  }

  function DoCbClose(s: Sys): Option<Sys> {
    if !s.ticker.Running? || s.ticker.batch == [] || !CbFinished(s.ticker.pc) then None
    else Some(s.(closed := s.closed + {s.ticker.batch[0].done}, ticker := Running(s.ticker.batch[1..], CbGet)))
  }

  function DoTickDone(s: Sys): Option<Sys> {
    if !s.ticker.Running? || s.ticker.batch != [] then None else Some(s.(ticker := Sleeping))
  }

  ghost function Do(s: Sys, a: Act): Option<Sys> {
    match a
    case Arrive(t, r) => DoArrive(s, t, r)
    case LockB(t) => DoLockB(s, t)
    case LockR(t) => DoLockR(s, t)
    case DoSection(t, at) => DoSectionOf(s, t, at)
    case Wake(t) => DoWake(s, t)
    case UnlockB(t) => DoUnlockB(s, t)
    case Select(t, canceled) => DoSelect(s, t, canceled)
    case LockBack(t) => DoLockBack(s, t)
    case TickLock => DoTickLock(s)
    case TickSplit => DoTickSplit(s)
    case CbLock => DoCbLock(s)
    case CbDo(at, keys) => DoCbDo(s, at, keys)
    case CbClose => DoCbClose(s)
    case TickDone => DoTickDone(s)
  }

  type Trace = seq<Act>

  ghost function Exec(tr: Trace): Option<Sys> {
    if tr == [] then Some(INIT) else
    match Exec(tr[..|tr| - 1])
    case None => None
    case Some(s) => Do(s, tr[|tr| - 1])
  }
}
