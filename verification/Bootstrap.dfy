/** The bootstrap of a sandboxed process: a sequence of setup steps, each skipped once lastError is
    set, over an environment that decides the outcome of every system call. */
module Bootstrap {
  import opened Base

  // ---------- The environment ----------

  datatype FsType = FsType(fstype: string, flags: string, opts: string)

  const ROOT := "/tmp"
  const FS_PROC := FsType("proc", "nodev,noexec,nosuid,relatime", "")
  const FS_CGROUP2 := FsType("cgroup2", "nodev,noexec,nosuid,relatime", "memory_recursiveprot")
  const FS_TMPFS := FsType("tmpfs", "nodev,noexec,nosuid,relatime", "")
  const FS_DEVPTS := FsType("devpts", "noexec,nosuid,relatime", "")
  const FS_DEV := FsType("tmpfs", "noexec,nosuid,relatime", "")
  const FS_BIND_RO := FsType("", "nosuid,bind,rdonly,relatime", "")

  /** A system call or a library call that makes one. */
  datatype Action =
    | Sethostname(name: string)
    | LinkByName(link: string)
    | LinkSetUp(link: string)
    | AddrAdd(link: string, ip: string)
    | Chdir(path: string)
    | PivotRoot
    | Unmount
    | MkdirAll(path: string)
    | OpenFile(path: string, mode: nat)
    | WriteString(path: string, text: string)
    | MountAt(src: string, path: string, fs: FsType)
    | Stat(path: string)
    | Exec(command: seq<string>, env: seq<string>)

  /** `dir` answers Stat, `n` WriteString. */
  datatype Outcome = Fails(code: int) | Succeeds(dir: bool, n: nat)

  /** The outcome of an action may depend on everything done before it (the last element is the
      action itself); join and dirname are filepath.Join and filepath.Dir. */
  datatype World = World(outcome: seq<Action> -> Outcome, join: (string, string) -> string, dirname: string -> string)

  /** The caller is content: a write was also complete. */
  predicate Good(a: Action, o: Outcome) {
    o.Succeeds? && (a.WriteString? ==> o.n == |a.text|)
  }

  datatype Error =
    | Raw(a: Action, o: Outcome)
    | Wrapped(context: string, inner: Error)
    | CommandNotSet

  /** The error for a failed action: file operations report it as it is, the others name themselves. */
  predicate Reports(e: Error, a: Action, o: Outcome) {
    if a.MkdirAll? || a.OpenFile? || a.WriteString? || a.Stat? then e == Raw(a, o)
    else e.Wrapped? && e.inner == Raw(a, o) && NamedBy(a, e.context)
  }

  predicate NamedBy(a: Action, context: string) {
    match a
    case Sethostname(_) => context == "unix.Sethostname"
    case LinkByName(_) => context == "linkUp"
    case LinkSetUp(_) => context == "linkUp"
    case AddrAdd(_, _) => context == "linkUp"
    case Chdir(p) => context == if p == "/" then "chdir /" else "chdir"
    case PivotRoot => context == "pivot_root"
    case Unmount => context == "unmount put_old"
    case MountAt(_, _, _) => context == "mount" || context == "mount tmpfs"
    case Exec(_, _) => context == "unix.Exec"
    case _ => context == ""
  }

  // ---------- Configuration ----------

  datatype Payload = Payload(target: string, kind: string, value: string, mode: nat)

  datatype Config = Config(hostname: string, machineId: string, ip: string, command: seq<string>, env: seq<string>,
                           payload: seq<Payload>)

  // ---------- The specification: steps that stop at the first error ----------

  datatype Step =
    | HostnameStep
    | MountStep(fs: FsType, src: string, dest: string)
    | BindStep(fs: FsType, target: string, source: string)
    | WriteStep(dest: string, text: string, mode: nat)
    | LinkUpStep(link: string)
    | PivotStep

  /** Everything done so far and the error, if any, that ended it. */
  datatype Progress = Progress(log: seq<Action>, err: Option<Error>)

  /** One action, its error wrapped unless the context is empty. */
  function Try(w: World, log: seq<Action>, a: Action, context: string): Progress {
    var o := w.outcome(log + [a]);
    var e := Raw(a, o);
    Progress(log + [a], if Good(a, o) then None else Some(if context == "" then e else Wrapped(context, e)))
  }

  /** The next action, unless there has been an error. */
  function Then(w: World, r: Progress, a: Action, context: string): Progress {
    if r.err.Some? then r else Try(w, r.log, a, context)
  }

  /** Files end in a newline. */
  function Ended(c: string): string {
    if c == "" || c[|c| - 1] != '\n' then c + "\n" else c
  }

  /** A mode without permission bits becomes 0755. */
  function Mode(mode: nat): nat { if mode % 0x200 == 0 then 0x1ED else mode }

  function WriteFile(w: World, r: Progress, dest: string, text: string, mode: nat): Progress {
    var p := w.join(ROOT, dest);
    Then(w, Then(w, Then(w, r, MkdirAll(w.dirname(p)), ""), OpenFile(p, Mode(mode)), ""), WriteString(p, Ended(text)), "")
  }

  /** A bind first creates its target as the kind of thing its source is. */
  function Bind(w: World, r: Progress, fs: FsType, target: string, source: string): Progress {
    var r1 := Then(w, r, Stat(source), "");
    if r1.err.Some? then r1 else
    var p := w.join(ROOT, target);
    var r2 := if w.outcome(r1.log).dir then Then(w, r1, MkdirAll(p), "") else WriteFile(w, r1, target, "", 0x1ED);
    Then(w, r2, MountAt(source, p, FsType("", fs.flags, fs.opts)), "mount")
  }

  function RunStep(w: World, cfg: Config, log: seq<Action>, s: Step): Progress {
    var r := Progress(log, None);
    match s
    case HostnameStep => Then(w, r, Sethostname(cfg.hostname), "unix.Sethostname")
    case MountStep(fs, src, dest) =>
      var p := w.join(ROOT, dest);
      Then(w, Then(w, r, MkdirAll(p), ""), MountAt(src, p, fs), "mount")
    case BindStep(fs, target, source) => Bind(w, r, fs, target, source)
    case WriteStep(dest, text, mode) => WriteFile(w, r, dest, text, mode)
    case LinkUpStep(l) =>
      Then(w, Then(w, Then(w, r, LinkByName(l), "linkUp"), LinkSetUp(l), "linkUp"), AddrAdd(l, cfg.ip), "linkUp")
    case PivotStep =>
      var r1 := Then(w, Then(w, r, Chdir(ROOT), "chdir"), PivotRoot, "pivot_root");
      Then(w, Then(w, r1, Unmount, "unmount put_old"), Chdir("/"), "chdir /")
  }

  /** A step under the lastError discipline. */
  function Guard(w: World, cfg: Config, r: Progress, s: Step): Progress {
    if r.err.Some? then r else RunStep(w, cfg, r.log, s)
  }

  function GuardFrom(w: World, cfg: Config, r: Progress, steps: seq<Step>): Progress {
    if steps == [] then r
    else Guard(w, cfg, GuardFrom(w, cfg, r, steps[..|steps| - 1]), steps[|steps| - 1])
  }

  lemma GuardSnoc(w: World, cfg: Config, r: Progress, steps: seq<Step>, s: Step)
    ensures GuardFrom(w, cfg, r, steps + [s]) == Guard(w, cfg, GuardFrom(w, cfg, r, steps), s)
  {
    assert (steps + [s])[..|steps|] == steps;
  }

  lemma {:induction false} GuardJoin(w: World, cfg: Config, r: Progress, a: seq<Step>, b: seq<Step>)
    ensures GuardFrom(w, cfg, r, a + b) == GuardFrom(w, cfg, GuardFrom(w, cfg, r, a), b)
    decreases b
  {
    if b == [] {
      assert a + b == a;
    } else {
      var n := |b| - 1;
      assert a + b == (a + b[..n]) + [b[n]];
      GuardJoin(w, cfg, r, a, b[..n]);
      GuardSnoc(w, cfg, r, a + b[..n], b[n]);
    }
  }

  /** The first of some steps comes first. */
  lemma GuardCons(w: World, cfg: Config, r: Progress, steps: seq<Step>)
    requires steps != []
    ensures GuardFrom(w, cfg, r, steps) == GuardFrom(w, cfg, Guard(w, cfg, r, steps[0]), steps[1..])
  {
    assert steps == [steps[0]] + steps[1..];
    GuardJoin(w, cfg, r, [steps[0]], steps[1..]);
    assert [steps[0]][..0] == [];
  }

  lemma GuardSix(w: World, cfg: Config, r: Progress, s: seq<Step>)
    requires |s| == 6
    ensures GuardFrom(w, cfg, r, s)
            == Guard(w, cfg, Guard(w, cfg, Guard(w, cfg, Guard(w, cfg, Guard(w, cfg, Guard(w, cfg, r,
                 s[0]), s[1]), s[2]), s[3]), s[4]), s[5])
  {
    hide Guard;
    GuardFew(w, cfg, r, s[..3]);
    GuardFew(w, cfg, GuardFrom(w, cfg, r, s[..3]), s[3..]);
    GuardJoin(w, cfg, r, s[..3], s[3..]);
    assert s == s[..3] + s[3..];
  }

  lemma GuardFew(w: World, cfg: Config, r: Progress, s: seq<Step>)
    requires |s| == 3
    ensures GuardFrom(w, cfg, r, s) == Guard(w, cfg, Guard(w, cfg, Guard(w, cfg, r, s[0]), s[1]), s[2])
  {
    hide Guard;
    GuardCons(w, cfg, r, s);
    GuardCons(w, cfg, Guard(w, cfg, r, s[0]), s[1..]);
    GuardCons(w, cfg, Guard(w, cfg, Guard(w, cfg, r, s[0]), s[1]), s[2..]);
    assert s[1..][1..] == s[2..] && s[2..][1..] == [];
  }

  lemma GuardEight(w: World, cfg: Config, r: Progress, s: seq<Step>)
    requires |s| == 8
    ensures GuardFrom(w, cfg, r, s)
            == Guard(w, cfg, Guard(w, cfg, Guard(w, cfg, Guard(w, cfg, Guard(w, cfg, Guard(w, cfg, Guard(w, cfg,
                 Guard(w, cfg, r, s[0]), s[1]), s[2]), s[3]), s[4]), s[5]), s[6]), s[7])
  {
    hide Guard;
    GuardSix(w, cfg, r, s[..6]);
    assert s[..7] == s[..6] + [s[6]] && s == s[..7] + [s[7]];
    GuardSnoc(w, cfg, r, s[..6], s[6]);
    GuardSnoc(w, cfg, r, s[..7], s[7]);
  }

  const MOUNTS: seq<Step> :=
    [HostnameStep, MountStep(FS_PROC, "proc", "proc"), MountStep(FS_CGROUP2, "cgroup2", "sys/fs/cgroup"),
     MountStep(FS_DEV, "dev", "dev"), MountStep(FS_DEVPTS, "devpts", "dev/pts"), MountStep(FS_TMPFS, "tmpfs", "tmp")]

  /** Payloads of any other kind are passed over. */
  function StepOf(p: Payload): Option<Step> {
    if p.kind == "bind" then Some(BindStep(FS_BIND_RO, p.target, p.value))
    else if p.kind == "write" then Some(WriteStep(p.target, p.value, p.mode))
    else None
  }

  function PayloadSteps(ps: seq<Payload>): seq<Step> {
    if ps == [] then [] else
      var s := StepOf(ps[|ps| - 1]);
      if s.Some? then PayloadSteps(ps[..|ps| - 1]) + [s.value] else PayloadSteps(ps[..|ps| - 1])
  }

  function FileSteps(cfg: Config): seq<Step> {
    [WriteStep("/etc/passwd", "", 0x1ED), WriteStep("/etc/group", "", 0x1ED),
     WriteStep("/etc/hostname", cfg.hostname, 0x1ED), WriteStep("/etc/machine-id", cfg.machineId, 0x1ED),
     WriteStep("/etc/resolv.conf", "nameserver 127.0.0.1", 0x1ED),
     WriteStep("/etc/os-release", "ID=sandbox\\nNAME=sandbox\\nVERSION=1", 0x1ED),
     LinkUpStep("lo"), PivotStep]
  }

  function Plan(cfg: Config): seq<Step> {
    MOUNTS + PayloadSteps(cfg.payload) + FileSteps(cfg)
  }

  const PROXY := "HTTPS_PROXY=127.0.0.1:8443"

  /** Everything from the tmpfs mount to exec. */
  function Setup(w: World, cfg: Config, log: seq<Action>): Progress {
    var r := Try(w, log, MountAt("tmpfs", ROOT, FsType("tmpfs", "", "")), "mount tmpfs");
    if r.err.Some? then r else
    var r := GuardFrom(w, cfg, r, Plan(cfg));
    if r.err.Some? then r
    else if cfg.command == [] then r.(err := Some(CommandNotSet))
    else Try(w, r.log, Exec(cfg.command, cfg.env + [PROXY]), "unix.Exec")
  }

  // ---------- The program ----------

  class Kernel {
    const world: World
    var log: seq<Action>

    constructor (world: World)
      ensures this.world == world && log == []
    {
      this.world, log := world, [];
    }

    method Do(a: Action) returns (o: Outcome)
      modifies this
      ensures log == old(log) + [a] && o == world.outcome(log)
    {
      log := log + [a];
      o := world.outcome(log);
    }
  }

  class Sandbox {
    const config: Config
    const kernel: Kernel
    var lastError: Option<Error>

    constructor (config: Config, kernel: Kernel)
      ensures this.config == config && this.kernel == kernel && lastError.None?
    {
      this.config, this.kernel, lastError := config, kernel, None;
    }

    ghost function Now(): Progress
      reads this, kernel
    {
      Progress(kernel.log, lastError)
    }

    /** One action; the result is the error its caller makes of the outcome. */
    method Call(a: Action, context: string) returns (err: Option<Error>)
      modifies kernel
      ensures Progress(kernel.log, err) == Try(kernel.world, old(kernel.log), a, context)
    {
      var o := kernel.Do(a);
      if Good(a, o) {
        return None;
      }
      return Some(if context == "" then Raw(a, o) else Wrapped(context, Raw(a, o)));
    }

    method SetHostname()
      modifies this`lastError, kernel
      ensures Now() == Guard(kernel.world, config, old(Now()), HostnameStep)
    {
      if lastError.Some? {
        return;
      }
      var err := Call(Sethostname(config.hostname), "unix.Sethostname");
      if err.Some? {
        lastError := err;
      }
    }

    method LinkUp(l: string)
      modifies this`lastError, kernel
      ensures Now() == Guard(kernel.world, config, old(Now()), LinkUpStep(l))
    {
      if lastError.Some? {
        return;
      }
      var err := Call(LinkByName(l), "linkUp");
      if err.None? {
        err := Call(LinkSetUp(l), "linkUp");
      }
      if err.None? {
        err := Call(AddrAdd(l, config.ip), "linkUp");
      }
      if err.Some? {
        lastError := err;
      }
    }

    method Pivot()
      modifies this`lastError, kernel
      ensures Now() == Guard(kernel.world, config, old(Now()), PivotStep)
    {
      if lastError.Some? {
        return;
      }
      lastError := Call(Chdir(ROOT), "chdir");
      if lastError.None? {
        lastError := Call(PivotRoot, "pivot_root");
      }
      if lastError.None? {
        lastError := Call(Unmount, "unmount put_old");
      }
      if lastError.None? {
        lastError := Call(Chdir("/"), "chdir /");
      }
    }

    method Mount(f: FsType, src: string, dest: string)
      modifies this`lastError, kernel
      ensures Now() == Guard(kernel.world, config, old(Now()), MountStep(f, src, dest))
    {
      if lastError.Some? {
        return;
      }
      var p := kernel.world.join(ROOT, dest);
      lastError := Call(MkdirAll(p), "");
      if lastError.None? {
        lastError := Call(MountAt(src, p, f), "mount");
      }
    }

    method Write(dest: string, text: string, mode: nat) returns (err: Option<Error>)
      modifies this`lastError, kernel
      ensures Now() == Guard(kernel.world, config, old(Now()), WriteStep(dest, text, mode)) && err == lastError
    {
      if lastError.Some? {
        return lastError;
      }
      var p := kernel.world.join(ROOT, dest);
      err := Call(MkdirAll(kernel.world.dirname(p)), "");
      if err.None? {
        err := Call(OpenFile(p, Mode(mode)), "");
      }
      if err.None? {
        err := Call(WriteString(p, Ended(text)), "");
      }
      lastError := err;
    }

    /** A bind of a file goes through Write, which sets lastError too. */
    method BindMount(f: FsType, target: string, source: string)
      modifies this`lastError, kernel
      ensures Now() == Guard(kernel.world, config, old(Now()), BindStep(f, target, source))
    {
      if lastError.Some? {
        return;
      }
      var stat := kernel.Do(Stat(source));
      if !Good(Stat(source), stat) {
        lastError := Some(Raw(Stat(source), stat));
        return;
      }
      var p := kernel.world.join(ROOT, target);
      var err: Option<Error>;
      if stat.dir {
        err := Call(MkdirAll(p), "");
      } else {
        err := Write(target, "", 0x1ED);
      }
      if err.None? {
        err := Call(MountAt(source, p, FsType("", f.flags, f.opts)), "mount");
      }
      lastError := err;
    }

    method Payloads()
      modifies this`lastError, kernel
      ensures Now() == GuardFrom(kernel.world, config, old(Now()), PayloadSteps(config.payload))
    {
      for i := 0 to |config.payload|
        invariant Now() == GuardFrom(kernel.world, config, old(Now()), PayloadSteps(config.payload[..i]))
      {
        var p := config.payload[i];
        assert config.payload[..i + 1][..i] == config.payload[..i];
        if p.kind == "bind" {
          GuardSnoc(kernel.world, config, old(Now()), PayloadSteps(config.payload[..i]), StepOf(p).value);
          BindMount(FS_BIND_RO, p.target, p.value);
        } else if p.kind == "write" {
          GuardSnoc(kernel.world, config, old(Now()), PayloadSteps(config.payload[..i]), StepOf(p).value);
          var err := Write(p.target, p.value, p.mode);
        }
      }
      assert config.payload[..|config.payload|] == config.payload;
    }

    /** The steps before the payloads; each tests lastError itself. */
    method Mounts()
      modifies this`lastError, kernel
      ensures Now() == GuardFrom(kernel.world, config, old(Now()), MOUNTS)
    {
      ghost var w, r := kernel.world, Now();
      SetHostname();
      Mount(FS_PROC, "proc", "proc");
      Mount(FS_CGROUP2, "cgroup2", "sys/fs/cgroup");
      Mount(FS_DEV, "dev", "dev");
      Mount(FS_DEVPTS, "devpts", "dev/pts");
      Mount(FS_TMPFS, "tmpfs", "tmp");
      GuardSix(w, config, r, MOUNTS);
    }

    /** The steps after the payloads. */
    method Files()
      modifies this`lastError, kernel
      ensures Now() == GuardFrom(kernel.world, config, old(Now()), FileSteps(config))
    {
      ghost var w, r := kernel.world, Now();
      var e := Write("/etc/passwd", "", 0x1ED);
      e := Write("/etc/group", "", 0x1ED);
      e := Write("/etc/hostname", config.hostname, 0x1ED);
      e := Write("/etc/machine-id", config.machineId, 0x1ED);
      e := Write("/etc/resolv.conf", "nameserver 127.0.0.1", 0x1ED);
      e := Write("/etc/os-release", "ID=sandbox\\nNAME=sandbox\\nVERSION=1", 0x1ED);
      LinkUp("lo");
      Pivot();
      GuardEight(w, config, r, FileSteps(config));
    }

    /** The part of run after the command loop; it returns only when exec was not reached or failed.
        A success of exec is the end of this program. */
    method SetupAndExec() returns (err: Option<Error>)
      requires lastError.None?
      modifies this`lastError, kernel
      ensures Progress(kernel.log, err) == Setup(kernel.world, config, old(kernel.log))
    {
      ghost var w := kernel.world;
      err := Call(MountAt("tmpfs", ROOT, FsType("tmpfs", "", "")), "mount tmpfs");
      if err.Some? {
        return;
      }
      ghost var r := Now();
      Mounts();
      Payloads();
      GuardJoin(w, config, r, MOUNTS, PayloadSteps(config.payload));
      Files();
      GuardJoin(w, config, r, MOUNTS + PayloadSteps(config.payload), FileSteps(config));
      if lastError.Some? {
        return lastError;
      }
      if config.command == [] {
        return Some(CommandNotSet);
      }
      err := Call(Exec(config.command, config.env + [PROXY]), "unix.Exec");
    }
  }

  // ---------- First error wins ----------

  /** From r0 some actions were done to reach r: none of them an exec, all good except the last one
      of a run that ends in an error, which the error reports. */
  ghost predicate Ran(w: World, r0: Progress, r: Progress) {
    && r0.log <= r.log
    && (r0.err.Some? ==> r == r0)
    && (forall i :: |r0.log| <= i < |r.log| ==> !r.log[i].Exec?)
    && (forall i :: |r0.log| <= i < |r.log| && (i < |r.log| - 1 || r.err.None?) ==> Good(r.log[i], w.outcome(r.log[..i + 1])))
    && (r0.err.None? && r.err.Some? ==> FailedLast(w, r0.log, r))
  }

  /** The last action, done after log0, failed, and the error reports it. */
  ghost predicate FailedLast(w: World, log0: seq<Action>, r: Progress) {
    && r.err.Some? && |log0| < |r.log|
    && var last := r.log[|r.log| - 1];
       !Good(last, w.outcome(r.log)) && Reports(r.err.value, last, w.outcome(r.log))
  }

  lemma RanJoin(w: World, r0: Progress, r1: Progress, r2: Progress)
    requires Ran(w, r0, r1) && Ran(w, r1, r2)
    ensures Ran(w, r0, r2)
  {
    forall i | |r0.log| <= i < |r1.log| && r1.err.None? ensures Good(r2.log[i], w.outcome(r2.log[..i + 1])) {
      assert r2.log[..i + 1] == r1.log[..i + 1];
    }
  }

  lemma ThenRan(w: World, r0: Progress, r: Progress, a: Action, context: string)
    requires Ran(w, r0, r) && !a.Exec? && NamedBy(a, context)
    ensures Ran(w, r0, Then(w, r, a, context))
  {
    var r1 := Then(w, r, a, context);
    if r.err.None? {
      assert r1.log[..|r1.log|] == r1.log;
      assert Ran(w, r, r1);
    }
    RanJoin(w, r0, r, r1);
  }

  lemma WriteRan(w: World, r0: Progress, r: Progress, dest: string, text: string, mode: nat)
    requires Ran(w, r0, r)
    ensures Ran(w, r0, WriteFile(w, r, dest, text, mode))
  {
    hide Ran, Then;
    var p := w.join(ROOT, dest);
    ThenRan(w, r0, r, MkdirAll(w.dirname(p)), "");
    var r1 := Then(w, r, MkdirAll(w.dirname(p)), "");
    ThenRan(w, r0, r1, OpenFile(p, Mode(mode)), "");
    ThenRan(w, r0, Then(w, r1, OpenFile(p, Mode(mode)), ""), WriteString(p, Ended(text)), "");
  }

  lemma BindRan(w: World, r0: Progress, r: Progress, fs: FsType, target: string, source: string)
    requires Ran(w, r0, r)
    ensures Ran(w, r0, Bind(w, r, fs, target, source))
  {
    hide Ran, WriteFile;
    ThenRan(w, r0, r, Stat(source), "");
    var r1, p := Then(w, r, Stat(source), ""), w.join(ROOT, target);
    if r1.err.None? {
      ThenRan(w, r0, r1, MkdirAll(p), "");
      WriteRan(w, r0, r1, target, "", 0x1ED);
      var r2 := if w.outcome(r1.log).dir then Then(w, r1, MkdirAll(p), "") else WriteFile(w, r1, target, "", 0x1ED);
      ThenRan(w, r0, r2, MountAt(source, p, FsType("", fs.flags, fs.opts)), "mount");
    }
  }

  lemma StepRan(w: World, cfg: Config, log: seq<Action>, s: Step)
    ensures Ran(w, Progress(log, None), RunStep(w, cfg, log, s))
  {
    var r := Progress(log, None);
    assert Ran(w, r, r);
    hide Ran, Then, WriteFile, Bind;
    match s
    case HostnameStep => ThenRan(w, r, r, Sethostname(cfg.hostname), "unix.Sethostname");
    case MountStep(fs, src, dest) =>
      var p := w.join(ROOT, dest);
      ThenRan(w, r, r, MkdirAll(p), "");
      ThenRan(w, r, Then(w, r, MkdirAll(p), ""), MountAt(src, p, fs), "mount");
    case BindStep(fs, target, source) => BindRan(w, r, r, fs, target, source);
    case WriteStep(dest, text, mode) => WriteRan(w, r, r, dest, text, mode);
    case LinkUpStep(l) =>
      ThenRan(w, r, r, LinkByName(l), "linkUp");
      var r1 := Then(w, r, LinkByName(l), "linkUp");
      ThenRan(w, r, r1, LinkSetUp(l), "linkUp");
      ThenRan(w, r, Then(w, r1, LinkSetUp(l), "linkUp"), AddrAdd(l, cfg.ip), "linkUp");
    case PivotStep =>
      ThenRan(w, r, r, Chdir(ROOT), "chdir");
      var r1 := Then(w, r, Chdir(ROOT), "chdir");
      ThenRan(w, r, r1, PivotRoot, "pivot_root");
      var r2 := Then(w, r1, PivotRoot, "pivot_root");
      ThenRan(w, r, r2, Unmount, "unmount put_old");
      ThenRan(w, r, Then(w, r2, Unmount, "unmount put_old"), Chdir("/"), "chdir /");
  }

  lemma {:induction false} GuardRan(w: World, cfg: Config, r: Progress, steps: seq<Step>)
    ensures Ran(w, r, GuardFrom(w, cfg, r, steps))
  {
    if steps != [] {
      var n := |steps| - 1;
      GuardRan(w, cfg, r, steps[..n]);
      var mid := GuardFrom(w, cfg, r, steps[..n]);
      if mid.err.None? {
        StepRan(w, cfg, mid.log, steps[n]);
      }
      RanJoin(w, r, mid, Guard(w, cfg, mid, steps[n]));
    }
  }

  /** Once a step has failed the rest do nothing: the outcome is that step's. */
  lemma {:induction false} FirstErrorWins(w: World, cfg: Config, r: Progress, steps: seq<Step>, k: nat)
    requires k < |steps| && GuardFrom(w, cfg, r, steps[..k]).err.None?
    requires RunStep(w, cfg, GuardFrom(w, cfg, r, steps[..k]).log, steps[k]).err.Some?
    ensures GuardFrom(w, cfg, r, steps) == RunStep(w, cfg, GuardFrom(w, cfg, r, steps[..k]).log, steps[k])
  {
    var n := |steps| - 1;
    if k < n {
      assert steps[..n][..k] == steps[..k];
      FirstErrorWins(w, cfg, r, steps[..n], k);
    }
  }

  /** Some step fails exactly when the whole sequence ends in an error. */
  lemma {:induction false} FailsExactly(w: World, cfg: Config, r: Progress, steps: seq<Step>)
    requires r.err.None?
    ensures GuardFrom(w, cfg, r, steps).err.Some? <==>
            exists k: nat :: k < |steps| && FailsAt(w, cfg, r, steps, k)
  {
    if k: nat :| k < |steps| && FailsAt(w, cfg, r, steps, k) {
      FirstErrorWins(w, cfg, r, steps, k);
    } else if GuardFrom(w, cfg, r, steps).err.Some? {
      var n := |steps| - 1;
      if GuardFrom(w, cfg, r, steps[..n]).err.Some? {
        FailsExactly(w, cfg, r, steps[..n]);
        var k: nat :| k < n && FailsAt(w, cfg, r, steps[..n], k);
        assert steps[..n][..k] == steps[..k];
        assert FailsAt(w, cfg, r, steps, k);
      } else {
        assert FailsAt(w, cfg, r, steps, n);
      }
    }
  }

  predicate FailsAt(w: World, cfg: Config, r: Progress, steps: seq<Step>, k: nat)
    requires k < |steps|
  {
    var mid := GuardFrom(w, cfg, r, steps[..k]);
    mid.err.None? && RunStep(w, cfg, mid.log, steps[k]).err.Some?
  }

  /** The call succeeded, and a write wrote all of its text. */
  predicate Completed(a: Action, o: Outcome) {
    match o
    case Fails(_) => false
    case Succeeds(_, n) => a.WriteString? ==> n == |a.text|
  }

  /** For every payload list and environment.  Every action but the last was completed.  If the last was
      not, run returned an error that reports it; if it was, run returned nothing after an exec, or
      reported a missing command.  An exec, if any, comes last, after nothing but completed actions, and
      is there exactly when the setup succeeded and there is a command. */
  lemma SetupStopsAtFirstFailure(w: World, cfg: Config)
    ensures var r := Setup(w, cfg, []);
            && r.log != []
            && var n := |r.log| - 1; var bad := !Completed(r.log[n], w.outcome(r.log));
            && (forall i :: 0 <= i < n ==> !r.log[i].Exec? && Completed(r.log[i], w.outcome(r.log[..i + 1])))
            && (bad ==> r.err.Some? && Reports(r.err.value, r.log[n], w.outcome(r.log)))
            && (!bad && r.log[n].Exec? ==> r.err.None?)
            && (!bad && !r.log[n].Exec? ==> r.err == Some(CommandNotSet))
            && (r.err == Some(CommandNotSet) ==> cfg.command == [])
            && (r.log[n].Exec? ==> r.log[n] == Exec(cfg.command, cfg.env + ["HTTPS_PROXY=127.0.0.1:8443"]) && cfg.command != [])
  {
    var mnt := MountAt("tmpfs", ROOT, FsType("tmpfs", "", ""));
    var r0 := Progress([], None);
    var r1 := Try(w, [], mnt, "mount tmpfs");
    ThenRan(w, r0, r0, mnt, "mount tmpfs");
    if r1.err.None? {
      var r2 := GuardFrom(w, cfg, r1, Plan(cfg));
      GuardRan(w, cfg, r1, Plan(cfg));
      RanJoin(w, r0, r1, r2);
      assert r2.log[..|r2.log|] == r2.log;
      if r2.err.None? && cfg.command != [] {
        var r3 := Setup(w, cfg, []);
        forall i | 0 <= i < |r2.log| ensures !r3.log[i].Exec? && Good(r3.log[i], w.outcome(r3.log[..i + 1])) {
          assert r3.log[..i + 1] == r2.log[..i + 1];
        }
      }
    }
  }

  // ---------- The order of the system calls ----------

  /** a makes sense right after prev: files are written in a directory just made and opened, mounts
      go on a directory or file just made, the root is changed from inside it, exec comes last. */
  predicate Follows(w: World, prev: Option<Action>, a: Action) {
    match a
    case OpenFile(p, _) => prev == Some(MkdirAll(w.dirname(p)))
    case WriteString(p, _) => prev.Some? && prev.value.OpenFile? && prev.value.path == p
    case MountAt(_, p, _) =>
      || (prev.None? && p == ROOT)
      || prev == Some(MkdirAll(p))
      || (prev.Some? && prev.value.WriteString? && prev.value.path == p)
    case LinkSetUp(l) => prev == Some(LinkByName(l))
    case AddrAdd(l, _) => prev == Some(LinkSetUp(l))
    case PivotRoot => prev == Some(Chdir(ROOT))
    case Unmount => prev == Some(PivotRoot)
    case Chdir(p) => p == ROOT || prev == Some(Unmount)
    case Exec(_, _) => prev == Some(Chdir("/"))
    case _ => true
  }

  function Last(log: seq<Action>): Option<Action> {
    if log == [] then None else Some(log[|log| - 1])
  }

  ghost predicate InOrder(w: World, log: seq<Action>) {
    forall i :: 0 <= i < |log| ==> Follows(w, Last(log[..i]), log[i])
  }

  lemma ThenInOrder(w: World, r: Progress, a: Action, context: string)
    requires InOrder(w, r.log) && (r.err.None? ==> Follows(w, Last(r.log), a))
    ensures InOrder(w, Then(w, r, a, context).log)
    ensures var r1 := Then(w, r, a, context); r1.err.None? ==> r.err.None? && Last(r1.log) == Some(a)
  {
    var log := r.log + [a];
    forall i | 0 <= i < |log| && r.err.None? ensures Follows(w, Last(log[..i]), log[i]) {
      if i < |r.log| {
        assert log[..i] == r.log[..i];
      } else {
        assert log[..i] == r.log;
      }
    }
  }

  lemma WriteInOrder(w: World, r: Progress, dest: string, text: string, mode: nat)
    requires InOrder(w, r.log)
    ensures var r1 := WriteFile(w, r, dest, text, mode);
            InOrder(w, r1.log) && (r1.err.None? ==> Last(r1.log) == Some(WriteString(w.join(ROOT, dest), Ended(text))))
  {
    var p := w.join(ROOT, dest);
    hide Then, InOrder, Last;
    ThenInOrder(w, r, MkdirAll(w.dirname(p)), "");
    var r1 := Then(w, r, MkdirAll(w.dirname(p)), "");
    ThenInOrder(w, r1, OpenFile(p, Mode(mode)), "");
    ThenInOrder(w, Then(w, r1, OpenFile(p, Mode(mode)), ""), WriteString(p, Ended(text)), "");
  }

  lemma BindInOrder(w: World, r: Progress, fs: FsType, target: string, source: string)
    requires InOrder(w, r.log)
    ensures InOrder(w, Bind(w, r, fs, target, source).log)
  {
    hide InOrder, Last, WriteFile;
    ThenInOrder(w, r, Stat(source), "");
    var r1, p := Then(w, r, Stat(source), ""), w.join(ROOT, target);
    if r1.err.None? {
      ThenInOrder(w, r1, MkdirAll(p), "");
      WriteInOrder(w, r1, target, "", 0x1ED);
      var r2 := if w.outcome(r1.log).dir then Then(w, r1, MkdirAll(p), "") else WriteFile(w, r1, target, "", 0x1ED);
      ThenInOrder(w, r2, MountAt(source, p, FsType("", fs.flags, fs.opts)), "mount");
    }
  }

  lemma PivotInOrder(w: World, cfg: Config, log: seq<Action>)
    requires InOrder(w, log)
    ensures var r := RunStep(w, cfg, log, PivotStep); InOrder(w, r.log) && (r.err.None? ==> Last(r.log) == Some(Chdir("/")))
  {
    hide InOrder, Then, Last;
    var r := Progress(log, None);
    ThenInOrder(w, r, Chdir(ROOT), "chdir");
    var r1 := Then(w, r, Chdir(ROOT), "chdir");
    ThenInOrder(w, r1, PivotRoot, "pivot_root");
    var r2 := Then(w, r1, PivotRoot, "pivot_root");
    ThenInOrder(w, r2, Unmount, "unmount put_old");
    ThenInOrder(w, Then(w, r2, Unmount, "unmount put_old"), Chdir("/"), "chdir /");
  }

  lemma StepInOrder(w: World, cfg: Config, log: seq<Action>, s: Step)
    requires InOrder(w, log)
    ensures InOrder(w, RunStep(w, cfg, log, s).log)
  {
    hide InOrder, Then, Last, WriteFile, Bind;
    var r := Progress(log, None);
    match s
    case HostnameStep => ThenInOrder(w, r, Sethostname(cfg.hostname), "unix.Sethostname");
    case MountStep(fs, src, dest) =>
      var p := w.join(ROOT, dest);
      ThenInOrder(w, r, MkdirAll(p), "");
      ThenInOrder(w, Then(w, r, MkdirAll(p), ""), MountAt(src, p, fs), "mount");
    case BindStep(fs, target, source) => BindInOrder(w, r, fs, target, source);
    case WriteStep(dest, text, mode) => WriteInOrder(w, r, dest, text, mode);
    case LinkUpStep(l) =>
      ThenInOrder(w, r, LinkByName(l), "linkUp");
      var r1 := Then(w, r, LinkByName(l), "linkUp");
      ThenInOrder(w, r1, LinkSetUp(l), "linkUp");
      ThenInOrder(w, Then(w, r1, LinkSetUp(l), "linkUp"), AddrAdd(l, cfg.ip), "linkUp");
    case PivotStep => PivotInOrder(w, cfg, log);
  }

  lemma {:induction false} GuardInOrder(w: World, cfg: Config, r: Progress, steps: seq<Step>)
    requires InOrder(w, r.log)
    ensures var r1 := GuardFrom(w, cfg, r, steps);
            && InOrder(w, r1.log)
            && (steps != [] && steps[|steps| - 1] == PivotStep && r1.err.None? ==> Last(r1.log) == Some(Chdir("/")))
  {
    if steps != [] {
      var n := |steps| - 1;
      GuardInOrder(w, cfg, r, steps[..n]);
      var mid := GuardFrom(w, cfg, r, steps[..n]);
      if mid.err.None? {
        StepInOrder(w, cfg, mid.log, steps[n]);
        PivotInOrder(w, cfg, mid.log);
      }
    }
  }

  /** For every payload list and environment the system calls come in an order that makes sense:
      the tmpfs is mounted on the root first, and exec follows the root change. */
  lemma SetupInOrder(w: World, cfg: Config)
    ensures InOrder(w, Setup(w, cfg, []).log)
  {
    var mnt := MountAt("tmpfs", ROOT, FsType("tmpfs", "", ""));
    var r0 := Progress([], None);
    assert InOrder(w, []);
    ThenInOrder(w, r0, mnt, "mount tmpfs");
    hide InOrder, Last;
    var r1 := Try(w, [], mnt, "mount tmpfs");
    if r1.err.None? {
      GuardInOrder(w, cfg, r1, Plan(cfg));
      ThenInOrder(w, GuardFrom(w, cfg, r1, Plan(cfg)), Exec(cfg.command, cfg.env + [PROXY]), "unix.Exec");
    }
  }

  // ---------- Everything a setup does ----------

  function Joined(blocks: seq<seq<Action>>): seq<Action> {
    if blocks == [] then [] else Joined(blocks[..|blocks| - 1]) + blocks[|blocks| - 1]
  }

  lemma JoinedSnoc(blocks: seq<seq<Action>>, b: seq<Action>)
    ensures Joined(blocks + [b]) == Joined(blocks) + b
  {
    assert (blocks + [b])[..|blocks|] == blocks;
  }

  /** t is the text, ended by a newline. */
  predicate IsLine(text: string, t: string) {
    && t != "" && t[|t| - 1] == '\n'
    && (t == text || (t == text + "\n" && !(text != "" && text[|text| - 1] == '\n')))
  }

  /** The actions that write a file: its directory, the file with its mode (0755 in place of one
      without permission bits), the text. */
  predicate FileActs(w: World, dest: string, text: string, mode: nat, b: seq<Action>) {
    var p := w.join("/tmp", dest);
    && |b| == 3 && b[0] == MkdirAll(w.dirname(p))
    && b[1] == OpenFile(p, if mode % 512 == 0 then 493 else mode)
    && b[2].WriteString? && b[2].path == p && IsLine(text, b[2].text)
  }

  /** The actions of one payload, `before` being all that was done before them. */
  predicate PayloadActs(w: World, before: seq<Action>, x: Payload, b: seq<Action>) {
    if x.kind == "write" then FileActs(w, x.target, x.value, x.mode, b)
    else if x.kind == "bind" then
      var p := w.join("/tmp", x.target);
      var last := MountAt(x.value, p, FsType("", "nosuid,bind,rdonly,relatime", ""));
      && b != [] && b[0] == Stat(x.value) && b[|b| - 1] == last
      && w.outcome(before + [b[0]]).Succeeds?
      && if w.outcome(before + [b[0]]).dir then b == [b[0], MkdirAll(p), last]
         else |b| == 5 && FileActs(w, x.target, "", 493, b[1..4])
    else b == []
  }

  /** The fixed beginning: the root, the hostname and the five mounts. */
  function Opening(w: World, hostname: string): seq<Action> {
    [MountAt("tmpfs", "/tmp", FsType("tmpfs", "", "")), Sethostname(hostname)]
    + [MkdirAll(w.join("/tmp", "proc")),
       MountAt("proc", w.join("/tmp", "proc"), FsType("proc", "nodev,noexec,nosuid,relatime", ""))]
    + [MkdirAll(w.join("/tmp", "sys/fs/cgroup")),
       MountAt("cgroup2", w.join("/tmp", "sys/fs/cgroup"),
               FsType("cgroup2", "nodev,noexec,nosuid,relatime", "memory_recursiveprot"))]
    + [MkdirAll(w.join("/tmp", "dev")), MountAt("dev", w.join("/tmp", "dev"), FsType("tmpfs", "noexec,nosuid,relatime", ""))]
    + [MkdirAll(w.join("/tmp", "dev/pts")),
       MountAt("devpts", w.join("/tmp", "dev/pts"), FsType("devpts", "noexec,nosuid,relatime", ""))]
    + [MkdirAll(w.join("/tmp", "tmp")),
       MountAt("tmpfs", w.join("/tmp", "tmp"), FsType("tmpfs", "nodev,noexec,nosuid,relatime", ""))]
  }

  /** The fixed end: the loopback interface, the root change, and exec if there is a command. */
  function Closing(ip: string, command: seq<string>, env: seq<string>): seq<Action> {
    [LinkByName("lo"), LinkSetUp("lo"), AddrAdd("lo", ip)] + [Chdir("/tmp"), PivotRoot, Unmount, Chdir("/")]
    + if command == [] then [] else [Exec(command, env + ["HTTPS_PROXY=127.0.0.1:8443"])]
  }

  predicate FixedFiles(w: World, cfg: Config, files: seq<seq<Action>>)
    requires |files| == 6
  {
    && FileActs(w, "/etc/passwd", "", 493, files[0]) && FileActs(w, "/etc/group", "", 493, files[1])
    && FileActs(w, "/etc/hostname", cfg.hostname, 493, files[2])
    && FileActs(w, "/etc/machine-id", cfg.machineId, 493, files[3])
    && FileActs(w, "/etc/resolv.conf", "nameserver 127.0.0.1", 493, files[4])
    && FileActs(w, "/etc/os-release", "ID=sandbox\\nNAME=sandbox\\nVERSION=1", 493, files[5])
  }

  /** A setup that got to its end: exec was reached, or there is no command to execute. */
  predicate ReachesEnd(r: Progress) {
    r.err == Some(CommandNotSet) || (r.log != [] && r.log[|r.log| - 1].Exec?)
  }

  // Each step, when it succeeds.

  lemma HostnameLog(w: World, cfg: Config, log: seq<Action>)
    requires RunStep(w, cfg, log, HostnameStep).err.None?
    ensures RunStep(w, cfg, log, HostnameStep).log == log + [Sethostname(cfg.hostname)]
  {}

  lemma MountLog(w: World, cfg: Config, log: seq<Action>, fs: FsType, src: string, dest: string)
    requires RunStep(w, cfg, log, MountStep(fs, src, dest)).err.None?
    ensures var p := w.join("/tmp", dest);
            RunStep(w, cfg, log, MountStep(fs, src, dest)).log == log + [MkdirAll(p), MountAt(src, p, fs)]
  {}

  lemma WriteLog(w: World, r: Progress, dest: string, text: string, mode: nat) returns (b: seq<Action>)
    requires WriteFile(w, r, dest, text, mode).err.None?
    ensures r.err.None? && WriteFile(w, r, dest, text, mode).log == r.log + b && FileActs(w, dest, text, mode, b)
  {
    var p := w.join("/tmp", dest);
    b := [MkdirAll(w.dirname(p)), OpenFile(p, Mode(mode)), WriteString(p, Ended(text))];
  }

  lemma FileLog(w: World, cfg: Config, log: seq<Action>, dest: string, text: string, mode: nat) returns (b: seq<Action>)
    requires RunStep(w, cfg, log, WriteStep(dest, text, mode)).err.None?
    ensures RunStep(w, cfg, log, WriteStep(dest, text, mode)).log == log + b && FileActs(w, dest, text, mode, b)
  {
    b := WriteLog(w, Progress(log, None), dest, text, mode);
  }

  lemma BindLog(w: World, cfg: Config, log: seq<Action>, x: Payload) returns (b: seq<Action>)
    requires x.kind == "bind" && RunStep(w, cfg, log, BindStep(FS_BIND_RO, x.target, x.value)).err.None?
    ensures RunStep(w, cfg, log, BindStep(FS_BIND_RO, x.target, x.value)).log == log + b && PayloadActs(w, log, x, b)
  {
    var r1, p := Then(w, Progress(log, None), Stat(x.value), ""), w.join(ROOT, x.target);
    var last := MountAt(x.value, p, FsType("", "nosuid,bind,rdonly,relatime", ""));
    if w.outcome(r1.log).dir {
      b := [Stat(x.value), MkdirAll(p), last];
    } else {
      var r2 := WriteFile(w, r1, x.target, "", 0x1ED);
      var mid := WriteLog(w, r1, x.target, "", 0x1ED);
      hide WriteFile, FileActs;
      b := [Stat(x.value)] + mid + [last];
      assert b[1..4] == mid;
    }
  }

  lemma LinkLog(w: World, cfg: Config, log: seq<Action>)
    requires RunStep(w, cfg, log, LinkUpStep("lo")).err.None?
    ensures RunStep(w, cfg, log, LinkUpStep("lo")).log == log + [LinkByName("lo"), LinkSetUp("lo"), AddrAdd("lo", cfg.ip)]
  {}

  lemma PivotLog(w: World, cfg: Config, log: seq<Action>)
    requires RunStep(w, cfg, log, PivotStep).err.None?
    ensures RunStep(w, cfg, log, PivotStep).log == log + [Chdir("/tmp"), PivotRoot, Unmount, Chdir("/")]
  {}

  function AfterPayload(w: World, cfg: Config, r: Progress, x: Payload): Progress {
    if StepOf(x).Some? then Guard(w, cfg, r, StepOf(x).value) else r
  }

  lemma PayloadsNext(w: World, cfg: Config, r: Progress, ps: seq<Payload>)
    requires ps != []
    ensures var n := |ps| - 1;
            GuardFrom(w, cfg, r, PayloadSteps(ps)) == AfterPayload(w, cfg, GuardFrom(w, cfg, r, PayloadSteps(ps[..n])), ps[n])
  {
    var n := |ps| - 1;
    if StepOf(ps[n]).Some? {
      GuardSnoc(w, cfg, r, PayloadSteps(ps[..n]), StepOf(ps[n]).value);
    }
  }

  lemma PayloadLog(w: World, cfg: Config, r: Progress, x: Payload) returns (b: seq<Action>)
    requires AfterPayload(w, cfg, r, x).err.None?
    ensures r.err.None? && AfterPayload(w, cfg, r, x).log == r.log + b && PayloadActs(w, r.log, x, b)
  {
    hide RunStep, FileActs;
    if x.kind == "bind" {
      b := BindLog(w, cfg, r.log, x);
    } else if x.kind == "write" {
      b := FileLog(w, cfg, r.log, x.target, x.value, x.mode);
    } else {
      b := [];
    }
  }

  /** The payloads, each in its turn. */
  lemma {:induction false} PayloadsLog(w: World, cfg: Config, r: Progress, ps: seq<Payload>) returns (blocks: seq<seq<Action>>)
    requires GuardFrom(w, cfg, r, PayloadSteps(ps)).err.None?
    ensures r.err.None?
    ensures |blocks| == |ps| && GuardFrom(w, cfg, r, PayloadSteps(ps)).log == r.log + Joined(blocks)
    ensures forall i :: 0 <= i < |ps| ==> PayloadActs(w, r.log + Joined(blocks[..i]), ps[i], blocks[i])
  {
    hide AfterPayload, PayloadActs;
    blocks := [];
    if ps != [] {
      var n := |ps| - 1;
      PayloadsNext(w, cfg, r, ps);
      hide GuardFrom, PayloadSteps, Joined;
      var mid := GuardFrom(w, cfg, r, PayloadSteps(ps[..n]));
      var b := PayloadLog(w, cfg, mid, ps[n]);
      var rest := PayloadsLog(w, cfg, r, ps[..n]);
      blocks := rest + [b];
      JoinedSnoc(rest, b);
      Regroup(r.log, Joined(rest), b);
      forall i | 0 <= i < |ps| ensures PayloadActs(w, r.log + Joined(blocks[..i]), ps[i], blocks[i]) {
        assert blocks[..i] == rest[..i] && (i < n ==> blocks[i] == rest[i] && ps[i] == ps[..n][i]);
        assert rest[..n] == rest;
      }
    }
  }

  // The whole setup.

  /** The fixed steps before the payloads. */
  lemma MountsLog(w: World, cfg: Config, r: Progress)
    requires r.log == [MountAt("tmpfs", "/tmp", FsType("tmpfs", "", ""))] && GuardFrom(w, cfg, r, MOUNTS).err.None?
    ensures r.err.None? && GuardFrom(w, cfg, r, MOUNTS).log == Opening(w, cfg.hostname)
  {
    hide RunStep, GuardFrom;
    GuardSix(w, cfg, r, MOUNTS);
    var m := MOUNTS;
    var r1 := Guard(w, cfg, r, m[0]);
    var r2 := Guard(w, cfg, r1, m[1]);
    var r3 := Guard(w, cfg, r2, m[2]);
    var r4 := Guard(w, cfg, r3, m[3]);
    var r5 := Guard(w, cfg, r4, m[4]);
    HostnameLog(w, cfg, r.log);
    MountLog(w, cfg, r1.log, FS_PROC, "proc", "proc");
    MountLog(w, cfg, r2.log, FS_CGROUP2, "cgroup2", "sys/fs/cgroup");
    MountLog(w, cfg, r3.log, FS_DEV, "dev", "dev");
    MountLog(w, cfg, r4.log, FS_DEVPTS, "devpts", "dev/pts");
    MountLog(w, cfg, r5.log, FS_TMPFS, "tmpfs", "tmp");
  }

  /** A guarded step that ends without an error began without one. */
  lemma GuardRuns(w: World, cfg: Config, r: Progress, s: Step)
    requires Guard(w, cfg, r, s).err.None?
    ensures r.err.None? && RunStep(w, cfg, r.log, s).err.None? && Guard(w, cfg, r, s) == RunStep(w, cfg, r.log, s)
  {}

  /** One fixed file. */
  lemma FileNext(w: World, cfg: Config, r: Progress, dest: string, text: string) returns (b: seq<Action>)
    requires Guard(w, cfg, r, WriteStep(dest, text, 0x1ED)).err.None?
    ensures r.err.None? && Guard(w, cfg, r, WriteStep(dest, text, 0x1ED)).log == r.log + b && FileActs(w, dest, text, 493, b)
  {
    GuardRuns(w, cfg, r, WriteStep(dest, text, 0x1ED));
    b := FileLog(w, cfg, r.log, dest, text, 0x1ED);
  }

  /** The fixed steps after the payloads. */
  lemma FilesLog(w: World, cfg: Config, r: Progress) returns (files: seq<seq<Action>>)
    requires GuardFrom(w, cfg, r, FileSteps(cfg)).err.None?
    ensures r.err.None? && |files| == 6 && FixedFiles(w, cfg, files)
    ensures GuardFrom(w, cfg, r, FileSteps(cfg)).log
            == r.log + (files[0] + files[1] + files[2] + files[3] + files[4] + files[5])
               + [LinkByName("lo"), LinkSetUp("lo"), AddrAdd("lo", cfg.ip)] + [Chdir("/tmp"), PivotRoot, Unmount, Chdir("/")]
  {
    hide RunStep, GuardFrom, Guard, FileActs;
    var f := FileSteps(cfg);
    GuardEight(w, cfg, r, f);
    var r1 := Guard(w, cfg, r, f[0]);
    var r2 := Guard(w, cfg, r1, f[1]);
    var r3 := Guard(w, cfg, r2, f[2]);
    var r4 := Guard(w, cfg, r3, f[3]);
    var r5 := Guard(w, cfg, r4, f[4]);
    var r6 := Guard(w, cfg, r5, f[5]);
    var r7 := Guard(w, cfg, r6, f[6]);
    GuardRuns(w, cfg, r7, f[7]);
    PivotLog(w, cfg, r7.log);
    GuardRuns(w, cfg, r6, f[6]);
    LinkLog(w, cfg, r6.log);
    var b5 := FileNext(w, cfg, r5, "/etc/os-release", "ID=sandbox\\nNAME=sandbox\\nVERSION=1");
    var b4 := FileNext(w, cfg, r4, "/etc/resolv.conf", "nameserver 127.0.0.1");
    var b3 := FileNext(w, cfg, r3, "/etc/machine-id", cfg.machineId);
    var b2 := FileNext(w, cfg, r2, "/etc/hostname", cfg.hostname);
    var b1 := FileNext(w, cfg, r1, "/etc/group", "");
    var b0 := FileNext(w, cfg, r, "/etc/passwd", "");
    files := [b0, b1, b2, b3, b4, b5];
    assert r.log + b0 + b1 + b2 + b3 + b4 + b5 == r.log + (b0 + b1 + b2 + b3 + b4 + b5);
  }

  /** For every payload list and environment: a setup that gets to its end has done exactly this, in
      this order, and nothing else. */
  lemma SetupDoes(w: World, cfg: Config) returns (blocks: seq<seq<Action>>, files: seq<seq<Action>>)
    requires ReachesEnd(Setup(w, cfg, []))
    ensures |blocks| == |cfg.payload| && |files| == 6 && FixedFiles(w, cfg, files)
    ensures forall i :: 0 <= i < |cfg.payload| ==>
              PayloadActs(w, Opening(w, cfg.hostname) + Joined(blocks[..i]), cfg.payload[i], blocks[i])
    ensures Setup(w, cfg, []).log
            == Opening(w, cfg.hostname) + Joined(blocks)
               + (files[0] + files[1] + files[2] + files[3] + files[4] + files[5])
               + Closing(cfg.ip, cfg.command, cfg.env)
  {
    hide Setup, Try, GuardFrom, PayloadSteps, FileSteps, Joined, FixedFiles, PayloadActs, Opening, FileActs, ReachesEnd;
    var r := Try(w, [], MountAt("tmpfs", ROOT, FsType("tmpfs", "", "")), "mount tmpfs");
    EndMeansNoError(w, cfg);
    GuardJoin(w, cfg, r, MOUNTS + PayloadSteps(cfg.payload), FileSteps(cfg));
    GuardJoin(w, cfg, r, MOUNTS, PayloadSteps(cfg.payload));
    var r1 := GuardFrom(w, cfg, r, MOUNTS);
    var r2 := GuardFrom(w, cfg, r1, PayloadSteps(cfg.payload));
    files := FilesLog(w, cfg, r2);
    blocks := PayloadsLog(w, cfg, r1, cfg.payload);
    MountsLog(w, cfg, r);
    FourParts(r2.log + (files[0] + files[1] + files[2] + files[3] + files[4] + files[5]),
              [LinkByName("lo"), LinkSetUp("lo"), AddrAdd("lo", cfg.ip)], [Chdir("/tmp"), PivotRoot, Unmount, Chdir("/")],
              if cfg.command == [] then [] else [Exec(cfg.command, cfg.env + ["HTTPS_PROXY=127.0.0.1:8443"])]);
  }

  lemma FourParts(a: seq<Action>, b: seq<Action>, c: seq<Action>, d: seq<Action>)
    ensures a + b + c + d == a + (b + c + d)
  {}

  /** A setup gets to its end only if no step failed. */
  lemma EndMeansNoError(w: World, cfg: Config)
    requires ReachesEnd(Setup(w, cfg, []))
    ensures var r := Try(w, [], MountAt("tmpfs", ROOT, FsType("tmpfs", "", "")), "mount tmpfs");
            && r.log == [MountAt("tmpfs", "/tmp", FsType("tmpfs", "", ""))] && r.err.None?
            && GuardFrom(w, cfg, r, Plan(cfg)).err.None?
            && Setup(w, cfg, []).log
               == GuardFrom(w, cfg, r, Plan(cfg)).log
                  + if cfg.command == [] then [] else [Exec(cfg.command, cfg.env + ["HTTPS_PROXY=127.0.0.1:8443"])]
  {
    SetupStopsAtFirstFailure(w, cfg);
    var r := Try(w, [], MountAt("tmpfs", ROOT, FsType("tmpfs", "", "")), "mount tmpfs");
    GuardRan(w, cfg, r, Plan(cfg));
    hide GuardFrom, Plan;
  }
}
