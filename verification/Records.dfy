/** The runtime's records as the heap objects they are: messages, every field of which may be
    assigned and which share their label maps and image specs by reference, and handles that pair a
    message with its status, either of which may be nil. */
module Records {
  import opened Base
  import opened CriModel

  // ---------- The values of handles ----------

  datatype PodCell = PodCell(p: Option<PodVal>, s: Option<PodStatusVal>) {
    predicate Whole() { p.Some? && s.Some? }

    function Rec(): SandboxRec
      requires Whole()
    {
      SandboxRec(p.value, s.value)
    }
  }

  datatype CtrCell = CtrCell(p: Option<ContainerVal>, s: Option<ContainerStatusVal>) {
    predicate Whole() { p.Some? && s.Some? }

    function Rec(): ContainerRec
      requires Whole()
    {
      ContainerRec(p.value, s.value)
    }
  }

  function PodCellOf(x: SandboxRec): PodCell { PodCell(Some(x.p), Some(x.s)) }

  function CtrCellOf(y: ContainerRec): CtrCell { CtrCell(Some(y.p), Some(y.s)) }

  /** An id or a state asks for the part that has it, a label selector passes a missing part; None
      is the nil filter. */
  predicate MatchPodCell(c: PodCell, f: Option<PodFilter>) {
    f.Some? ==>
      && (f.value.id != "" ==> c.p.Some? && c.p.value.id == f.value.id)
      && (f.value.state.Some? ==> c.s.Some? && c.s.value.state == f.value.state.value)
      && (f.value.selector.Some? && c.p.Some? ==> Selects(f.value.selector.value, c.p.value.labels))
  }

  predicate MatchCtrCell(c: CtrCell, f: Option<ContainerFilter>) {
    f.Some? ==>
      && (f.value.id != "" ==> c.p.Some? && c.p.value.id == f.value.id)
      && (f.value.sandboxId != "" ==> c.p.Some? && c.p.value.sandboxId == f.value.sandboxId)
      && (f.value.state.Some? ==> c.s.Some? && c.s.value.state == f.value.state.value)
      && (f.value.selector.Some? && c.p.Some? ==> Selects(f.value.selector.value, c.p.value.labels))
  }

  // ---------- Messages ----------

  /** A label map, passed around by reference. */
  class LabelMap {
    var m: Labels

    constructor (m: Labels)
      ensures this.m == m
    {
      this.m := m;
    }
  }

  class ImageSpec {
    var image: string

    constructor (image: string)
      ensures this.image == image
    {
      this.image := image;
    }
  }

  class PodSandbox {
    var id: string
    var meta: PodMeta
    var labels: LabelMap
    var handler: string
    var createdAt: int
    var state: PodState

    ghost function Parts(): set<object> reads this { {this, labels} }

    ghost function Val(): PodVal reads this, labels {
      PodVal(id, meta, labels.m, handler, createdAt, state)
    }

    constructor (id: string, meta: PodMeta, labels: LabelMap, handler: string, createdAt: int, state: PodState)
      ensures Val() == PodVal(id, meta, labels.m, handler, createdAt, state) && this.labels == labels
    {
      this.id, this.meta, this.labels, this.handler := id, meta, labels, handler;
      this.createdAt, this.state := createdAt, state;
    }

    /** proto.Clone: a deep copy. */
    method Clone() returns (c: PodSandbox)
      ensures fresh(c.Parts()) && c.Val() == Val()
    {
      var copy := new LabelMap(labels.m);
      c := new PodSandbox(id, meta, copy, handler, createdAt, state);
    }
  }

  class PodSandboxStatus {
    var id: string
    var meta: PodMeta
    var labels: LabelMap
    var handler: string
    var createdAt: int
    var state: PodState
    var ip: string

    ghost function Parts(): set<object> reads this { {this, labels} }

    ghost function Val(): PodStatusVal reads this, labels {
      PodStatusVal(id, meta, labels.m, handler, createdAt, state, ip)
    }

    constructor (id: string, meta: PodMeta, labels: LabelMap, handler: string, createdAt: int, state: PodState, ip: string)
      ensures Val() == PodStatusVal(id, meta, labels.m, handler, createdAt, state, ip) && this.labels == labels
    {
      this.id, this.meta, this.labels, this.handler := id, meta, labels, handler;
      this.createdAt, this.state, this.ip := createdAt, state, ip;
    }

    method Clone() returns (c: PodSandboxStatus)
      ensures fresh(c.Parts()) && c.Val() == Val()
    {
      var copy := new LabelMap(labels.m);
      c := new PodSandboxStatus(id, meta, copy, handler, createdAt, state, ip);
    }
  }

  class CriContainer {
    var id: string
    var sandboxId: string
    var name: string
    var image: ImageSpec
    var imageRef: string
    var labels: LabelMap
    var createdAt: int
    var state: ContainerState

    ghost function Parts(): set<object> reads this { {this, labels, image} }

    ghost function Val(): ContainerVal reads this, labels, image {
      ContainerVal(id, sandboxId, name, image.image, imageRef, labels.m, createdAt, state)
    }

    constructor (id: string, sandboxId: string, name: string, image: ImageSpec, imageRef: string, labels: LabelMap,
                 createdAt: int, state: ContainerState)
      ensures Val() == ContainerVal(id, sandboxId, name, image.image, imageRef, labels.m, createdAt, state)
      ensures this.labels == labels && this.image == image
    {
      this.id, this.sandboxId, this.name, this.image := id, sandboxId, name, image;
      this.imageRef, this.labels, this.createdAt, this.state := imageRef, labels, createdAt, state;
    }

    method Clone() returns (c: CriContainer)
      ensures fresh(c.Parts()) && c.Val() == Val()
    {
      var copy := new LabelMap(labels.m);
      var spec := new ImageSpec(image.image);
      c := new CriContainer(id, sandboxId, name, spec, imageRef, copy, createdAt, state);
    }
  }

  class CriContainerStatus {
    var id: string
    var name: string
    var image: ImageSpec
    var imageRef: string
    var labels: LabelMap
    var createdAt: int
    var startedAt: int
    var finishedAt: int
    var state: ContainerState
    var logPath: string

    ghost function Parts(): set<object> reads this { {this, labels, image} }

    ghost function Val(): ContainerStatusVal reads this, labels, image {
      ContainerStatusVal(id, name, image.image, imageRef, labels.m, createdAt, startedAt, finishedAt, state, logPath)
    }

    constructor (id: string, name: string, image: ImageSpec, imageRef: string, labels: LabelMap, createdAt: int,
                 startedAt: int, finishedAt: int, state: ContainerState, logPath: string)
      ensures Val() == ContainerStatusVal(id, name, image.image, imageRef, labels.m, createdAt, startedAt, finishedAt, state, logPath)
      ensures this.labels == labels && this.image == image
    {
      this.id, this.name, this.image, this.imageRef, this.labels := id, name, image, imageRef, labels;
      this.createdAt, this.startedAt, this.finishedAt, this.state := createdAt, startedAt, finishedAt, state;
      this.logPath := logPath;
    }

    method Clone() returns (c: CriContainerStatus)
      ensures fresh(c.Parts()) && c.Val() == Val()
    {
      var copy := new LabelMap(labels.m);
      var spec := new ImageSpec(image.image);
      c := new CriContainerStatus(id, name, spec, imageRef, copy, createdAt, startedAt, finishedAt, state, logPath);
    }
  }

  // ---------- Handles ----------

  /** The handle of a sandbox; what its parts are is fixed when it is made. */
  class Sandbox {
    const p: PodSandbox?
    const s: PodSandboxStatus?

    predicate Whole() { p != null && s != null }

    /** The handle and everything reachable from it. */
    ghost function Parts(): set<object> reads p, s {
      {this} + (if p == null then {} else p.Parts()) + (if s == null then {} else s.Parts())
    }

    ghost predicate Within(repr: set<object>) reads repr {
      && this in repr
      && (p != null ==> p in repr && p.labels in repr)
      && (s != null ==> s in repr && s.labels in repr)
    }

    ghost function Cell(): PodCell
      reads p, s, if p == null then {} else {p.labels}, if s == null then {} else {s.labels}
    {
      PodCell(if p == null then None else Some(p.Val()), if s == null then None else Some(s.Val()))
    }

    ghost function Val(): SandboxRec
      requires Whole()
      reads p, s, p.labels, s.labels
    {
      SandboxRec(p.Val(), s.Val())
    }

    constructor (p: PodSandbox?, s: PodSandboxStatus?)
      ensures this.p == p && this.s == s
    {
      this.p, this.s := p, s;
    }

    method Clone() returns (c: Sandbox)
      ensures fresh(c.Parts()) && c.Cell() == Cell()
    {
      var cp: PodSandbox? := null;
      if p != null {
        cp := p.Clone();
      }
      var cs: PodSandboxStatus? := null;
      if s != null {
        cs := s.Clone();
      }
      c := new Sandbox(cp, cs);
    }

    /** The assignments a callback makes through its handle. */
    method Assign(state: PodState)
      requires Whole()
      modifies p`state, s`state
      ensures Cell() == PodCellOf(SetPodState(old(Val()), state))
    {
      p.state := state;
      s.state := state;
    }

    /** Match, with its checks for nil parts; None is the nil filter. */
    predicate Match(f: Option<PodFilter>)
      reads p, s, if p == null then {} else {p.labels}
    {
      if f.None? then true
      else if f.value.id != "" && (p == null || p.id != f.value.id) then false
      else if f.value.state.Some? && (s == null || s.state != f.value.state.value) then false
      else if f.value.selector.Some? && p != null && !Selects(f.value.selector.value, p.labels.m) then false
      else true
    }

    /** What Match selects: a nil filter everything; else an id and a state must be there and agree,
        and the selector's pairs must be among the labels of a record that is there.  So it depends on
        the handle's value alone, and on a whole record it is the filter of the model. */
    lemma MatchIs(f: Option<PodFilter>)
      ensures Match(f) <==>
              f.Some? ==>
                && (f.value.id == "" || (p != null && p.id == f.value.id))
                && (f.value.state.None? || (s != null && s.state == f.value.state.value))
                && (f.value.selector.None? || p == null || f.value.selector.value.Items <= p.labels.m.Items)
      ensures Match(f) <==> MatchPodCell(Cell(), f)
      ensures Whole() ==> (Match(f) <==> f.None? || MatchSandbox(Val(), f.value))
    {
      if f.Some? && f.value.selector.Some? && p != null {
        SelectsItems(f.value.selector.value, p.labels.m);
      }
    }
  }

  class Container {
    const p: CriContainer?
    const s: CriContainerStatus?

    predicate Whole() { p != null && s != null }

    ghost function Parts(): set<object> reads p, s {
      {this} + (if p == null then {} else p.Parts()) + (if s == null then {} else s.Parts())
    }

    ghost predicate Within(repr: set<object>) reads repr {
      && this in repr
      && (p != null ==> p in repr && p.labels in repr && p.image in repr)
      && (s != null ==> s in repr && s.labels in repr && s.image in repr)
    }

    ghost function Cell(): CtrCell
      reads p, s, if p == null then {} else {p.labels, p.image}, if s == null then {} else {s.labels, s.image}
    {
      CtrCell(if p == null then None else Some(p.Val()), if s == null then None else Some(s.Val()))
    }

    ghost function Val(): ContainerRec
      requires Whole()
      reads p, s, p.labels, s.labels, p.image, s.image
    {
      ContainerRec(p.Val(), s.Val())
    }

    constructor (p: CriContainer?, s: CriContainerStatus?)
      ensures this.p == p && this.s == s
    {
      this.p, this.s := p, s;
    }

    method Clone() returns (c: Container)
      ensures fresh(c.Parts()) && c.Cell() == Cell()
    {
      var cp: CriContainer? := null;
      if p != null {
        cp := p.Clone();
      }
      var cs: CriContainerStatus? := null;
      if s != null {
        cs := s.Clone();
      }
      c := new Container(cp, cs);
    }

    method AssignRunning(now: Time)
      requires Whole()
      modifies p`state, s`state, s`startedAt
      ensures Cell() == CtrCellOf(SetRunning(old(Val()), now))
    {
      p.state := ContainerRunning;
      s.state := ContainerRunning;
      s.startedAt := now;
    }

    method AssignExited(now: Time)
      requires Whole()
      modifies p`state, s`state, s`finishedAt
      ensures Cell() == CtrCellOf(SetExited(old(Val()), now))
    {
      p.state := ContainerExited;
      s.state := ContainerExited;
      s.finishedAt := now;
    }

    predicate Match(f: Option<ContainerFilter>)
      reads p, s, if p == null then {} else {p.labels}
    {
      if f.None? then true
      else if f.value.id != "" && (p == null || p.id != f.value.id) then false
      else if f.value.sandboxId != "" && (p == null || p.sandboxId != f.value.sandboxId) then false
      else if f.value.state.Some? && (s == null || s.state != f.value.state.value) then false
      else if f.value.selector.Some? && p != null && !Selects(f.value.selector.value, p.labels.m) then false
      else true
    }

    lemma MatchIs(f: Option<ContainerFilter>)
      ensures Match(f) <==>
              f.Some? ==>
                && (f.value.id == "" || (p != null && p.id == f.value.id))
                && (f.value.sandboxId == "" || (p != null && p.sandboxId == f.value.sandboxId))
                && (f.value.state.None? || (s != null && s.state == f.value.state.value))
                && (f.value.selector.None? || p == null || f.value.selector.value.Items <= p.labels.m.Items)
      ensures Match(f) <==> MatchCtrCell(Cell(), f)
      ensures Whole() ==> (Match(f) <==> f.None? || MatchContainer(Val(), f.value))
    {
      if f.Some? && f.value.selector.Some? && p != null {
        SelectsItems(f.value.selector.value, p.labels.m);
      }
    }
  }

  class Image {
    const i: ImageSpec?

    ghost function Parts(): set<object> {
      if i == null then {this} else {this, i}
    }

    ghost function Val(): ImageRec reads i {
      if i == null then None else Some(i.image)
    }

    constructor (i: ImageSpec?)
      ensures this.i == i
    {
      this.i := i;
    }

    method Clone() returns (c: Image)
      ensures fresh(c.Parts()) && c.Val() == Val()
    {
      var ci: ImageSpec? := null;
      if i != null {
        ci := new ImageSpec(i.image);
      }
      c := new Image(ci);
    }

    /** Match against the filter's image spec; the outer None is the nil filter. */
    predicate Match(f: Option<Option<string>>) reads i {
      if f.None? then true
      else if f.value.Some? && i != null && i.image != f.value.value then false
      else true
    }

    lemma MatchIs(f: Option<Option<string>>)
      ensures Match(f) <==> f.None? || f.value.None? || i == null || i.image == f.value.value
      ensures Match(f) <==> f.None? || MatchImage(Val(), f.value)
    {}
  }
}
