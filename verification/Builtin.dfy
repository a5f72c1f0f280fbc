/** The CRI handlers over the runtime's heap, for any ids.  Each is proved to be one step of the
    specification `Serves`, which CriEffects.ServesIsHandle makes a function when ids are not empty.
    The reply is given by value, and every object handed out or taken in stays apart from the store. */
module BuiltinCri {
  import opened Base
  import opened CriModel
  import opened CriTheorems
  import opened CriSystem
  import opened CriEffects
  import opened CriAnswers
  import opened Records
  import opened RuntimeStore
  import Events

  lemma FoundPod(st: Store, id: string, r: Option<SandboxRec>)
    requires SandboxScan(st, id, r)
    ensures NoPod(st, id) <==> r.None?
  {}

  lemma FoundContainer(st: Store, id: string, r: Option<ContainerRec>)
    requires ContainerScan(st, id, r)
    ensures NoContainer(st, id) <==> r.None?
  {}

  lemma FoundImage(st: Store, name: string, r: Option<ImageRec>)
    requires ImageScan(st, name, r)
    ensures NoImage(st, name) <==> r.None?
  {}

  /** No check of CreateContainer fails. */
  ghost predicate MayCreate(st: Store, sbid: string, image: string, id: string) {
    sbid != "" && !NoPod(st, sbid) && !NoImage(st, image) && NoContainer(st, id)
  }

  /** A nil filter asks for nothing. */
  function PodFilterOf(f: Option<PodFilter>): PodFilter {
    if f.None? then PodFilter("", None, None) else f.value
  }

  function ContainerFilterOf(f: Option<ContainerFilter>): ContainerFilter {
    if f.None? then ContainerFilter("", "", None, None) else f.value
  }

  function PodPasses(f: PodFilter): SandboxRec -> bool {
    x => MatchSandbox(x, f)
  }

  function CtrPasses(f: ContainerFilter): ContainerRec -> bool {
    y => MatchContainer(y, f)
  }

  /** What a listing shows: the records of its keys. */
  ghost function ShownPods(st: Store, keys: seq<string>): map<string, PodVal> {
    map k | k in keys && k in st.sandboxes :: st.sandboxes[k].p
  }

  ghost function ShownContainers(st: Store, keys: seq<string>): map<string, ContainerVal> {
    map k | k in keys && k in st.containers :: st.containers[k].p
  }

  lemma PodsScanned(m: map<string, PodCell>, f: Option<PodFilter>, keys: seq<string>)
    requires PodsWhole(m) && Scanned(m, KeepPod(f), {}, keys)
    ensures Scanned(PodRecs(m), PodPasses(PodFilterOf(f)), {}, keys)
  {}

  lemma PodsShown(st: Store, f: PodFilter, keys: seq<string>)
    requires Scanned(st.sandboxes, PodPasses(f), {}, keys)
    ensures Serves(st, ListPods(f), st, ThePods(ShownPods(st, keys)))
    ensures Distinct(keys) && forall k :: k in keys <==> k in st.sandboxes && WantsPod(f, st.sandboxes[k])
  {
    ListPodsAnswers(st, ListPods(f), st, ThePods(ShownPods(st, keys)));
    hide Effect, NoPod, NoContainer, NoImage, HasContainers;
    assert ShownPods(st, keys) == Listed(st.sandboxes, f);
  }

  lemma CtrsScanned(m: map<string, CtrCell>, f: Option<ContainerFilter>, keys: seq<string>)
    requires CtrsWhole(m) && Scanned(m, KeepCtr(f), {}, keys)
    ensures Scanned(CtrRecs(m), CtrPasses(ContainerFilterOf(f)), {}, keys)
  {}

  lemma CtrsShown(st: Store, f: ContainerFilter, keys: seq<string>)
    requires Scanned(st.containers, CtrPasses(f), {}, keys)
    ensures Serves(st, Req.ListContainers(f), st, TheContainers(ShownContainers(st, keys)))
    ensures Distinct(keys) && forall k :: k in keys <==> k in st.containers && WantsContainer(f, st.containers[k])
  {
    ListContainersAnswers(st, Req.ListContainers(f), st, TheContainers(ShownContainers(st, keys)));
    hide Effect, NoPod, NoContainer, NoImage, HasContainers;
    assert ShownContainers(st, keys) == ListedCtrs(st.containers, f);
  }

  /** A sandbox has a container exactly when a complete listing shows one. */
  lemma AllListed(st: Store, keys: seq<string>, id: string)
    requires Scanned(st.containers, CtrPasses(ContainerFilterOf(None)), {}, keys)
    ensures forall i :: 0 <= i < |keys| ==> keys[i] in st.containers
    ensures HasContainers(st, id) <==> exists i :: 0 <= i < |keys| && st.containers[keys[i]].p.sandboxId == id
  {
    forall i | 0 <= i < |keys| ensures keys[i] in st.containers {
      assert keys[i] in keys;
    }
    forall k | k in st.containers ensures exists i :: 0 <= i < |keys| && keys[i] == k {
      assert k in keys;
    }
  }

  /** The messages of the first |items| keys, made of `owned` objects. */
  ghost predicate PodItems(items: seq<PodSandbox>, keys: seq<string>, m: map<string, SandboxRec>, owned: set<object>)
    reads owned
  {
    && |items| <= |keys|
    && forall i :: 0 <= i < |items| ==>
         && keys[i] in m && items[i] in owned && items[i].labels in owned
         && items[i].Val() == m[keys[i]].p
  }

  lemma NoPodItems(keys: seq<string>, m: map<string, SandboxRec>)
    ensures PodItems([], keys, m, {})
  {}

  lemma PodItemsAdd(items: seq<PodSandbox>, keys: seq<string>, m: map<string, SandboxRec>, owned: set<object>, c: PodSandbox)
    requires PodItems(items, keys, m, owned)
    requires |items| < |keys| && keys[|items|] in m && c.Val() == m[keys[|items|]].p
    ensures PodItems(items + [c], keys, m, owned + c.Parts())
  {}

  ghost predicate CtrItems(items: seq<CriContainer>, keys: seq<string>, m: map<string, ContainerRec>, owned: set<object>)
    reads owned
  {
    && |items| <= |keys|
    && forall i :: 0 <= i < |items| ==>
         && keys[i] in m && items[i] in owned && items[i].labels in owned && items[i].image in owned
         && items[i].Val() == m[keys[i]].p
  }

  lemma NoCtrItems(keys: seq<string>, m: map<string, ContainerRec>)
    ensures CtrItems([], keys, m, {})
  {}

  lemma CtrItemsAdd(items: seq<CriContainer>, keys: seq<string>, m: map<string, ContainerRec>, owned: set<object>, c: CriContainer)
    requires CtrItems(items, keys, m, owned)
    requires |items| < |keys| && keys[|items|] in m && c.Val() == m[keys[|items|]].p
    ensures CtrItems(items + [c], keys, m, owned + c.Parts())
  {}

  class BuiltinCRIRuntime {
    const runtime: Runtime

    ghost predicate Valid()
      reads runtime, runtime.podRepr, runtime.ctrRepr, runtime.imgRepr
    {
      runtime.Valid() && runtime.WholeStore() && runtime.Idle()
    }

    constructor ()
      ensures Valid() && fresh(runtime) && runtime.View() == EMPTY && runtime.Repr() == {} && runtime.seqNo == 0
    {
      runtime := new Runtime();
    }

    /** Enqueue with nothing else pending: cb, and only cb, has run when it returns. */
    method Wait(cb: Callback)
      requires Valid() && runtime.seqNo + DELAY + 1 < U64
      modifies runtime
      ensures Valid() && fresh(runtime.Repr() - old(runtime.Repr()))
      ensures Effect(old(runtime.View()), cb, runtime.View()) && runtime.seqNo == old(runtime.seqNo) + 10
    {
      hide Runtime.PodsOk, Runtime.CtrsOk, Runtime.ImgsOk, PodsWhole, CtrsWhole, PodRecs, CtrRecs, Scan, Effect;
      ghost var since := runtime.seqNo;
      var e := runtime.Enqueue(DELAY, cb);
      assert [] + [e] == [e];
      Events.RunByOne(e, since, runtime.seqNo);
      EffectsOne(old(runtime.View()), e, runtime.View());
    }

    // ---------- Sandboxes ----------

    /** The two records of a new sandbox share the request's label map until AddSandbox clones. */
    method AddPod(id: string, meta: PodMeta, labels: LabelMap, handler: string, now: Time)
      requires runtime.PodsOk() && PodsWhole(runtime.pods)
      modifies runtime`sandboxes, runtime`pods, runtime`podRepr
      ensures runtime.PodsOk() && PodsWhole(runtime.pods) && fresh(runtime.podRepr - old(runtime.podRepr))
      ensures PodRecs(runtime.pods) == old(PodRecs(runtime.pods))[id := NewPod(id, PodConfig(meta, labels.m, handler), now)]
    {
      hide Runtime.PodsOk, PodsWhole, PodRecs;
      PodRecsPut(runtime.pods, id, NewPod(id, PodConfig(meta, labels.m, handler), now));
      var np := new PodSandbox(id, meta, labels, handler, now, SandboxNotReady);
      var nps := new PodSandboxStatus(id, meta, np.labels, handler, np.createdAt, np.state, POD_IP);
      var h := new Sandbox(np, nps);
      runtime.PutPod(id, h);
    }

    method RunPodSandbox(meta: PodMeta, labels: LabelMap, handler: string, stamp: string, now: Time) returns (reply: Reply)
      requires Valid() && runtime.seqNo + DELAY + 1 < U64
      modifies runtime
      ensures Valid() && fresh(runtime.Repr() - old(runtime.Repr()))
      ensures Serves(old(runtime.View()), RunPod(PodConfig(meta, labels.m, handler), stamp, now), runtime.View(), reply)
    {
      hide Runtime.PodsOk, Runtime.CtrsOk, Runtime.ImgsOk, PodsWhole, CtrsWhole, PodRecs, CtrRecs, Scan,
           SandboxScan, Effect, SandboxId, NewPod;
      if meta.uid == "" {
        return Failed(InvalidArgument);
      }
      var id := SandboxId(meta.uid, stamp);
      var sb := runtime.GetSandbox(id);
      if sb != null {
        FoundPod(runtime.View(), id, Some(sb.Val()));
        return Failed(AlreadyExists);
      }
      AddPod(id, meta, labels, handler, now);
      Wait(ReadyPod(id));
      return NewId(id);
    }

    method StopPodSandbox(id: string, at: map<string, Time>) returns (reply: Reply)
      requires Valid() && runtime.seqNo + DELAY + 1 < U64
      modifies runtime
      ensures Valid() && fresh(runtime.Repr() - old(runtime.Repr()))
      ensures Serves(old(runtime.View()), StopPod(id, at), runtime.View(), reply)
    {
      hide Runtime.PodsOk, Runtime.CtrsOk, Runtime.ImgsOk, PodsWhole, CtrsWhole, PodRecs, CtrRecs, Scan,
           SandboxScan, Effect, NoPod, NoContainer, NoImage, HasContainers;
      var sb := runtime.GetSandbox(id);
      FoundPod(runtime.View(), id, if sb == null then None else Some(sb.Val()));
      if sb == null {
        return Failed(NotFound);
      }
      Wait(UnreadyPod(id, at));
      return Done;
    }

    /** The scan for containers of the sandbox; it stops at the first. */
    method ContainerOf(id: string) returns (has: bool)
      requires runtime.CtrsOk() && CtrsWhole(runtime.ctrs)
      ensures has <==> HasContainers(runtime.View(), id)
    {
      hide Runtime.CtrsOk, Separate, CtrsWhole, CtrRecs, Scanned, HasContainers;
      var list, keys, owned := runtime.ListContainers(None);
      ghost var m := runtime.View().containers;
      CtrsScanned(runtime.ctrs, None, keys);
      AllListed(runtime.View(), keys, id);
      for i := 0 to |list|
        invariant CtrsAre(list, keys, runtime.ctrs, owned)
        invariant forall j :: 0 <= j < i ==> m[keys[j]].p.sandboxId != id
      {
        assert CtrIs(list[i], runtime.ctrs[keys[i]], owned);
        CtrWholeAt(runtime.ctrs, keys[i]);
        if list[i].p.sandboxId == id {
          return true;
        }
      }
      return false;
    }

    method DropPod(id: string)
      requires Valid()
      modifies runtime
      ensures Valid() && runtime.Repr() == old(runtime.Repr())
      ensures runtime.View() == old(runtime.View()).(sandboxes := old(runtime.View()).sandboxes - {id})
    {
      hide Runtime.PodsOk, Runtime.CtrsOk, Runtime.ImgsOk, PodsWhole, CtrsWhole, PodRecs, CtrRecs, Scan, Without;
      runtime.RemoveSandbox(id);
    }

    method RemovePodSandbox(id: string) returns (reply: Reply)
      requires Valid()
      modifies runtime
      ensures Valid() && fresh(runtime.Repr() - old(runtime.Repr()))
      ensures Serves(old(runtime.View()), RemovePod(id), runtime.View(), reply)
    {
      hide Runtime.PodsOk, Runtime.CtrsOk, Runtime.ImgsOk, PodsWhole, CtrsWhole, PodRecs, CtrRecs, Scan,
           SandboxScan, HasContainers, NoPod, NoContainer, NoImage, Without, Effect;
      if id == "" {
        return Failed(InvalidArgument);
      }
      var sb := runtime.GetSandbox(id);
      FoundPod(runtime.View(), id, if sb == null then None else Some(sb.Val()));
      if sb == null {
        return Failed(NotFound);
      }
      var has := ContainerOf(id);
      if has {
        return Failed(InvalidArgument);
      }
      DropPod(id);
      return Done;
    }

    /** The status returned is a second clone, nil when there is none. */
    method PodSandboxStatus(id: string) returns (resp: PodSandboxStatus?)
      requires Valid()
      ensures resp != null ==> fresh(resp.Parts())
      ensures var st := runtime.View();
              Serves(st, PodStatus(id), st, if resp == null then Failed(NotFound) else ThePod(resp.Val()))
    {
      hide Runtime.PodsOk, Runtime.CtrsOk, Runtime.ImgsOk, PodsWhole, CtrsWhole, PodRecs, CtrRecs, Scan, SandboxScan;
      ghost var st := runtime.View();
      var sb := runtime.GetSandbox(id);
      if sb == null {
        return null;
      }
      FoundPod(st, id, Some(sb.Val()));
      resp := sb.s.Clone();
      assert SandboxScan(st, id, Some(sb.Val())) && sb.Val().s == resp.Val();
    }

    /** One clone per sandbox that passes the filter; a nil filter passes all. */
    method ListPodSandbox(f: Option<PodFilter>)
      returns (items: seq<PodSandbox>, ghost keys: seq<string>, ghost owned: set<object>)
      requires Valid()
      ensures var st := runtime.View(); Serves(st, ListPods(PodFilterOf(f)), st, ThePods(ShownPods(st, keys)))
      ensures Distinct(keys) && |items| == |keys|
      ensures forall k :: k in keys <==>
                k in runtime.View().sandboxes && WantsPod(PodFilterOf(f), runtime.View().sandboxes[k])
      ensures fresh(owned) && PodItems(items, keys, runtime.View().sandboxes, owned)
    {
      hide Runtime.PodsOk, Runtime.CtrsOk, Runtime.ImgsOk, PodsWhole, CtrsWhole, PodRecs, CtrRecs, Scan, Scanned,
           PodItems, Serves, ShownPods;
      ghost var m := runtime.View().sandboxes;
      var list, ks, copies := runtime.ListSandboxes(f);
      PodsScanned(runtime.pods, f, ks);
      PodsShown(runtime.View(), PodFilterOf(f), ks);
      keys, items, owned := ks, [], {};
      NoPodItems(keys, m);
      for i := 0 to |list|
        invariant |items| == i && PodsAre(list, keys, runtime.pods, copies)
        invariant fresh(owned) && PodItems(items, keys, m, owned)
      {
        assert PodIs(list[i], runtime.pods[keys[i]], copies);
        PodWholeAt(runtime.pods, keys[i]);
        var c := list[i].p.Clone();
        PodItemsAdd(items, keys, m, owned, c);
        items, owned := items + [c], owned + c.Parts();
      }
    }

    // ---------- Containers ----------

    /** The two records of a new container share the request's image spec and label map. */
    method AddCtr(id: string, sbid: string, name: string, image: ImageSpec, labels: LabelMap, logPath: string, now: Time)
      requires runtime.CtrsOk() && CtrsWhole(runtime.ctrs)
      modifies runtime`containers, runtime`ctrs, runtime`ctrRepr
      ensures runtime.CtrsOk() && CtrsWhole(runtime.ctrs) && fresh(runtime.ctrRepr - old(runtime.ctrRepr))
      ensures var c := ContainerConfig(name, image.image, labels.m, logPath);
              CtrRecs(runtime.ctrs) == old(CtrRecs(runtime.ctrs))[id := NewCtr(id, sbid, c, now)]
    {
      hide Runtime.CtrsOk, CtrsWhole, CtrRecs;
      CtrRecsPut(runtime.ctrs, id, NewCtr(id, sbid, ContainerConfig(name, image.image, labels.m, logPath), now));
      var nc := new CriContainer(id, sbid, name, image, image.image, labels, now, ContainerCreated);
      var ncs := new CriContainerStatus(id, name, nc.image, nc.image.image, nc.labels, nc.createdAt, 0, 0, nc.state, logPath);
      var h := new Container(nc, ncs);
      runtime.PutCtr(id, h);
    }

    /** The checks of CreateContainer, in its order. */
    method CheckCreate(sbid: string, image: string, id: string) returns (code: Option<Code>)
      requires Valid()
      ensures code.None? <==> MayCreate(runtime.View(), sbid, image, id)
      ensures code.Some? ==>
                forall c: ContainerConfig, stamp, now :: c.image == image && ContainerId(sbid, c.name, stamp) == id ==>
                  Serves(runtime.View(), Req.CreateContainer(sbid, c, stamp, now), runtime.View(), Failed(code.value))
    {
      hide Runtime.PodsOk, Runtime.CtrsOk, Runtime.ImgsOk, PodsWhole, CtrsWhole, PodRecs, CtrRecs, Scan,
           SandboxScan, ContainerScan, ImageScan, ContainerId;
      if sbid == "" {
        return Some(InvalidArgument);
      }
      var sb := runtime.GetSandbox(sbid);
      if sb == null {
        return Some(NotFound);
      }
      FoundPod(runtime.View(), sbid, Some(sb.Val()));
      var img := runtime.GetImage(image);
      if img == null {
        return Some(NotFound);
      }
      FoundImage(runtime.View(), image, Some(img.Val()));
      var c := runtime.GetContainer(id);
      if c == null {
        return None;
      }
      FoundContainer(runtime.View(), id, Some(c.Val()));
      return Some(AlreadyExists);
    }

    /** A config without an image passes for one with an empty name until the handler reads it: with
        no image the handler does not return (None: it panics) exactly when no check fails. */
    method CreateContainer(sbid: string, name: string, image: ImageSpec?, labels: LabelMap, logPath: string,
                           stamp: string, now: Time) returns (reply: Option<Reply>)
      requires Valid()
      modifies runtime
      ensures Valid() && fresh(runtime.Repr() - old(runtime.Repr()))
      ensures reply.None? <==> image == null && MayCreate(old(runtime.View()), sbid, "", ContainerId(sbid, name, stamp))
      ensures image == null ==> runtime.View() == old(runtime.View())
      ensures reply.Some? ==>
                var c := ContainerConfig(name, if image == null then "" else image.image, labels.m, logPath);
                Serves(old(runtime.View()), Req.CreateContainer(sbid, c, stamp, now), runtime.View(), reply.value)
    {
      hide Runtime.PodsOk, Runtime.CtrsOk, Runtime.ImgsOk, PodsWhole, CtrsWhole, PodRecs, CtrRecs, Scan,
           ContainerId, NewCtr, NoPod, NoImage, NoContainer;
      var imgName := if image == null then "" else image.image;
      var id := ContainerId(sbid, name, stamp);
      var code := CheckCreate(sbid, imgName, id);
      if code.Some? {
        return Some(Failed(code.value));
      }
      if image == null {
        return None;
      }
      AddCtr(id, sbid, name, image, labels, logPath, now);
      return Some(NewId(id));
    }

    method StartContainer(id: string, now: Time) returns (reply: Reply)
      requires Valid() && runtime.seqNo + DELAY + 1 < U64
      modifies runtime
      ensures Valid() && fresh(runtime.Repr() - old(runtime.Repr()))
      ensures Serves(old(runtime.View()), Req.StartContainer(id, now), runtime.View(), reply)
    {
      hide Runtime.PodsOk, Runtime.CtrsOk, Runtime.ImgsOk, PodsWhole, CtrsWhole, PodRecs, CtrRecs, Scan,
           ContainerScan, Effect, NoPod, NoContainer, NoImage, HasContainers, Runtime.Idle;
      var c := runtime.GetContainer(id);
      FoundContainer(runtime.View(), id, if c == null then None else Some(c.Val()));
      if c == null {
        return Failed(NotFound);
      }
      Wait(RunCtr(id, now));
      return Done;
    }

    method StopContainer(id: string, now: Time) returns (reply: Reply)
      requires Valid() && runtime.seqNo + DELAY + 1 < U64
      modifies runtime
      ensures Valid() && fresh(runtime.Repr() - old(runtime.Repr()))
      ensures Serves(old(runtime.View()), Req.StopContainer(id, now), runtime.View(), reply)
    {
      hide Runtime.PodsOk, Runtime.CtrsOk, Runtime.ImgsOk, PodsWhole, CtrsWhole, PodRecs, CtrRecs, Scan,
           ContainerScan, Effect, NoPod, NoContainer, NoImage, HasContainers, Runtime.Idle;
      var c := runtime.GetContainer(id);
      FoundContainer(runtime.View(), id, if c == null then None else Some(c.Val()));
      if c == null {
        return Failed(NotFound);
      }
      Wait(ExitCtr(id, now));
      return Done;
    }

    method DropContainer(id: string)
      requires Valid()
      modifies runtime
      ensures Valid() && runtime.Repr() == old(runtime.Repr())
      ensures runtime.View() == old(runtime.View()).(containers := old(runtime.View()).containers - {id})
    {
      hide Runtime.PodsOk, Runtime.CtrsOk, Runtime.ImgsOk, PodsWhole, CtrsWhole, PodRecs, CtrRecs, Scan, Without;
      runtime.RemoveContainer(id);
    }

    method RemoveContainer(id: string) returns (reply: Reply)
      requires Valid()
      modifies runtime
      ensures Valid() && fresh(runtime.Repr() - old(runtime.Repr()))
      ensures Serves(old(runtime.View()), Req.RemoveContainer(id), runtime.View(), reply)
    {
      hide Runtime.PodsOk, Runtime.CtrsOk, Runtime.ImgsOk, PodsWhole, CtrsWhole, PodRecs, CtrRecs, Scan,
           ContainerScan, NoContainer, NoPod, NoImage, Without, Effect, HasContainers;
      var c := runtime.GetContainer(id);
      FoundContainer(runtime.View(), id, if c == null then None else Some(c.Val()));
      if c == null {
        return Failed(NotFound);
      }
      DropContainer(id);
      return Done;
    }

    method ContainerStatus(id: string) returns (resp: CriContainerStatus?)
      requires Valid()
      ensures resp != null ==> fresh(resp.Parts())
      ensures var st := runtime.View();
              Serves(st, Req.ContainerStatus(id), st, if resp == null then Failed(NotFound) else TheContainer(resp.Val()))
    {
      hide Runtime.PodsOk, Runtime.CtrsOk, Runtime.ImgsOk, PodsWhole, CtrsWhole, PodRecs, CtrRecs, Scan,
           ContainerScan;
      ghost var st := runtime.View();
      var c := runtime.GetContainer(id);
      if c == null {
        return null;
      }
      FoundContainer(st, id, Some(c.Val()));
      resp := c.s.Clone();
      assert ContainerScan(st, id, Some(c.Val())) && c.Val().s == resp.Val();
    }

    method ListContainers(f: Option<ContainerFilter>)
      returns (items: seq<CriContainer>, ghost keys: seq<string>, ghost owned: set<object>)
      requires Valid()
      ensures var st := runtime.View();
              Serves(st, Req.ListContainers(ContainerFilterOf(f)), st, TheContainers(ShownContainers(st, keys)))
      ensures Distinct(keys) && |items| == |keys|
      ensures forall k :: k in keys <==>
                k in runtime.View().containers && WantsContainer(ContainerFilterOf(f), runtime.View().containers[k])
      ensures fresh(owned) && CtrItems(items, keys, runtime.View().containers, owned)
    {
      hide Runtime.PodsOk, Runtime.CtrsOk, Runtime.ImgsOk, PodsWhole, CtrsWhole, PodRecs, CtrRecs, Scan, Scanned,
           CtrItems, Separate, Serves, ShownContainers;
      ghost var m := runtime.View().containers;
      var list, ks, copies := runtime.ListContainers(f);
      CtrsScanned(runtime.ctrs, f, ks);
      CtrsShown(runtime.View(), ContainerFilterOf(f), ks);
      keys, items, owned := ks, [], {};
      NoCtrItems(keys, m);
      for i := 0 to |list|
        invariant |items| == i && CtrsAre(list, keys, runtime.ctrs, copies)
        invariant fresh(owned) && CtrItems(items, keys, m, owned)
      {
        assert CtrIs(list[i], runtime.ctrs[keys[i]], copies);
        CtrWholeAt(runtime.ctrs, keys[i]);
        var c := list[i].p.Clone();
        CtrItemsAdd(items, keys, m, owned, c);
        items, owned := items + [c], owned + c.Parts();
      }
    }

    // ---------- Images ----------

    /** The effect precedes the select, so a canceled context reports an error for an image that is
        there.  A nil spec is stored under the empty name. */
    method PullImage(image: Option<string>, canceled: bool) returns (reply: Reply)
      requires Valid() && runtime.seqNo + DELAY + 1 < U64
      modifies runtime
      ensures Valid() && fresh(runtime.Repr() - old(runtime.Repr()))
      ensures Effect(old(runtime.View()), StoreImage(image), runtime.View())
      ensures reply == if canceled then Failed(Canceled) else TheImage(Some(SpecName(image)))
      ensures !canceled ==> Serves(old(runtime.View()), Req.PullImage(image), runtime.View(), reply)
    {
      hide Runtime.PodsOk, Runtime.CtrsOk, Runtime.ImgsOk, PodsWhole, CtrsWhole, PodRecs, CtrRecs, Scan, Effect;
      Wait(StoreImage(image));
      return if canceled then Failed(Canceled) else TheImage(Some(SpecName(image)));
    }

    method RemoveImage(image: string) returns (reply: Reply)
      requires Valid()
      modifies runtime
      ensures Valid() && fresh(runtime.Repr() - old(runtime.Repr()))
      ensures Serves(old(runtime.View()), Req.RemoveImage(image), runtime.View(), reply)
    {
      hide Runtime.PodsOk, Runtime.CtrsOk, Runtime.ImgsOk, PodsWhole, CtrsWhole, PodRecs, CtrRecs, Scan;
      runtime.RemoveImage(image);
      assert runtime.imgs == old(runtime.imgs) - {image};
      return Done;
    }

    method ImageStatus(name: string) returns (resp: Option<string>)
      requires Valid()
      ensures var st := runtime.View(); Serves(st, Req.ImageStatus(name), st, TheImage(resp))
    {
      hide Runtime.PodsOk, Runtime.CtrsOk, Runtime.ImgsOk, PodsWhole, CtrsWhole, PodRecs, CtrRecs, Scan, ImageScan;
      ghost var st := runtime.View();
      var img := runtime.GetImage(name);
      if img == null {
        return None;
      }
      FoundImage(st, name, Some(img.Val()));
      assert ImageScan(st, name, Some(img.Val()));
      return Some(if img.i == null then "" else img.i.image);
    }
  }
}
