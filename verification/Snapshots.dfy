/** Snapshot isolation from the client's side.  A client keeps every object it ever passed in or was
    given, and between its calls writes to them as it likes; what is stored depends only on the
    values its arguments had at the calls. */
module Snapshots {
  import opened Base
  import opened CriModel
  import opened CriTheorems
  import opened CriSystem
  import opened CriEffects
  import opened CriSystemRun
  import opened Records
  import opened RuntimeStore
  import opened BuiltinCri

  // ---------- Clients of the stores ----------

  /** A call that changes a store, with the value its argument had. */
  datatype Edit =
    | PutPod(id: string, pod: PodCell)
    | DropPod(id: string)
    | PutCtr(id: string, ctr: CtrCell)
    | DropCtr(id: string)
    | PutImage(id: string, img: ImageRec)
    | DropImage(id: string)

  function Edited(c: Contents, e: Edit): Contents {
    match e
    case PutPod(id, pod) => c.(pods := c.pods[id := pod])
    case DropPod(id) => c.(pods := c.pods - {id})
    case PutCtr(id, ctr) => c.(ctrs := c.ctrs[id := ctr])
    case DropCtr(id) => c.(ctrs := c.ctrs - {id})
    case PutImage(id, img) => c.(imgs := c.imgs[id := img])
    case DropImage(id) => c.(imgs := c.imgs - {id})
  }

  /** What the calls alone make of an empty store. */
  function Outcome(edits: seq<Edit>): Contents {
    if edits == [] then Contents(map[], map[], map[]) else Edited(Outcome(edits[..|edits| - 1]), edits[|edits| - 1])
  }

  lemma OutcomeSnoc(edits: seq<Edit>, e: Edit)
    ensures Outcome(edits + [e]) == Edited(Outcome(edits), e)
  {
    assert (edits + [e])[..|edits|] == edits;
  }

  lemma WithoutIs<T>(m: map<string, T>, id: string)
    ensures Without(m, id) == m - {id}
  {}

  class StoreClient {
    const r: Runtime
    ghost var held: set<object>
    ghost var edits: seq<Edit>

    /** The store shares no object with the client, and is what the calls alone produce. */
    ghost predicate Safe()
      reads this, r, r.podRepr, r.ctrRepr, r.imgRepr
    {
      && r.Valid() && held !! r.Repr() + {r, this} && this !in r.Repr()
      && r.Held() == Outcome(edits)
    }

    constructor ()
      ensures Safe() && held == {} && edits == []
    {
      r := new Runtime();
      held, edits := {}, [];
    }

    /** Any writes to any fields of any of the objects held. */
    method Scribble()
      requires Safe()
      modifies held
      ensures Safe()
    {
      hide Runtime.PodsOk, Runtime.CtrsOk, Runtime.ImgsOk, PodsWhole, CtrsWhole, PodRecs, CtrRecs, Outcome;
      modify held;
      r.Isolated();
    }

    /** A client reaches nothing but what it made or holds, so no part of an argument is the store's. */
    method AddSandbox(id: string, sb: Sandbox)
      requires Safe() && sb.Parts() !! r.Repr() + {r, this}
      modifies this`held, this`edits, r
      ensures Safe() && held == old(held) + sb.Parts() && edits == old(edits) + [PutPod(id, old(sb.Cell()))]
    {
      hide Runtime.PodsOk, Runtime.CtrsOk, Runtime.ImgsOk, PodsWhole, CtrsWhole, PodRecs, CtrRecs, Outcome;
      OutcomeSnoc(edits, PutPod(id, sb.Cell()));
      edits, held := edits + [PutPod(id, sb.Cell())], held + sb.Parts();
      r.PutPod(id, sb);
    }

    method RemoveSandbox(id: string)
      requires Safe()
      modifies this`edits, r
      ensures Safe() && edits == old(edits) + [DropPod(id)]
    {
      hide Runtime.PodsOk, Runtime.CtrsOk, Runtime.ImgsOk, PodsWhole, CtrsWhole, PodRecs, CtrRecs, Outcome, Without;
      OutcomeSnoc(edits, DropPod(id));
      WithoutIs(r.pods, id);
      edits := edits + [DropPod(id)];
      r.RemoveSandbox(id);
    }

    method GetSandbox(id: string) returns (sb: Sandbox?)
      requires Safe()
      modifies this`held
      ensures Safe() && (sb == null ==> held == old(held)) && (sb != null ==> held == old(held) + sb.Parts())
      ensures Scan(Outcome(edits).pods, KeepPod(Some(PodById(id))), if sb == null then None else Some(sb.Cell()))
    {
      hide Runtime.PodsOk, Runtime.CtrsOk, Runtime.ImgsOk, PodsWhole, CtrsWhole, PodRecs, CtrRecs, Outcome, Scan;
      sb := r.GetSandbox(id);
      if sb != null {
        held := held + sb.Parts();
      }
    }

    method ListSandboxes(f: Option<PodFilter>) returns (list: seq<Sandbox>, ghost keys: seq<string>, ghost owned: set<object>)
      requires Safe()
      modifies this`held
      ensures Safe() && held == old(held) + owned && PodsAre(list, keys, Outcome(edits).pods, owned)
      ensures Scanned(Outcome(edits).pods, KeepPod(f), {}, keys)
    {
      hide Runtime.PodsOk, Runtime.CtrsOk, Runtime.ImgsOk, PodsWhole, CtrsWhole, PodRecs, CtrRecs, Outcome, PodsAre,
           Scanned;
      list, keys, owned := r.ListSandboxes(f);
      held := held + owned;
    }

    method AddContainer(id: string, c: Container)
      requires Safe() && c.Parts() !! r.Repr() + {r, this}
      modifies this`held, this`edits, r
      ensures Safe() && held == old(held) + c.Parts() && edits == old(edits) + [PutCtr(id, old(c.Cell()))]
    {
      hide Runtime.PodsOk, Runtime.CtrsOk, Runtime.ImgsOk, PodsWhole, CtrsWhole, PodRecs, CtrRecs, Outcome;
      OutcomeSnoc(edits, PutCtr(id, c.Cell()));
      edits, held := edits + [PutCtr(id, c.Cell())], held + c.Parts();
      r.PutCtr(id, c);
    }

    method RemoveContainer(id: string)
      requires Safe()
      modifies this`edits, r
      ensures Safe() && edits == old(edits) + [DropCtr(id)]
    {
      hide Runtime.PodsOk, Runtime.CtrsOk, Runtime.ImgsOk, PodsWhole, CtrsWhole, PodRecs, CtrRecs, Outcome, Without;
      OutcomeSnoc(edits, DropCtr(id));
      WithoutIs(r.ctrs, id);
      edits := edits + [DropCtr(id)];
      r.RemoveContainer(id);
    }

    method GetContainer(id: string) returns (c: Container?)
      requires Safe()
      modifies this`held
      ensures Safe() && (c == null ==> held == old(held)) && (c != null ==> held == old(held) + c.Parts())
      ensures Scan(Outcome(edits).ctrs, KeepCtr(Some(ContainerById(id))), if c == null then None else Some(c.Cell()))
    {
      hide Runtime.PodsOk, Runtime.CtrsOk, Runtime.ImgsOk, PodsWhole, CtrsWhole, PodRecs, CtrRecs, Outcome, Scan;
      c := r.GetContainer(id);
      if c != null {
        held := held + c.Parts();
      }
    }

    method ListContainers(f: Option<ContainerFilter>)
      returns (list: seq<Container>, ghost keys: seq<string>, ghost owned: set<object>)
      requires Safe()
      modifies this`held
      ensures Safe() && held == old(held) + owned && CtrsAre(list, keys, Outcome(edits).ctrs, owned)
      ensures Scanned(Outcome(edits).ctrs, KeepCtr(f), {}, keys)
    {
      hide Runtime.PodsOk, Runtime.CtrsOk, Runtime.ImgsOk, PodsWhole, CtrsWhole, PodRecs, CtrRecs, Outcome, CtrsAre,
           Scanned, Separate;
      list, keys, owned := r.ListContainers(f);
      held := held + owned;
    }

    method AddImage(id: string, img: Image)
      requires Safe() && img.Parts() !! r.Repr() + {r, this}
      modifies this`held, this`edits, r
      ensures Safe() && held == old(held) + img.Parts() && edits == old(edits) + [PutImage(id, old(img.Val()))]
    {
      hide Runtime.PodsOk, Runtime.CtrsOk, Runtime.ImgsOk, PodsWhole, CtrsWhole, PodRecs, CtrRecs, Outcome;
      OutcomeSnoc(edits, PutImage(id, img.Val()));
      edits, held := edits + [PutImage(id, img.Val())], held + img.Parts();
      r.AddImage(id, img);
    }

    method RemoveImage(id: string)
      requires Safe()
      modifies this`edits, r
      ensures Safe() && edits == old(edits) + [DropImage(id)]
    {
      hide Runtime.PodsOk, Runtime.CtrsOk, Runtime.ImgsOk, PodsWhole, CtrsWhole, PodRecs, CtrRecs, Outcome, Without;
      OutcomeSnoc(edits, DropImage(id));
      WithoutIs(r.imgs, id);
      edits := edits + [DropImage(id)];
      r.RemoveImage(id);
    }

    method GetImage(name: string) returns (img: Image?)
      requires Safe()
      modifies this`held
      ensures Safe() && held == old(held) + if img == null then {} else img.Parts()
      ensures Scan(Outcome(edits).imgs, KeepImage(Some(ImageByName(name))), if img == null then None else Some(img.Val()))
    {
      hide Runtime.PodsOk, Runtime.CtrsOk, Runtime.ImgsOk, PodsWhole, CtrsWhole, PodRecs, CtrRecs, Outcome, Scan;
      img := r.GetImage(name);
      if img != null {
        held := held + img.Parts();
      }
    }

    method ListImages(f: Option<Option<string>>) returns (list: seq<Image>, ghost keys: seq<string>, ghost owned: set<object>)
      requires Safe()
      modifies this`held
      ensures Safe() && held == old(held) + owned && ImagesAre(list, keys, Outcome(edits).imgs, owned)
      ensures Scanned(Outcome(edits).imgs, KeepImage(f), {}, keys)
    {
      hide Runtime.PodsOk, Runtime.CtrsOk, Runtime.ImgsOk, PodsWhole, CtrsWhole, PodRecs, CtrRecs, Outcome,
           ImagesAre, Scanned;
      list, keys, owned := r.ListImages(f);
      held := held + owned;
    }
  }

  // ---------- Clients of the handlers ----------

  class CriClient {
    const b: BuiltinCRIRuntime
    ghost var held: set<object>
    ghost var hist: seq<(Req, Reply)>

    ghost predicate Apart()
      reads this, b.runtime, b.runtime.podRepr, b.runtime.ctrRepr, b.runtime.imgRepr
    {
      b.Valid() && held !! b.runtime.Repr() + {b.runtime, this} && this !in b.runtime.Repr() + {b.runtime}
    }

    /** The store shares no object with the client, and the requests made, with the values their
        arguments had at the calls, explain it. */
    ghost predicate Safe()
      reads this, b.runtime, b.runtime.podRepr, b.runtime.ctrRepr, b.runtime.imgRepr
    {
      Apart() && Explains(hist, b.runtime.View())
    }

    constructor ()
      ensures Safe() && held == {} && hist == [] && b.runtime.seqNo == 0
    {
      b := new BuiltinCRIRuntime();
      held, hist := {}, [];
    }

    /** Any writes to any fields of any of the objects held. */
    method Scribble()
      requires Safe()
      modifies held
      ensures Safe() && b.runtime.seqNo == old(b.runtime.seqNo)
    {
      hide Runtime.PodsOk, Runtime.CtrsOk, Runtime.ImgsOk, PodsWhole, CtrsWhole, PodRecs, CtrRecs, Explains;
      modify held;
      b.runtime.Isolated();
    }

    /** The client may still wait for a transition. */
    ghost predicate Room() reads b.runtime { b.runtime.seqNo + DELAY + 1 < U64 }

    method RunPodSandbox(meta: PodMeta, labels: LabelMap, handler: string, stamp: string, now: Time) returns (reply: Reply)
      requires Safe() && Room()
      requires {labels} !! b.runtime.Repr() + {b.runtime, this}
      modifies this, b.runtime
      ensures Safe() && held == old(held) + {labels}
      ensures hist == old(hist) + [(RunPod(PodConfig(meta, labels.m, handler), stamp, now), reply)]
    {
      hide Runtime.PodsOk, Runtime.CtrsOk, Runtime.ImgsOk, PodsWhole, CtrsWhole, PodRecs, CtrRecs, Explains, Serves;
      ghost var st := b.runtime.View();
      reply := b.RunPodSandbox(meta, labels, handler, stamp, now);
      ExplainsSnoc(hist, st, (RunPod(PodConfig(meta, labels.m, handler), stamp, now), reply), b.runtime.View());
      hist := hist + [(RunPod(PodConfig(meta, labels.m, handler), stamp, now), reply)];
      held := held + {labels};
    }

    method StopPodSandbox(id: string, at: map<string, Time>) returns (reply: Reply)
      requires Safe() && Room()
      modifies this, b.runtime
      ensures Safe() && held == old(held) && hist == old(hist) + [(StopPod(id, at), reply)]
    {
      hide Runtime.PodsOk, Runtime.CtrsOk, Runtime.ImgsOk, PodsWhole, CtrsWhole, PodRecs, CtrRecs, Explains, Serves;
      ghost var st := b.runtime.View();
      reply := b.StopPodSandbox(id, at);
      ExplainsSnoc(hist, st, (StopPod(id, at), reply), b.runtime.View());
      hist := hist + [(StopPod(id, at), reply)];
    }

    method RemovePodSandbox(id: string) returns (reply: Reply)
      requires Safe()
      modifies this, b.runtime
      ensures Safe() && held == old(held) && hist == old(hist) + [(RemovePod(id), reply)]
    {
      hide Runtime.PodsOk, Runtime.CtrsOk, Runtime.ImgsOk, PodsWhole, CtrsWhole, PodRecs, CtrRecs, Explains, Serves;
      ghost var st := b.runtime.View();
      reply := b.RemovePodSandbox(id);
      ExplainsSnoc(hist, st, (RemovePod(id), reply), b.runtime.View());
      hist := hist + [(RemovePod(id), reply)];
    }

    method PodSandboxStatus(id: string) returns (resp: PodSandboxStatus?)
      requires Safe()
      modifies this
      ensures Safe() && held == old(held) + if resp == null then {} else resp.Parts()
      ensures hist == old(hist) + [(PodStatus(id), if resp == null then Failed(NotFound) else ThePod(resp.Val()))]
    {
      hide Runtime.PodsOk, Runtime.CtrsOk, Runtime.ImgsOk, PodsWhole, CtrsWhole, PodRecs, CtrRecs, Explains, Serves;
      resp := b.PodSandboxStatus(id);
      ghost var h := (PodStatus(id), if resp == null then Failed(NotFound) else ThePod(resp.Val()));
      ExplainsSnoc(hist, b.runtime.View(), h, b.runtime.View());
      hist, held := hist + [h], held + if resp == null then {} else resp.Parts();
    }

    method ListPodSandbox(f: Option<PodFilter>)
      returns (items: seq<PodSandbox>, ghost keys: seq<string>, ghost owned: set<object>)
      requires Safe()
      modifies this
      ensures Safe() && held == old(held) + owned && PodItems(items, keys, b.runtime.View().sandboxes, owned)
      ensures hist == old(hist) + [(ListPods(PodFilterOf(f)), ThePods(ShownPods(b.runtime.View(), keys)))]
    {
      hide Runtime.PodsOk, Runtime.CtrsOk, Runtime.ImgsOk, PodsWhole, CtrsWhole, PodRecs, CtrRecs, Explains, Serves,
           Scanned, PodItems;
      items, keys, owned := b.ListPodSandbox(f);
      ghost var h := (ListPods(PodFilterOf(f)), ThePods(ShownPods(b.runtime.View(), keys)));
      ExplainsSnoc(hist, b.runtime.View(), h, b.runtime.View());
      hist, held := hist + [h], held + owned;
    }

    /** Without an image spec the call may not return (None), and then has changed nothing. */
    method CreateContainer(sbid: string, name: string, image: ImageSpec?, labels: LabelMap, logPath: string,
                           stamp: string, now: Time) returns (reply: Option<Reply>)
      requires Safe() && {labels} !! b.runtime.Repr() + {b.runtime, this}
      requires image != null ==> {image} !! b.runtime.Repr() + {b.runtime, this}
      modifies this, b.runtime
      ensures Safe() && held == old(held) + {labels} + if image == null then {} else {image}
      ensures image != null ==> reply.Some?
      ensures var c := ContainerConfig(name, if image == null then "" else image.image, labels.m, logPath);
              hist == old(hist) + if reply.None? then [] else [(Req.CreateContainer(sbid, c, stamp, now), reply.value)]
    {
      hide Runtime.PodsOk, Runtime.CtrsOk, Runtime.ImgsOk, PodsWhole, CtrsWhole, PodRecs, CtrRecs, Explains, Serves,
           MayCreate;
      ghost var st := b.runtime.View();
      ghost var c := ContainerConfig(name, if image == null then "" else image.image, labels.m, logPath);
      reply := b.CreateContainer(sbid, name, image, labels, logPath, stamp, now);
      if reply.Some? {
        ExplainsSnoc(hist, st, (Req.CreateContainer(sbid, c, stamp, now), reply.value), b.runtime.View());
        hist := hist + [(Req.CreateContainer(sbid, c, stamp, now), reply.value)];
      }
      held := held + {labels} + if image == null then {} else {image};
    }

    method StartContainer(id: string, now: Time) returns (reply: Reply)
      requires Safe() && Room()
      modifies this, b.runtime
      ensures Safe() && held == old(held) && hist == old(hist) + [(Req.StartContainer(id, now), reply)]
    {
      hide Runtime.PodsOk, Runtime.CtrsOk, Runtime.ImgsOk, PodsWhole, CtrsWhole, PodRecs, CtrRecs, Explains, Serves;
      ghost var st := b.runtime.View();
      reply := b.StartContainer(id, now);
      ExplainsSnoc(hist, st, (Req.StartContainer(id, now), reply), b.runtime.View());
      hist := hist + [(Req.StartContainer(id, now), reply)];
    }

    method StopContainer(id: string, now: Time) returns (reply: Reply)
      requires Safe() && Room()
      modifies this, b.runtime
      ensures Safe() && held == old(held) && hist == old(hist) + [(Req.StopContainer(id, now), reply)]
    {
      hide Runtime.PodsOk, Runtime.CtrsOk, Runtime.ImgsOk, PodsWhole, CtrsWhole, PodRecs, CtrRecs, Explains, Serves;
      ghost var st := b.runtime.View();
      reply := b.StopContainer(id, now);
      ExplainsSnoc(hist, st, (Req.StopContainer(id, now), reply), b.runtime.View());
      hist := hist + [(Req.StopContainer(id, now), reply)];
    }

    method RemoveContainer(id: string) returns (reply: Reply)
      requires Safe()
      modifies this, b.runtime
      ensures Safe() && held == old(held) && hist == old(hist) + [(Req.RemoveContainer(id), reply)]
    {
      hide Runtime.PodsOk, Runtime.CtrsOk, Runtime.ImgsOk, PodsWhole, CtrsWhole, PodRecs, CtrRecs, Explains, Serves;
      ghost var st := b.runtime.View();
      reply := b.RemoveContainer(id);
      ExplainsSnoc(hist, st, (Req.RemoveContainer(id), reply), b.runtime.View());
      hist := hist + [(Req.RemoveContainer(id), reply)];
    }

    method ContainerStatus(id: string) returns (resp: CriContainerStatus?)
      requires Safe()
      modifies this
      ensures Safe() && held == old(held) + if resp == null then {} else resp.Parts()
      ensures hist == old(hist) + [(Req.ContainerStatus(id), if resp == null then Failed(NotFound) else TheContainer(resp.Val()))]
    {
      hide Runtime.PodsOk, Runtime.CtrsOk, Runtime.ImgsOk, PodsWhole, CtrsWhole, PodRecs, CtrRecs, Explains, Serves;
      resp := b.ContainerStatus(id);
      ghost var h := (Req.ContainerStatus(id), if resp == null then Failed(NotFound) else TheContainer(resp.Val()));
      ExplainsSnoc(hist, b.runtime.View(), h, b.runtime.View());
      hist, held := hist + [h], held + if resp == null then {} else resp.Parts();
    }

    method ListContainers(f: Option<ContainerFilter>)
      returns (items: seq<CriContainer>, ghost keys: seq<string>, ghost owned: set<object>)
      requires Safe()
      modifies this
      ensures Safe() && held == old(held) + owned && CtrItems(items, keys, b.runtime.View().containers, owned)
      ensures var r := Req.ListContainers(ContainerFilterOf(f));
              hist == old(hist) + [(r, TheContainers(ShownContainers(b.runtime.View(), keys)))]
    {
      hide Runtime.PodsOk, Runtime.CtrsOk, Runtime.ImgsOk, PodsWhole, CtrsWhole, PodRecs, CtrRecs, Explains, Serves,
           Scanned, CtrItems;
      items, keys, owned := b.ListContainers(f);
      ghost var h := (Req.ListContainers(ContainerFilterOf(f)), TheContainers(ShownContainers(b.runtime.View(), keys)));
      ExplainsSnoc(hist, b.runtime.View(), h, b.runtime.View());
      hist, held := hist + [h], held + owned;
    }

    /** What is recorded is the image's effect, also when the context was canceled. */
    method PullImage(image: Option<string>, canceled: bool) returns (reply: Reply)
      requires Safe() && Room()
      modifies this, b.runtime
      ensures Safe() && held == old(held) && hist == old(hist) + [(Req.PullImage(image), TheImage(Some(SpecName(image))))]
      ensures reply == if canceled then Failed(Canceled) else TheImage(Some(SpecName(image)))
    {
      hide Runtime.PodsOk, Runtime.CtrsOk, Runtime.ImgsOk, PodsWhole, CtrsWhole, PodRecs, CtrRecs, Explains, Effect;
      ghost var st, h := b.runtime.View(), (Req.PullImage(image), TheImage(Some(SpecName(image))));
      reply := b.PullImage(image, canceled);
      ExplainsSnoc(hist, st, h, b.runtime.View());
      hist := hist + [h];
    }

    method RemoveImage(image: string) returns (reply: Reply)
      requires Safe()
      modifies this, b.runtime
      ensures Safe() && held == old(held) && hist == old(hist) + [(Req.RemoveImage(image), reply)]
    {
      hide Runtime.PodsOk, Runtime.CtrsOk, Runtime.ImgsOk, PodsWhole, CtrsWhole, PodRecs, CtrRecs, Explains, Serves;
      ghost var st := b.runtime.View();
      reply := b.RemoveImage(image);
      ExplainsSnoc(hist, st, (Req.RemoveImage(image), reply), b.runtime.View());
      hist := hist + [(Req.RemoveImage(image), reply)];
    }

    method ImageStatus(name: string) returns (resp: Option<string>)
      requires Safe()
      modifies this`hist
      ensures Safe() && hist == old(hist) + [(Req.ImageStatus(name), TheImage(resp))]
    {
      hide Runtime.PodsOk, Runtime.CtrsOk, Runtime.ImgsOk, PodsWhole, CtrsWhole, PodRecs, CtrRecs, Explains, Serves;
      resp := b.ImageStatus(name);
      ExplainsSnoc(hist, b.runtime.View(), (Req.ImageStatus(name), TheImage(resp)), b.runtime.View());
      hist := hist + [(Req.ImageStatus(name), TheImage(resp))];
    }
  }
}
