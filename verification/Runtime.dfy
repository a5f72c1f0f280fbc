/** The simulated container runtime: three stores of privately owned records, the event list and
    the ticker.  Everything that goes in or out is cloned, so no caller ever holds a stored object.

    The handlers of BuiltinCRIRuntime hold a lock from before Enqueue until after it returns, so
    one goroutine at a time uses this object; CriSystemTheorems proves that of the real system. */
module RuntimeStore {
  import opened Base
  import opened CriModel
  import opened CriTheorems
  import opened CriSystem
  import opened CriEffects
  import opened Records
  import Events

  // ---------- Lists of clones ----------

  /** keys is an order of the map keys outside todo whose values pass the filter. */
  ghost predicate Scanned<T(!new)>(m: map<string, T>, keep: T -> bool, todo: set<string>, keys: seq<string>) {
    && Distinct(keys)
    && forall k :: k in keys <==> k in m && k !in todo && keep(m[k])
  }

  lemma ScanNext<T(!new)>(m: map<string, T>, keep: T -> bool, todo: set<string>, keys: seq<string>, k: string)
    requires Scanned(m, keep, todo, keys) && k in todo && k in m
    ensures Scanned(m, keep, todo - {k}, if keep(m[k]) then keys + [k] else keys)
  {}

  function KeepPod(f: Option<PodFilter>): PodCell -> bool {
    x => MatchPodCell(x, f)
  }

  function KeepCtr(f: Option<ContainerFilter>): CtrCell -> bool {
    x => MatchCtrCell(x, f)
  }

  function KeepImage(f: Option<Option<string>>): ImageRec -> bool {
    x => f.None? || MatchImage(x, f.value)
  }

  /** A stored handle is made of objects of repr and has the recorded value. */
  ghost predicate PodIs(x: Sandbox, v: PodCell, repr: set<object>)
    reads repr
  {
    x.Within(repr) && x.Cell() == v
  }

  ghost predicate CtrIs(x: Container, v: CtrCell, repr: set<object>)
    reads repr
  {
    x.Within(repr) && x.Cell() == v
  }

  ghost predicate ImageIs(x: Image, v: ImageRec, repr: set<object>)
    reads repr
  {
    x.Parts() <= repr && x.Val() == v
  }

  /** The listed handles are made of `owned` objects and carry the values of their keys. */
  ghost predicate PodsAre(list: seq<Sandbox>, keys: seq<string>, m: map<string, PodCell>, owned: set<object>)
    reads owned
  {
    && |list| == |keys|
    && forall i :: 0 <= i < |list| ==>
         keys[i] in m && PodIs(list[i], m[keys[i]], owned)
  }

  lemma PodsAdd(list: seq<Sandbox>, keys: seq<string>, m: map<string, PodCell>, owned: set<object>, c: Sandbox, k: string)
    requires PodsAre(list, keys, m, owned) && k in m && c.Cell() == m[k]
    ensures PodsAre(list + [c], keys + [k], m, owned + c.Parts())
  {}

  ghost predicate CtrsAre(list: seq<Container>, keys: seq<string>, m: map<string, CtrCell>, owned: set<object>)
    reads owned
  {
    && |list| == |keys|
    && forall i :: 0 <= i < |list| ==>
         keys[i] in m && CtrIs(list[i], m[keys[i]], owned)
  }

  lemma CtrsAdd(list: seq<Container>, keys: seq<string>, m: map<string, CtrCell>, owned: set<object>, c: Container, k: string)
    requires CtrsAre(list, keys, m, owned) && k in m && c.Cell() == m[k]
    ensures CtrsAre(list + [c], keys + [k], m, owned + c.Parts())
  {}

  ghost predicate ImagesAre(list: seq<Image>, keys: seq<string>, m: map<string, ImageRec>, owned: set<object>)
    reads owned
  {
    && |list| == |keys|
    && forall i :: 0 <= i < |list| ==>
         keys[i] in m && ImageIs(list[i], m[keys[i]], owned)
  }

  lemma ImagesAdd(list: seq<Image>, keys: seq<string>, m: map<string, ImageRec>, owned: set<object>, c: Image, k: string)
    requires ImagesAre(list, keys, m, owned) && k in m && c.Val() == m[k]
    ensures ImagesAre(list + [c], keys + [k], m, owned + c.Parts())
  {}

  /** Handles made of `owned` objects, of which no two share one. */
  ghost predicate Separate(list: seq<Container>, owned: set<object>)
    reads owned
  {
    && (forall i :: 0 <= i < |list| ==> list[i].Within(owned))
    && forall i, j :: 0 <= i < j < |list| ==> list[i].Parts() !! list[j].Parts()
  }

  lemma SeparateAdd(list: seq<Container>, owned: set<object>, c: Container)
    requires Separate(list, owned) && c.Parts() !! owned
    ensures Separate(list + [c], owned + c.Parts())
  {
    forall i | 0 <= i < |list| ensures list[i].Parts() !! c.Parts() {
      assert list[i].Within(owned);
    }
  }

  /** The other handles do without the objects of the first. */
  lemma CtrsTail(list: seq<Container>, keys: seq<string>, m: map<string, CtrCell>, owned: set<object>)
    requires list != [] && Separate(list, owned) && CtrsAre(list, keys, m, owned)
    ensures keys != [] && keys[0] in m && CtrIs(list[0], m[keys[0]], owned)
    ensures Separate(list[1..], owned - list[0].Parts()) && CtrsAre(list[1..], keys[1..], m, owned - list[0].Parts())
  {
    forall i | 0 < i < |list|
      ensures CtrIs(list[i], m[keys[i]], owned - list[0].Parts()) && list[i].Within(owned - list[0].Parts())
    {
      assert CtrIs(list[i], m[keys[i]], owned) && list[0].Parts() !! list[i].Parts();
    }
  }

  // ---------- Stores of whole records ----------

  /** What the three maps hold. */
  datatype Contents = Contents(pods: map<string, PodCell>, ctrs: map<string, CtrCell>, imgs: map<string, ImageRec>)

  ghost predicate PodsWhole(m: map<string, PodCell>) { forall k :: k in m ==> m[k].Whole() }

  ghost predicate CtrsWhole(m: map<string, CtrCell>) { forall k :: k in m ==> m[k].Whole() }

  /** The records that have both parts. */
  function PodRecs(m: map<string, PodCell>): map<string, SandboxRec> {
    map k | k in m && m[k].Whole() :: m[k].Rec()
  }

  function CtrRecs(m: map<string, CtrCell>): map<string, ContainerRec> {
    map k | k in m && m[k].Whole() :: m[k].Rec()
  }

  lemma PodWholeAt(m: map<string, PodCell>, k: string)
    requires PodsWhole(m) && k in m
    ensures m[k].Whole() && k in PodRecs(m) && PodRecs(m)[k] == m[k].Rec()
  {}

  lemma CtrWholeAt(m: map<string, CtrCell>, k: string)
    requires CtrsWhole(m) && k in m
    ensures m[k].Whole() && k in CtrRecs(m) && CtrRecs(m)[k] == m[k].Rec()
  {}

  lemma PodRecsPut(m: map<string, PodCell>, id: string, x: SandboxRec)
    ensures PodRecs(m[id := PodCellOf(x)]) == PodRecs(m)[id := x]
    ensures PodsWhole(m) ==> PodsWhole(m[id := PodCellOf(x)])
  {}

  lemma CtrRecsPut(m: map<string, CtrCell>, id: string, y: ContainerRec)
    ensures CtrRecs(m[id := CtrCellOf(y)]) == CtrRecs(m)[id := y]
    ensures CtrsWhole(m) ==> CtrsWhole(m[id := CtrCellOf(y)])
  {}

  lemma PodRecsDrop(m: map<string, PodCell>, id: string)
    ensures PodRecs(Without(m, id)) == PodRecs(m) - {id}
    ensures PodsWhole(m) ==> PodsWhole(Without(m, id))
  {}

  lemma CtrRecsDrop(m: map<string, CtrCell>, id: string)
    ensures CtrRecs(Without(m, id)) == CtrRecs(m) - {id}
    ensures CtrsWhole(m) ==> CtrsWhole(Without(m, id))
  {}

  /** A scan of a store of whole records is the scan of the model. */
  lemma PodScanIs(st: Store, m: map<string, PodCell>, id: string, r: Option<PodCell>)
    requires PodsWhole(m) && st.sandboxes == PodRecs(m) && Scan(m, KeepPod(Some(PodById(id))), r)
    ensures r.Some? ==> r.value.Whole()
    ensures SandboxScan(st, id, if r.None? then None else Some(r.value.Rec()))
  {
    if r.Some? {
      var k :| k in m && MatchPodCell(m[k], Some(PodById(id))) && m[k] == r.value;
      assert k in st.sandboxes && MatchSandbox(st.sandboxes[k], PodById(id));
    } else {
      forall k | k in st.sandboxes ensures !MatchSandbox(st.sandboxes[k], PodById(id)) {
        assert !KeepPod(Some(PodById(id)))(m[k]);
      }
    }
  }

  lemma CtrScanIs(st: Store, m: map<string, CtrCell>, id: string, r: Option<CtrCell>)
    requires CtrsWhole(m) && st.containers == CtrRecs(m) && Scan(m, KeepCtr(Some(ContainerById(id))), r)
    ensures r.Some? ==> r.value.Whole()
    ensures ContainerScan(st, id, if r.None? then None else Some(r.value.Rec()))
  {
    if r.Some? {
      var k :| k in m && MatchCtrCell(m[k], Some(ContainerById(id))) && m[k] == r.value;
      assert k in st.containers && MatchContainer(st.containers[k], ContainerById(id));
    } else {
      forall k | k in st.containers ensures !MatchContainer(st.containers[k], ContainerById(id)) {
        assert !KeepCtr(Some(ContainerById(id)))(m[k]);
      }
    }
  }

  lemma WalkNext(m: map<string, ContainerRec>, sbid: string, at: map<string, Time>, keys: seq<string>, i: nat)
    requires i < |keys| && keys[i] in m
    ensures var k, w := keys[i], Walk(m, sbid, at, keys[..i]);
            Walk(m, sbid, at, keys[..i + 1])
            == if m[k].p.sandboxId == sbid then w[m[k].p.id := SetExited(m[k], StopTime(at, m[k].p.id))] else w
  {
    assert keys[..i + 1][..i] == keys[..i];
  }

  lemma WalkEnds(m: map<string, ContainerRec>, sbid: string, at: map<string, Time>, keys: seq<string>)
    ensures Walk(m, sbid, at, keys[..0]) == m && Walk(m, sbid, at, keys[..|keys|]) == Walk(m, sbid, at, keys)
  {
    assert keys[..|keys|] == keys;
  }

  lemma ScannedCovers(m: map<string, CtrCell>, sbid: string, keys: seq<string>)
    requires CtrsWhole(m) && Scanned(m, KeepCtr(None), {}, keys)
    ensures Covers(CtrRecs(m), sbid, keys)
  {}

  lemma CtrsCount(list: seq<Container>, keys: seq<string>, m: map<string, CtrCell>, owned: set<object>)
    requires CtrsAre(list, keys, m, owned)
    ensures |list| == |keys|
  {}

  function Chans(evs: seq<Event>): set<nat> { set e | e in evs :: e.done }

  lemma ChansSnoc(evs: seq<Event>, e: Event)
    ensures Chans(evs + [e]) == Chans(evs) + {e.done}
  {
    forall x | x in evs + [e] ensures x.done in Chans(evs) + {e.done} {}
    assert forall x :: x in evs ==> x in evs + [e];
    assert e in evs + [e];
  }

  lemma NoChans()
    ensures Chans([]) == {}
  {}

  lemma NoTicks(all: seq<Event>, since: nat, st: Store)
    ensures Events.Left(all, since, since) == all && Effects(st, Events.RunBy(all, since, since), st)
  {}

  /** One more tick of an Enqueue that waits. */
  lemma OneTick(st: Store, all: seq<Event>, since: nat, now: nat, mid: Store, st1: Store)
    requires since <= now && Effects(st, Events.RunBy(all, since, now), mid)
    requires Effects(mid, Events.Due(Events.Left(all, since, now), now + 1), st1)
    ensures Effects(st, Events.RunBy(all, since, now + 1), st1)
    ensures Events.Later(Events.Left(all, since, now), now + 1) == Events.Left(all, since, now + 1)
  {
    hide Effects, Events.Due, Events.Later;
    EffectsJoin(st, Events.RunBy(all, since, now), mid, Events.Due(Events.Left(all, since, now), now + 1), st1);
    Events.LeftNext(all, since, now);
  }

  /** Whose channels such a tick closes: e's own is the greatest number, so it is e that was run. */
  lemma TickCloses(all: seq<Event>, since: nat, now: nat, e: Event)
    requires since <= now && e in all && (forall x :: x in all ==> x.done < e.done || x == e)
    requires now > since ==> now < e.target
    ensures var closes := Chans(Events.Due(Events.Left(all, since, now), now + 1));
            && (e.done in closes <==> e.target <= now + 1)
            && (forall d :: d in closes ==> d <= e.done)
  {
    var left := Events.Left(all, since, now);
    forall x ensures x in left <==> x in all && (now > since ==> x.target > now) {
      Events.SplitMembers(all, now, x);
    }
    forall x ensures x in Events.Due(left, now + 1) <==> x in left && x.target <= now + 1 {
      Events.SplitMembers(left, now + 1, x);
    }
  }

  /** When its channel is closed an event is among those run, and no longer pending. */
  lemma AtTheEnd(all: seq<Event>, since: nat, now: nat, e: Event)
    requires now > since && e in all && e.target <= now
    ensures e in Events.RunBy(all, since, now) && e !in Events.Left(all, since, now)
    ensures forall x :: x in Events.Left(all, since, now) ==> x in all
  {
    Events.RunByConserves(all, since, now);
    forall x ensures x in Events.Left(all, since, now) ==> x in all && x.target > now {
      Events.SplitMembers(all, now, x);
    }
    assert e in multiset(all);
  }

  class Runtime {
    var sandboxes: map<string, Sandbox>
    var containers: map<string, Container>
    var images: map<string, Image>
    var seqNo: Word
    var events: seq<Event>
    var made: nat
    var closed: set<nat>

    // The values of the stored handles, and every object reachable from them.
    ghost var pods: map<string, PodCell>
    ghost var ctrs: map<string, CtrCell>
    ghost var imgs: map<string, ImageRec>
    ghost var podRepr: set<object>
    ghost var ctrRepr: set<object>
    ghost var imgRepr: set<object>

    ghost predicate PodsOk()
      reads this`sandboxes, this`pods, this`podRepr, podRepr
    {
      && this !in podRepr
      && pods.Keys == sandboxes.Keys
      && (forall k :: k in sandboxes ==> PodIs(sandboxes[k], pods[k], podRepr))
    }

    ghost predicate CtrsOk()
      reads this`containers, this`ctrs, this`ctrRepr, ctrRepr
    {
      && this !in ctrRepr
      && ctrs.Keys == containers.Keys
      && (forall k :: k in containers ==> CtrIs(containers[k], ctrs[k], ctrRepr))
    }

    ghost predicate ImgsOk()
      reads this`images, this`imgs, this`imgRepr, imgRepr
    {
      && this !in imgRepr
      && imgs.Keys == images.Keys
      && (forall k :: k in images ==> ImageIs(images[k], imgs[k], imgRepr))
    }

    ghost predicate Valid()
      reads this, podRepr, ctrRepr, imgRepr
    {
      PodsOk() && CtrsOk() && ImgsOk() && this !in Repr()
    }

    ghost function Held(): Contents reads this { Contents(pods, ctrs, imgs) }

    /** Every stored handle has both parts; the handlers and their callbacks store no others. */
    ghost predicate WholeStore() reads this { PodsWhole(pods) && CtrsWhole(ctrs) }

    /** The store of the model. */
    ghost function View(): Store reads this { Store(PodRecs(pods), CtrRecs(ctrs), imgs) }

    ghost function Repr(): set<object> reads this { podRepr + ctrRepr + imgRepr }

    constructor ()
      ensures Valid() && WholeStore() && Held() == Contents(map[], map[], map[]) && View() == EMPTY
      ensures Repr() == {} && Idle() && seqNo == 0
    {
      sandboxes, containers, images := map[], map[], map[];
      seqNo, events, made, closed := 0, [], 0, {};
      pods, ctrs, imgs := map[], map[], map[];
      podRepr, ctrRepr, imgRepr := {}, {}, {};
    }

    /** Snapshot isolation: whatever happens to objects outside the store, in particular to every
        handle that was ever passed in or handed out, its contents are what they were. */
    twostate lemma Isolated()
      requires old(Valid()) && unchanged(this) && forall o :: o in old(Repr()) ==> unchanged(o)
      ensures Valid() && Held() == old(Held())
      ensures forall k :: k in sandboxes ==> sandboxes[k].Cell() == old(pods[k])
      ensures forall k :: k in containers ==> containers[k].Cell() == old(ctrs[k])
      ensures forall k :: k in images ==> images[k].Val() == old(imgs[k])
    {}

    // ---------- Sandboxes ----------

    /** AddSandbox and UpdateSandbox, which share one body. */
    method PutPod(id: string, sb: Sandbox)
      requires PodsOk()
      modifies this`sandboxes, this`pods, this`podRepr
      ensures PodsOk() && fresh(podRepr - old(podRepr))
      ensures pods == old(pods)[id := sb.Cell()]
    {
      hide PodsOk;
      var c := sb.Clone();
      KeepPodClone(id, c);
    }

    method KeepPodClone(id: string, c: Sandbox)
      requires PodsOk() && this !in c.Parts()
      modifies this`sandboxes, this`pods, this`podRepr
      ensures PodsOk() && podRepr == old(podRepr) + c.Parts()
      ensures pods == old(pods)[id := c.Cell()]
    {
      hide PodsWhole, PodRecs;
      podRepr := podRepr + c.Parts();
      sandboxes, pods := sandboxes[id := c], pods[id := c.Cell()];
    }

    method RemoveSandbox(id: string)
      requires PodsOk()
      modifies this`sandboxes, this`pods
      ensures PodsOk() && pods == Without(old(pods), id)
      ensures PodRecs(pods) == old(PodRecs(pods)) - {id} && (old(PodsWhole(pods)) ==> PodsWhole(pods))
    {
      PodRecsDrop(pods, id);
      sandboxes, pods := Without(sandboxes, id), Without(pods, id);
    }

    /** One step of the scan. */
    method CloneIfMatch(k: string, f: Option<PodFilter>) returns (c: Sandbox?)
      requires PodsOk() && k in sandboxes
      ensures c == null <==> !MatchPodCell(pods[k], f)
      ensures c != null ==> fresh(c.Parts()) && c.Cell() == pods[k]
    {
      c := null;
      sandboxes[k].MatchIs(f);
      if sandboxes[k].Match(f) {
        c := sandboxes[k].Clone();
      }
    }

    lemma PodsStart(f: Option<PodFilter>)
      requires PodsOk()
      ensures PodsAre([], [], pods, {}) && Scanned(pods, KeepPod(f), sandboxes.Keys, [])
    {}

    /** One iteration of the loop below. */
    method NextPod(list0: seq<Sandbox>, ghost keys0: seq<string>, ghost owned0: set<object>, ghost todo: set<string>, k: string,
           f: Option<PodFilter>)
      returns (list: seq<Sandbox>, ghost keys: seq<string>, ghost owned: set<object>)
      requires PodsOk() && k in todo && k in sandboxes
      requires PodsAre(list0, keys0, pods, owned0)
      requires Scanned(pods, KeepPod(f), todo, keys0)
      ensures fresh(owned - owned0) && PodsAre(list, keys, pods, owned)
      ensures Scanned(pods, KeepPod(f), todo - {k}, keys)
    {
      hide PodsAre, Scanned;
      list, keys, owned := list0, keys0, owned0;
      ScanNext(pods, KeepPod(f), todo, keys, k);
      var c := CloneIfMatch(k, f);
      if c != null {
        PodsAdd(list, keys, pods, owned, c, k);
        list, keys, owned := list + [c], keys + [k], owned + c.Parts();
      }
    }

    /** A fresh clone of each matching handle, in some order of the map. */
    method ListSandboxes(f: Option<PodFilter>)
      returns (list: seq<Sandbox>, ghost keys: seq<string>, ghost owned: set<object>)
      requires PodsOk()
      ensures fresh(owned) && PodsAre(list, keys, pods, owned)
      ensures Scanned(pods, KeepPod(f), {}, keys)
    {
      hide *;
      list, keys, owned := [], [], {};
      var todo := sandboxes.Keys;
      PodsStart(f);
      while todo != {}
        invariant PodsOk() && todo <= sandboxes.Keys
        invariant fresh(owned) && PodsAre(list, keys, pods, owned)
        invariant Scanned(pods, KeepPod(f), todo, keys)
        decreases todo
      {
        var k :| k in todo;
        list, keys, owned := NextPod(list, keys, owned, todo, k, f);
        todo := todo - {k};
      }
    }

    /** GetSandbox: the first of a filtered scan.  With a non-empty id this is the map lookup; an
        empty id returns any sandbox. */
    method GetSandbox(id: string) returns (sb: Sandbox?)
      requires PodsOk()
      ensures sb != null ==> fresh(sb.Parts())
      ensures Scan(pods, KeepPod(Some(PodById(id))), if sb == null then None else Some(sb.Cell()))
      ensures PodsWhole(pods) ==> sb != null ==> sb.Whole()
      ensures PodsWhole(pods) ==> SandboxScan(View(), id, if sb == null then None else Some(sb.Val()))
    {
      hide PodsOk, PodsWhole, PodRecs, SandboxScan, KeepPod;
      var list, keys, owned := ListSandboxes(Some(PodById(id)));
      sb := null;
      if list != [] {
        sb := list[0];
        assert keys[0] in keys && PodIs(list[0], pods[keys[0]], owned);
      }
      if PodsWhole(pods) {
        PodScanIs(View(), pods, id, if sb == null then None else Some(sb.Cell()));
      }
    }

    // ---------- Containers ----------

    /** AddContainer and UpdateContainer, which share one body. */
    method PutCtr(id: string, c: Container)
      requires CtrsOk()
      modifies this`containers, this`ctrs, this`ctrRepr
      ensures CtrsOk() && fresh(ctrRepr - old(ctrRepr))
      ensures ctrs == old(ctrs)[id := c.Cell()]
    {
      hide CtrsOk;
      var k := c.Clone();
      KeepCtrClone(id, k);
    }

    method KeepCtrClone(id: string, k: Container)
      requires CtrsOk() && this !in k.Parts()
      modifies this`containers, this`ctrs, this`ctrRepr
      ensures CtrsOk() && ctrRepr == old(ctrRepr) + k.Parts()
      ensures ctrs == old(ctrs)[id := k.Cell()]
    {
      ctrRepr := ctrRepr + k.Parts();
      containers, ctrs := containers[id := k], ctrs[id := k.Cell()];
    }

    method RemoveContainer(id: string)
      requires CtrsOk()
      modifies this`containers, this`ctrs
      ensures CtrsOk() && ctrs == Without(old(ctrs), id)
      ensures CtrRecs(ctrs) == old(CtrRecs(ctrs)) - {id} && (old(CtrsWhole(ctrs)) ==> CtrsWhole(ctrs))
    {
      CtrRecsDrop(ctrs, id);
      containers, ctrs := Without(containers, id), Without(ctrs, id);
    }

    method CloneCtrIfMatch(k: string, f: Option<ContainerFilter>) returns (c: Container?)
      requires CtrsOk() && k in containers
      ensures c == null <==> !MatchCtrCell(ctrs[k], f)
      ensures c != null ==> fresh(c.Parts()) && c.Cell() == ctrs[k]
    {
      c := null;
      containers[k].MatchIs(f);
      if containers[k].Match(f) {
        c := containers[k].Clone();
      }
    }

    lemma CtrsStart(f: Option<ContainerFilter>)
      requires CtrsOk()
      ensures CtrsAre([], [], ctrs, {}) && Scanned(ctrs, KeepCtr(f), containers.Keys, []) && Separate([], {})
    {}

    /** One iteration of the loop below. */
    method NextCtr(list0: seq<Container>, ghost keys0: seq<string>, ghost owned0: set<object>, ghost todo: set<string>, k: string,
           f: Option<ContainerFilter>)
      returns (list: seq<Container>, ghost keys: seq<string>, ghost owned: set<object>)
      requires CtrsOk() && k in todo && k in containers
      requires CtrsAre(list0, keys0, ctrs, owned0) && Separate(list0, owned0)
      requires Scanned(ctrs, KeepCtr(f), todo, keys0)
      ensures fresh(owned - owned0) && CtrsAre(list, keys, ctrs, owned) && Separate(list, owned)
      ensures Scanned(ctrs, KeepCtr(f), todo - {k}, keys)
    {
      hide CtrsAre, Scanned, Separate;
      list, keys, owned := list0, keys0, owned0;
      ScanNext(ctrs, KeepCtr(f), todo, keys, k);
      var c := CloneCtrIfMatch(k, f);
      if c != null {
        SeparateAdd(list, owned, c);
        CtrsAdd(list, keys, ctrs, owned, c, k);
        list, keys, owned := list + [c], keys + [k], owned + c.Parts();
      }
    }

    method ListContainers(f: Option<ContainerFilter>)
      returns (list: seq<Container>, ghost keys: seq<string>, ghost owned: set<object>)
      requires CtrsOk()
      ensures fresh(owned) && CtrsAre(list, keys, ctrs, owned) && Separate(list, owned)
      ensures Scanned(ctrs, KeepCtr(f), {}, keys)
    {
      hide *;
      list, keys, owned := [], [], {};
      var todo := containers.Keys;
      CtrsStart(f);
      while todo != {}
        invariant CtrsOk() && todo <= containers.Keys
        invariant fresh(owned) && CtrsAre(list, keys, ctrs, owned) && Separate(list, owned)
        invariant Scanned(ctrs, KeepCtr(f), todo, keys)
        decreases todo
      {
        var k :| k in todo;
        list, keys, owned := NextCtr(list, keys, owned, todo, k, f);
        todo := todo - {k};
      }
    }

    method GetContainer(id: string) returns (c: Container?)
      requires CtrsOk()
      ensures c != null ==> fresh(c.Parts())
      ensures Scan(ctrs, KeepCtr(Some(ContainerById(id))), if c == null then None else Some(c.Cell()))
      ensures CtrsWhole(ctrs) ==> c != null ==> c.Whole()
      ensures CtrsWhole(ctrs) ==> ContainerScan(View(), id, if c == null then None else Some(c.Val()))
    {
      hide CtrsOk, CtrsWhole, CtrRecs, ContainerScan, KeepCtr;
      var list, keys, owned := ListContainers(Some(ContainerById(id)));
      c := null;
      if list != [] {
        c := list[0];
        assert keys[0] in keys && CtrIs(list[0], ctrs[keys[0]], owned);
      }
      if CtrsWhole(ctrs) {
        CtrScanIs(View(), ctrs, id, if c == null then None else Some(c.Cell()));
      }
    }

    // ---------- Images ----------

    method AddImage(id: string, img: Image)
      requires ImgsOk()
      modifies this`images, this`imgs, this`imgRepr
      ensures ImgsOk() && fresh(imgRepr - old(imgRepr))
      ensures imgs == old(imgs)[id := img.Val()]
    {
      var c := img.Clone();
      imgRepr := imgRepr + c.Parts();
      images, imgs := images[id := c], imgs[id := img.Val()];
    }

    method RemoveImage(id: string)
      requires ImgsOk()
      modifies this`images, this`imgs
      ensures ImgsOk() && imgs == Without(old(imgs), id)
    {
      images, imgs := Without(images, id), Without(imgs, id);
    }

    method CloneImageIfMatch(k: string, f: Option<Option<string>>) returns (c: Image?)
      requires ImgsOk() && k in images
      ensures c == null <==> !(f.None? || MatchImage(imgs[k], f.value))
      ensures c != null ==> fresh(c.Parts()) && c.Val() == imgs[k]
    {
      c := null;
      images[k].MatchIs(f);
      if images[k].Match(f) {
        c := images[k].Clone();
      }
    }

    lemma ImagesStart(f: Option<Option<string>>)
      requires ImgsOk()
      ensures ImagesAre([], [], imgs, {}) && Scanned(imgs, KeepImage(f), images.Keys, [])
    {}

    /** One iteration of the loop below. */
    method NextImage(list0: seq<Image>, ghost keys0: seq<string>, ghost owned0: set<object>, ghost todo: set<string>, k: string,
           f: Option<Option<string>>)
      returns (list: seq<Image>, ghost keys: seq<string>, ghost owned: set<object>)
      requires ImgsOk() && k in todo && k in images
      requires ImagesAre(list0, keys0, imgs, owned0)
      requires Scanned(imgs, KeepImage(f), todo, keys0)
      ensures fresh(owned - owned0) && ImagesAre(list, keys, imgs, owned)
      ensures Scanned(imgs, KeepImage(f), todo - {k}, keys)
    {
      hide ImagesAre, Scanned;
      list, keys, owned := list0, keys0, owned0;
      ScanNext(imgs, KeepImage(f), todo, keys, k);
      var c := CloneImageIfMatch(k, f);
      if c != null {
        ImagesAdd(list, keys, imgs, owned, c, k);
        list, keys, owned := list + [c], keys + [k], owned + c.Parts();
      }
    }

    method ListImages(f: Option<Option<string>>)
      returns (list: seq<Image>, ghost keys: seq<string>, ghost owned: set<object>)
      requires ImgsOk()
      ensures fresh(owned) && ImagesAre(list, keys, imgs, owned)
      ensures Scanned(imgs, KeepImage(f), {}, keys)
    {
      hide *;
      list, keys, owned := [], [], {};
      var todo := images.Keys;
      ImagesStart(f);
      while todo != {}
        invariant ImgsOk() && todo <= images.Keys
        invariant fresh(owned) && ImagesAre(list, keys, imgs, owned)
        invariant Scanned(imgs, KeepImage(f), todo, keys)
        decreases todo
      {
        var k :| k in todo;
        list, keys, owned := NextImage(list, keys, owned, todo, k, f);
        todo := todo - {k};
      }
    }

    method GetImage(name: string) returns (img: Image?)
      requires ImgsOk()
      ensures img != null ==> fresh(img.Parts())
      ensures Scan(imgs, KeepImage(Some(ImageByName(name))), if img == null then None else Some(img.Val()))
      ensures ImageScan(View(), name, if img == null then None else Some(img.Val()))
    {
      hide ImgsOk, PodRecs, CtrRecs;
      var list, keys, owned := ListImages(Some(ImageByName(name)));
      if list == [] {
        return null;
      }
      img := list[0];
      assert keys[0] in keys && ImageIs(list[0], imgs[keys[0]], owned);
    }

    // ---------- Callbacks ----------

    method PutAssigned(id: string, sb: Sandbox, state: PodState)
      requires PodsOk() && PodsWhole(pods) && sb.Whole() && sb.p !in podRepr && sb.s !in podRepr
      modifies this`sandboxes, this`pods, this`podRepr, sb.p, sb.s
      ensures PodsOk() && PodsWhole(pods) && fresh(podRepr - old(podRepr))
      ensures PodRecs(pods) == old(PodRecs(pods))[id := SetPodState(old(sb.Val()), state)]
    {
      hide PodsOk, PodsWhole, PodRecs;
      PodRecsPut(pods, id, SetPodState(sb.Val(), state));
      sb.Assign(state);
      PutPod(id, sb);
    }

    /** A callback's get, assign and update of one sandbox; r is what the get found. */
    method SetPod(id: string, state: PodState) returns (ghost r: Option<SandboxRec>)
      requires PodsOk() && PodsWhole(pods)
      modifies this`sandboxes, this`pods, this`podRepr
      ensures PodsOk() && PodsWhole(pods) && fresh(podRepr - old(podRepr))
      ensures SandboxScan(old(View()), id, r)
      ensures PodRecs(pods) == if r.None? then old(PodRecs(pods)) else old(PodRecs(pods))[id := SetPodState(r.value, state)]
    {
      hide PodsOk, CtrsOk, PodsWhole, PodRecs, SandboxScan;
      r := None;
      var sb := GetSandbox(id);
      if sb != null {
        r := Some(sb.Val());
        PutAssigned(id, sb, state);
      }
    }

    method PutRunning(id: string, c: Container, now: Time)
      requires CtrsOk() && CtrsWhole(ctrs) && c.Whole() && c.p !in ctrRepr && c.s !in ctrRepr
      modifies this`containers, this`ctrs, this`ctrRepr, c.p, c.s
      ensures CtrsOk() && CtrsWhole(ctrs) && fresh(ctrRepr - old(ctrRepr))
      ensures CtrRecs(ctrs) == old(CtrRecs(ctrs))[id := SetRunning(old(c.Val()), now)]
    {
      hide CtrsOk, CtrsWhole, CtrRecs;
      CtrRecsPut(ctrs, id, SetRunning(c.Val(), now));
      c.AssignRunning(now);
      PutCtr(id, c);
    }

    method PutExited(id: string, c: Container, now: Time)
      requires CtrsOk() && CtrsWhole(ctrs) && c.Whole() && c.p !in ctrRepr && c.s !in ctrRepr
      modifies this`containers, this`ctrs, this`ctrRepr, c.p, c.s
      ensures CtrsOk() && CtrsWhole(ctrs) && fresh(ctrRepr - old(ctrRepr))
      ensures CtrRecs(ctrs) == old(CtrRecs(ctrs))[id := SetExited(old(c.Val()), now)]
    {
      hide CtrsOk, CtrsWhole, CtrRecs;
      CtrRecsPut(ctrs, id, SetExited(c.Val(), now));
      c.AssignExited(now);
      PutCtr(id, c);
    }

    method SetCtrRunning(id: string, now: Time) returns (ghost r: Option<ContainerRec>)
      requires CtrsOk() && CtrsWhole(ctrs)
      modifies this`containers, this`ctrs, this`ctrRepr
      ensures CtrsOk() && CtrsWhole(ctrs) && fresh(ctrRepr - old(ctrRepr))
      ensures ContainerScan(old(View()), id, r)
      ensures CtrRecs(ctrs) == if r.None? then old(CtrRecs(ctrs)) else old(CtrRecs(ctrs))[id := SetRunning(r.value, now)]
    {
      hide PodsOk, CtrsOk, CtrsWhole, CtrRecs, ContainerScan;
      r := None;
      var c := GetContainer(id);
      if c != null {
        r := Some(c.Val());
        PutRunning(id, c, now);
      }
    }

    method SetCtrExited(id: string, now: Time) returns (ghost r: Option<ContainerRec>)
      requires CtrsOk() && CtrsWhole(ctrs)
      modifies this`containers, this`ctrs, this`ctrRepr
      ensures CtrsOk() && CtrsWhole(ctrs) && fresh(ctrRepr - old(ctrRepr))
      ensures ContainerScan(old(View()), id, r)
      ensures CtrRecs(ctrs) == if r.None? then old(CtrRecs(ctrs)) else old(CtrRecs(ctrs))[id := SetExited(r.value, now)]
    {
      hide PodsOk, CtrsOk, CtrsWhole, CtrRecs, ContainerScan;
      r := None;
      var c := GetContainer(id);
      if c != null {
        r := Some(c.Val());
        PutExited(id, c, now);
      }
    }

    /** One iteration of the loop below; `left` holds the objects of the handles still to do. */
    method ExitNext(list: seq<Container>, ghost keys: seq<string>, ghost left0: set<object>, i: nat, sbid: string,
                    at: map<string, Time>, ghost was: map<string, CtrCell>)
      returns (ghost left: set<object>)
      requires CtrsOk() && CtrsWhole(ctrs) && CtrsWhole(was) && i < |list| == |keys| && left0 !! ctrRepr + {this}
      requires Separate(list[i..], left0) && CtrsAre(list[i..], keys[i..], was, left0) && list[i].Whole()
      requires CtrRecs(ctrs) == Walk(CtrRecs(was), sbid, at, keys[..i])
      modifies this`containers, this`ctrs, this`ctrRepr, list[i].p, list[i].s
      ensures CtrsOk() && CtrsWhole(ctrs) && fresh(ctrRepr - old(ctrRepr)) && left <= left0 - {list[i].p, list[i].s}
      ensures Separate(list[i + 1..], left) && CtrsAre(list[i + 1..], keys[i + 1..], was, left)
      ensures CtrRecs(ctrs) == Walk(CtrRecs(was), sbid, at, keys[..i + 1])
    {
      hide CtrsOk, CtrsWhole, CtrRecs, CtrsAre, Separate, Walk;
      var v := list[i];
      assert v == list[i..][0] && keys[i] == keys[i..][0];
      assert list[i..][1..] == list[i + 1..] && keys[i..][1..] == keys[i + 1..];
      CtrsTail(list[i..], keys[i..], was, left0);
      CtrWholeAt(was, keys[i]);
      left := left0 - v.Parts();
      WalkNext(CtrRecs(was), sbid, at, keys, i);
      if v.p.sandboxId == sbid {
        PutExited(v.p.id, v, StopTime(at, v.p.id));
      }
    }

    /** The loop that ends the containers of a stopped sandbox. */
    method ExitCtrsOf(sbid: string, at: map<string, Time>) returns (ghost keys: seq<string>)
      requires CtrsOk() && CtrsWhole(ctrs)
      modifies this`containers, this`ctrs, this`ctrRepr
      ensures CtrsOk() && CtrsWhole(ctrs) && fresh(ctrRepr - old(ctrRepr))
      ensures Covers(old(CtrRecs(ctrs)), sbid, keys) && CtrRecs(ctrs) == Walk(old(CtrRecs(ctrs)), sbid, at, keys)
    {
      hide CtrsOk, CtrsWhole, CtrRecs, CtrsAre, Separate, Walk, Scanned, Covers;
      var list;
      ghost var left;
      list, keys, left := ListContainers(None);
      ghost var was := ctrs;
      assert list[0..] == list && keys[0..] == keys;
      ScannedCovers(was, sbid, keys);
      WalkEnds(CtrRecs(was), sbid, at, keys);
      CtrsCount(list, keys, was, left);
      for i := 0 to |list|
        invariant CtrsOk() && CtrsWhole(ctrs) && fresh(ctrRepr - old(ctrRepr)) && left !! ctrRepr && fresh(left)
        invariant Separate(list[i..], left) && CtrsAre(list[i..], keys[i..], was, left)
        invariant CtrRecs(ctrs) == Walk(CtrRecs(was), sbid, at, keys[..i])
      {
        assert list[i] == list[i..][0] && keys[i] == keys[i..][0];
        CtrsTail(list[i..], keys[i..], was, left);
        CtrWholeAt(was, keys[i]);
        left := ExitNext(list, keys, left, i, sbid, at, was);
      }
    }

    method RunCallback(cb: Callback)
      requires Valid() && WholeStore()
      modifies this`sandboxes, this`containers, this`images, this`pods, this`ctrs, this`imgs,
               this`podRepr, this`ctrRepr, this`imgRepr
      ensures Valid() && WholeStore() && fresh(Repr() - old(Repr()))
      ensures Effect(old(View()), cb, View())
    {
      hide PodsOk, CtrsOk, ImgsOk, PodsWhole, CtrsWhole, PodRecs, CtrRecs, SandboxScan, ContainerScan, Walk, Covers;
      match cb
      case ReadyPod(id) =>
        var r := SetPod(id, SandboxReady);
      case UnreadyPod(id, at) =>
        var r := SetPod(id, SandboxNotReady);
        var keys := ExitCtrsOf(id, at);
      case RunCtr(id, now) =>
        var r := SetCtrRunning(id, now);
      case ExitCtr(id, now) =>
        var r := SetCtrExited(id, now);
      case StoreImage(spec) =>
        var i: ImageSpec? := null;
        if spec.Some? {
          i := new ImageSpec(spec.value);
        }
        var img := new Image(i);
        AddImage(SpecName(spec), img);
    }

    // ---------- The event list ----------

    /** Channel numbers that have been given out are below the next one. */
    ghost predicate ChansOk() reads this {
      (forall d :: d in closed ==> d < made) && (forall e :: e in events ==> e.done < made)
    }

    /** No event is pending. */
    ghost predicate Idle() reads this { events == [] && ChansOk() }

    /** The callbacks of one tick, each followed by the close of its channel. */
    method RunAll(toRun: seq<Event>)
      requires Valid() && WholeStore()
      modifies this
      ensures Valid() && WholeStore() && fresh(Repr() - old(Repr()))
      ensures seqNo == old(seqNo) && made == old(made) && events == old(events)
      ensures closed == old(closed) + Chans(toRun)
      ensures Effects(old(View()), toRun, View())
    {
      hide PodsOk, CtrsOk, ImgsOk, PodsWhole, CtrsWhole, PodRecs, CtrRecs, Effect, Chans;
      assert toRun[..0] == [] && Chans([]) == {} by { NoChans(); }
      for i := 0 to |toRun|
        invariant Valid() && WholeStore() && fresh(Repr() - old(Repr()))
        invariant seqNo == old(seqNo) && made == old(made) && events == old(events)
        invariant closed == old(closed) + Chans(toRun[..i])
        invariant Effects(old(View()), toRun[..i], View())
      {
        ghost var mid := View();
        RunCallback(toRun[i].cb);
        closed := closed + {toRun[i].done};
        assert toRun[..i + 1] == toRun[..i] + [toRun[i]];
        ChansSnoc(toRun[..i], toRun[i]);
        EffectsSnoc(old(View()), toRun[..i], mid, toRun[i], View());
      }
      assert toRun[..|toRun|] == toRun;
    }

    /** One tick, with any number of events pending. */
    method Tick()
      requires Valid() && WholeStore() && seqNo + 1 < U64
      modifies this
      ensures Valid() && WholeStore() && fresh(Repr() - old(Repr()))
      ensures seqNo == old(seqNo) + 1 && made == old(made)
      ensures events == Events.Later(old(events), seqNo)
      ensures closed == old(closed) + Chans(Events.Due(old(events), seqNo))
      ensures Effects(old(View()), Events.Due(old(events), seqNo), View())
    {
      hide PodsOk, CtrsOk, ImgsOk, PodsWhole, CtrsWhole, PodRecs, CtrRecs, Effects, Events.Due, Events.Later, Chans;
      seqNo := AddWrap(seqNo, 1);
      var toRun, remaining := Events.Split(events, seqNo);
      events := remaining;
      RunAll(toRun);
    }

    /** Enqueue appends the event and then waits for its channel, whatever else is pending.  It
        returns exactly max(delay, 1) ticks later; its event e was run by those ticks, with the
        others that came due, each once, and the rest are left. */
    method Enqueue(delay: nat, cb: Callback) returns (ghost e: Event)
      requires Valid() && WholeStore() && ChansOk() && seqNo + delay + 1 < U64
      modifies this
      ensures Valid() && WholeStore() && fresh(Repr() - old(Repr())) && ChansOk()
      ensures e == Events.Event(old(seqNo) + delay, cb, old(made))
      ensures seqNo == old(seqNo) + (if delay == 0 then 1 else delay)
      ensures events == Events.Left(old(events) + [e], old(seqNo), seqNo) && e !in events
      ensures e in Events.RunBy(old(events) + [e], old(seqNo), seqNo)
      ensures Effects(old(View()), Events.RunBy(old(events) + [e], old(seqNo), seqNo), View())
    {
      hide PodsOk, CtrsOk, ImgsOk, PodsWhole, CtrsWhole, PodRecs, CtrRecs, Effects, Chans, Events.Due, Events.Later,
           Events.RunBy, Events.Left;
      var target, done := AddWrap(seqNo, delay), made;
      made := made + 1;
      events := events + [Events.Event(target, cb, done)];
      e := Events.Event(target, cb, done);
      ghost var all, since, last := events, seqNo, seqNo + if delay == 0 then 1 else delay;
      NoTicks(all, since, View());
      while done !in closed
        invariant Valid() && WholeStore() && fresh(Repr() - old(Repr())) && since <= seqNo <= last
        invariant made == done + 1 && (done in closed <==> seqNo == last)
        invariant (forall d :: d in closed ==> d < made)
        invariant events == Events.Left(all, since, seqNo)
        invariant Effects(old(View()), Events.RunBy(all, since, seqNo), View())
        decreases last - seqNo
      {
        ghost var mid, now := View(), seqNo;
        Tick();
        OneTick(old(View()), all, since, now, mid, View());
        TickCloses(all, since, now, e);
      }
      AtTheEnd(all, since, seqNo, e);
    }
  }
}
