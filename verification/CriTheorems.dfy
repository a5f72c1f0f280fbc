/** Properties of the sequential specification: the store invariant over every run, the stop
    cascade, state filters, and scans against the index. */
module CriTheorems {
  import opened Base
  import opened CriModel

  // ---------- The invariant ----------

  lemma PodRequestKeeps(st: Store, r: Req)
    requires RecordsInv(st) && (r.RunPod? || r.RemovePod?)
    ensures RecordsInv(Handle(st, r).0)
  {}

  lemma StopPodKeeps(st: Store, id: string, at: map<string, Time>)
    requires RecordsInv(st)
    ensures RecordsInv(Handle(st, StopPod(id, at)).0)
  {}

  lemma CreateKeeps(st: Store, r: Req)
    requires RecordsInv(st) && (r.CreateContainer? || r.RemoveContainer?)
    ensures RecordsInv(Handle(st, r).0)
  {}

  lemma RunStopKeeps(st: Store, r: Req)
    requires RecordsInv(st) && (r.StartContainer? || r.StopContainer?)
    ensures RecordsInv(Handle(st, r).0)
  {}

  lemma OtherRequestKeeps(st: Store, r: Req)
    requires RecordsInv(st) && !r.RunPod? && !r.RemovePod? && !r.StopPod?
    requires !r.CreateContainer? && !r.StartContainer? && !r.StopContainer? && !r.RemoveContainer?
    ensures RecordsInv(Handle(st, r).0)
  {}

  /** Handle, which looks ids up, keeps the invariant of the records for every request. */
  lemma HandleKeepsRecords(st: Store, r: Req)
    requires RecordsInv(st)
    ensures RecordsInv(Handle(st, r).0)
  {
    hide RecordsInv, Handle;
    match r
    case RunPod(_, _, _) => PodRequestKeeps(st, r);
    case RemovePod(_) => PodRequestKeeps(st, r);
    case StopPod(id, at) => StopPodKeeps(st, id, at);
    case CreateContainer(_, _, _, _) => CreateKeeps(st, r);
    case StartContainer(_, _) => RunStopKeeps(st, r);
    case StopContainer(_, _) => RunStopKeeps(st, r);
    case RemoveContainer(_) => CreateKeeps(st, r);
    case _ => OtherRequestKeeps(st, r);
  }

  /** Handle keeps the whole invariant exactly when it is not asked to pull a nil image. */
  lemma HandleKeepsInv(st: Store, r: Req)
    requires Inv(st)
    ensures Inv(Handle(st, r).0) <==> r != PullImage(None)
  {
    HandleKeepsRecords(st, r);
    hide RecordsInv;
    var images := Handle(st, r).0.images;
    if r == PullImage(None) {
      assert "" in images && images[""] == None;
    } else {
      assert forall k :: k in images ==> images[k] == Some(k);
    }
  }

  /** The store after serving some requests from the empty store. */
  function Replay(rs: seq<Req>): Store {
    if rs == [] then EMPTY else Handle(Replay(rs[..|rs| - 1]), rs[|rs| - 1]).0
  }

  lemma {:induction false} ReplayRecords(rs: seq<Req>)
    ensures RecordsInv(Replay(rs))
  {
    if rs != [] {
      ReplayRecords(rs[..|rs| - 1]);
      HandleKeepsRecords(Replay(rs[..|rs| - 1]), rs[|rs| - 1]);
    }
  }

  lemma {:induction false} ReplayInv(rs: seq<Req>)
    requires PullImage(None) !in rs
    ensures Inv(Replay(rs))
  {
    if rs != [] {
      ReplayInv(rs[..|rs| - 1]);
      HandleKeepsInv(Replay(rs[..|rs| - 1]), rs[|rs| - 1]);
    }
  }

  // ---------- Stopping a pod ----------

  /** Between two stores, sandbox id was stopped: it is not ready and its containers are exited in
      both views, and nothing else was touched. */
  ghost predicate Cascaded(st: Store, id: string, st1: Store) {
    && id in st1.sandboxes
    && st1.sandboxes[id].p.state == st1.sandboxes[id].s.state == SandboxNotReady
    && st1.sandboxes.Keys == st.sandboxes.Keys && st1.containers.Keys == st.containers.Keys
    && (forall k :: k in st.sandboxes && k != id ==> st1.sandboxes[k] == st.sandboxes[k])
    && (forall k :: k in st.containers && st.containers[k].p.sandboxId == id ==>
          && st1.containers[k].p.state == st1.containers[k].s.state == ContainerExited
          && st1.containers[k].s.finishedAt > 0)
    && (forall k :: k in st.containers && st.containers[k].p.sandboxId != id ==>
          st1.containers[k] == st.containers[k])
    && st1.images == st.images
  }

  lemma StopCascades(st: Store, id: string, at: map<string, Time>)
    requires Inv(st) && Handle(st, StopPod(id, at)).1 == Done
    ensures Cascaded(st, id, Handle(st, StopPod(id, at)).0)
  {}

  // ---------- Listing by state ----------

  /** Listing by a state filter, which tests the status, returns exactly the records whose own
      state field matches; and the timestamps that go with a state have been set. */
  lemma ListByState(rs: seq<Req>, want: PodState, cwant: ContainerState)
    ensures var st := Replay(rs);
            && (forall k :: k in st.sandboxes ==>
                  (MatchSandbox(st.sandboxes[k], PodFilter("", Some(want), None)) <==> st.sandboxes[k].p.state == want))
            && (forall k :: k in st.containers ==>
                  (MatchContainer(st.containers[k], ContainerFilter("", "", Some(cwant), None)) <==>
                   st.containers[k].p.state == cwant))
            && (forall k :: k in st.containers && st.containers[k].p.state == ContainerRunning ==>
                  st.containers[k].s.startedAt > 0)
            && (forall k :: k in st.containers && st.containers[k].p.state == ContainerExited ==>
                  st.containers[k].s.finishedAt > 0)
  {
    ReplayRecords(rs);
  }

  // ---------- Scans and the index ----------

  ghost predicate SandboxScan(st: Store, id: string, r: Option<SandboxRec>) {
    Scan(st.sandboxes, x => MatchSandbox(x, PodById(id)), r)
  }

  ghost predicate ContainerScan(st: Store, id: string, r: Option<ContainerRec>) {
    Scan(st.containers, x => MatchContainer(x, ContainerById(id)), r)
  }

  ghost predicate ImageScan(st: Store, name: string, r: Option<ImageRec>) {
    Scan(st.images, x => MatchImage(x, ImageByName(name)), r)
  }

  /** GetSandbox agrees with the map lookup, in every iteration order, exactly when the id is not
      empty or there is no sandbox at all. */
  lemma SandboxScanExact(st: Store, id: string)
    requires Inv(st)
    ensures (forall r :: SandboxScan(st, id, r) <==> r == Lookup(st.sandboxes, id)) <==>
            id != "" || st.sandboxes == map[]
  {
    if id != "" {
      forall r ensures SandboxScan(st, id, r) <==> r == Lookup(st.sandboxes, id) {
        ScanUnique(st.sandboxes, x => MatchSandbox(x, PodById(id)), id, r);
      }
    } else if st.sandboxes != map[] {
      var k :| k in st.sandboxes;
      assert MatchSandbox(st.sandboxes[k], PodById(id));
      assert SandboxScan(st, id, Some(st.sandboxes[k]));
    }
  }

  lemma ContainerScanExact(st: Store, id: string)
    requires Inv(st)
    ensures (forall r :: ContainerScan(st, id, r) <==> r == Lookup(st.containers, id)) <==>
            id != "" || st.containers == map[]
  {
    if id != "" {
      forall r ensures ContainerScan(st, id, r) <==> r == Lookup(st.containers, id) {
        ScanUnique(st.containers, x => MatchContainer(x, ContainerById(id)), id, r);
      }
    } else if st.containers != map[] {
      var k :| k in st.containers;
      assert MatchContainer(st.containers[k], ContainerById(id));
      assert ContainerScan(st, id, Some(st.containers[k]));
    }
  }

  /** An empty image name selects every image, so it agrees only when "" is the one stored name
      or none is. */
  lemma ImageScanExact(st: Store, name: string)
    requires Inv(st)
    ensures (forall r :: ImageScan(st, name, r) <==> r == Lookup(st.images, name)) <==>
            name != "" || st.images.Keys <= {""}
  {
    if name != "" || st.images.Keys <= {""} {
      forall r ensures ImageScan(st, name, r) <==> r == Lookup(st.images, name) {
        ScanUnique(st.images, x => MatchImage(x, ImageByName(name)), name, r);
      }
    } else {
      var k :| k in st.images && k != "";
      assert MatchImage(st.images[k], ImageByName(name));
      assert ImageScan(st, name, Some(st.images[k]));
    }
  }
}
