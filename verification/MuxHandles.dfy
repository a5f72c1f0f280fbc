/** Conservation of descriptor handles: every step creates a block of handles at the reader,
    moves the reader's handles as a whole, or leaves every place as it was. */
module MuxHandles {
  import opened Base
  import opened Wire
  import opened Mux
  import opened MuxInvariant

  /** Nothing moved. */
  lemma Same(at: Loc -> seq<Handle>, at1: Loc -> seq<Handle>, place: map<nat, Loc>, created: nat)
    requires Conserved(at, place, created)
    requires forall loc :: at1(loc) == at(loc)
    ensures Conserved(at1, place, created)
  {
    forall id | id in place ensures exists i :: 0 <= i < |at1(place[id])| && at1(place[id])[i].id == id {
      var i :| 0 <= i < |at(place[id])| && at(place[id])[i].id == id;
      assert at1(place[id])[i].id == id;
    }
  }

  /** A block of new handles appears at an empty place. */
  lemma Create(at: Loc -> seq<Handle>, at1: Loc -> seq<Handle>, place: map<nat, Loc>, created: nat,
               fds: seq<Fd>, dst: Loc)
    requires Conserved(at, place, created)
    requires at(dst) == [] && at1(dst) == NewHandles(fds, created)
    requires forall loc :: loc != dst ==> at1(loc) == at(loc)
    ensures Conserved(at1, Moved(place, NewHandles(fds, created), dst), created + |fds|)
  {
    var files := NewHandles(fds, created);
    var place1 := Moved(place, files, dst);
    forall id: nat ensures id in Ids(files) <==> created <= id < created + |fds| {
      if created <= id < created + |fds| {
        assert files[id - created].id == id;
      }
    }
    forall id | id in place1 ensures exists i :: 0 <= i < |at1(place1[id])| && at1(place1[id])[i].id == id {
      if id in Ids(files) {
        assert at1(dst)[id - created].id == id;
      } else {
        var i :| 0 <= i < |at(place[id])| && at(place[id])[i].id == id;
        assert at1(place[id])[i].id == id;
      }
    }
  }

  lemma MovedIds(at: Loc -> seq<Handle>, place: map<nat, Loc>, created: nat, src: Loc, id: nat)
    requires Conserved(at, place, created)
    ensures id in Ids(at(src)) <==> id in place && place[id] == src
  {
    if id in place && place[id] == src {
      var i :| 0 <= i < |at(src)| && at(src)[i].id == id;
      assert at(src)[i] in at(src);
    }
  }

  /** Appending one place's handles to another's repeats none. */
  lemma AppendDistinct(at: Loc -> seq<Handle>, place: map<nat, Loc>, created: nat, src: Loc, dst: Loc)
    requires Conserved(at, place, created) && src != dst
    ensures var l := at(dst) + at(src); forall i, j :: 0 <= i < j < |l| ==> l[i].id != l[j].id
  {
    var l := at(dst) + at(src);
    forall i, j | 0 <= i < j < |l| ensures l[i].id != l[j].id {
      if i < |at(dst)| <= j {
        assert place[at(dst)[i].id] == dst;
        assert place[at(src)[j - |at(dst)|].id] == src;
      }
    }
  }

  lemma MoveListed(at: Loc -> seq<Handle>, at1: Loc -> seq<Handle>, place: map<nat, Loc>, place1: map<nat, Loc>,
                   created: nat, src: Loc, dst: Loc)
    requires Conserved(at, place, created) && src != dst
    requires at1(src) == [] && at1(dst) == at(dst) + at(src)
    requires forall loc :: loc != src && loc != dst ==> at1(loc) == at(loc)
    requires place1.Keys == place.Keys
    requires forall id :: id in place ==> place1[id] == if place[id] == src then dst else place[id]
    ensures Conserved(at1, place1, created)
  {
    AppendDistinct(at, place, created, src, dst);
    forall loc, i | 0 <= i < |at1(loc)| ensures at1(loc)[i].id in place1 && place1[at1(loc)[i].id] == loc {
      AfterMove(at, at1, place, created, src, dst, loc, i);
    }
    forall id | id in place1 ensures exists i :: 0 <= i < |at1(place1[id])| && at1(place1[id])[i].id == id {
      StillListed(at, at1, place, created, src, dst, id);
    }
  }

  /** A handle's place after the move is where it is listed. */
  lemma AfterMove(at: Loc -> seq<Handle>, at1: Loc -> seq<Handle>, place: map<nat, Loc>, created: nat, src: Loc, dst: Loc,
                  loc: Loc, i: nat)
    requires Conserved(at, place, created) && src != dst
    requires at1(src) == [] && at1(dst) == at(dst) + at(src) && (loc != src && loc != dst ==> at1(loc) == at(loc))
    requires i < |at1(loc)|
    ensures var id := at1(loc)[i].id; id in place && loc == if place[id] == src then dst else place[id]
  {
    if loc == dst && i >= |at(dst)| {
      assert at1(loc)[i] == at(src)[i - |at(dst)|];
    } else {
      assert at1(loc)[i] == at(loc)[i];
    }
  }

  lemma StillListed(at: Loc -> seq<Handle>, at1: Loc -> seq<Handle>, place: map<nat, Loc>, created: nat, src: Loc, dst: Loc,
                    id: nat)
    requires Conserved(at, place, created) && src != dst && id in place
    requires at1(dst) == at(dst) + at(src) && (place[id] != src && place[id] != dst ==> at1(place[id]) == at(place[id]))
    ensures var loc := if place[id] == src then dst else place[id];
            exists i :: 0 <= i < |at1(loc)| && at1(loc)[i].id == id
  {
    var loc := if place[id] == src then dst else place[id];
    var i :| 0 <= i < |at(place[id])| && at(place[id])[i].id == id;
    var j := if place[id] == src then |at(dst)| + i else i;
    assert 0 <= j < |at1(loc)| && at1(loc)[j] == at(place[id])[i];
  }

  /** All the handles of one place are appended to another. */
  lemma Move(at: Loc -> seq<Handle>, at1: Loc -> seq<Handle>, place: map<nat, Loc>, created: nat,
             src: Loc, dst: Loc)
    requires Conserved(at, place, created) && src != dst
    requires at1(src) == [] && at1(dst) == at(dst) + at(src)
    requires forall loc :: loc != src && loc != dst ==> at1(loc) == at(loc)
    ensures Conserved(at1, Moved(place, at(src), dst), created)
  {
    var place1 := Moved(place, at(src), dst);
    forall id: nat ensures id in Ids(at(src)) <==> id in place && place[id] == src {
      MovedIds(at, place, created, src, id);
    }
    MoveListed(at, at1, place, place1, created, src, dst);
  }

  // ---------- The steps ----------

  lemma Unmoved(m: State, m1: State)
    requires HandlesOk(m) && m1.place == m.place && m1.created == m.created
    requires ReaderFiles(m1.reader) == ReaderFiles(m.reader) && m1.closedFiles == m.closedFiles
    requires m1.handled + m1.inbound == m.handled + m.inbound
    requires forall q :: HandlesAt(m1, InResult(q)) == HandlesAt(m, InResult(q))
    ensures HandlesOk(m1)
  {
    forall loc ensures HandlesAt(m1, loc) == HandlesAt(m, loc) {
      match loc case InReader => case InResult(q) => case InMessage(i) => case IsClosed =>
    }
    Same(loc => HandlesAt(m, loc), loc => HandlesAt(m1, loc), m.place, m.created);
  }

  lemma HeaderPlaces(c: Codec, m: State, peer: seq<Frame>, fds: seq<Fd>, m1: State)
    requires DoReadHeader(c, m, peer, 4) == Some(m1) && fds == Cap(FdsIn(c, peer, m.pos, m.pos + 4))
    ensures HandlesAt(m, InReader) == [] && HandlesAt(m1, InReader) == NewHandles(fds, m.created)
    ensures forall loc :: loc != InReader ==> HandlesAt(m1, loc) == HandlesAt(m, loc)
    ensures m1.place == Moved(m.place, NewHandles(fds, m.created), InReader) && m1.created == m.created + |fds|
  {
    hide Moved, Flat, FdsIn, Cap;
  }

  lemma ShortHeaderHandles(c: Codec, m: State, peer: seq<Frame>, n: nat, m1: State)
    requires HandlesOk(m) && n < 4 && DoReadHeader(c, m, peer, n) == Some(m1)
    ensures HandlesOk(m1)
  {
    Unmoved(m, m1);
  }

  lemma HandlesCreated(m: State, m1: State, fds: seq<Fd>)
    requires HandlesOk(m) && HandlesAt(m, InReader) == [] && HandlesAt(m1, InReader) == NewHandles(fds, m.created)
    requires forall loc :: loc != InReader ==> HandlesAt(m1, loc) == HandlesAt(m, loc)
    requires m1.place == Moved(m.place, NewHandles(fds, m.created), InReader) && m1.created == m.created + |fds|
    ensures HandlesOk(m1)
  {
    hide Conserved, Moved, NewHandles, HandlesAt;
    Create(loc => HandlesAt(m, loc), loc => HandlesAt(m1, loc), m.place, m.created, fds, InReader);
  }

  lemma HeaderHandles(c: Codec, m: State, peer: seq<Frame>, n: nat)
    requires HandlesOk(m) && DoReadHeader(c, m, peer, n).Some?
    ensures HandlesOk(DoReadHeader(c, m, peer, n).value)
  {
    var m1 := DoReadHeader(c, m, peer, n).value;
    if n < 4 {
      ShortHeaderHandles(c, m, peer, n, m1);
    } else {
      var fds := Cap(FdsIn(c, peer, m.pos, m.pos + 4));
      HeaderPlaces(c, m, peer, fds, m1);
      hide *;
      HandlesCreated(m, m1, fds);
    }
  }

  /** closeAll: the reader's handles are closed and the reader holds none. */
  lemma CloseHandles(m: State, m1: State)
    requires HandlesOk(m) && m1.created == m.created
    requires m1.place == Moved(m.place, ReaderFiles(m.reader), IsClosed)
    requires m1.closedFiles == m.closedFiles + ReaderFiles(m.reader) && ReaderFiles(m1.reader) == []
    requires m1.handled == m.handled && m1.inbound == m.inbound && m1.calls == m.calls
    ensures HandlesOk(m1)
  {
    Move(loc => HandlesAt(m, loc), loc => HandlesAt(m1, loc), m.place, m.created, InReader, IsClosed);
  }

  /** The reader's handles go into the message appended to the queue. */
  lemma QueueHandles(m: State, m1: State, msg: InMsg)
    requires HandlesOk(m) && m1.created == m.created && msg.files == ReaderFiles(m.reader)
    requires m1.place == Moved(m.place, ReaderFiles(m.reader), InMessage(|m.handled| + |m.inbound|))
    requires m1.closedFiles == m.closedFiles && ReaderFiles(m1.reader) == [] && m1.calls == m.calls
    requires m1.handled == m.handled && m1.inbound == m.inbound + [msg]
    ensures HandlesOk(m1)
  {
    assert m1.handled + m1.inbound == (m.handled + m.inbound) + [msg];
    Move(loc => HandlesAt(m, loc), loc => HandlesAt(m1, loc), m.place, m.created,
         InReader, InMessage(|m.handled| + |m.inbound|));
  }

  /** The reader's handles go into the result of call q. */
  lemma ResultHandles(m: State, m1: State, q: nat)
    requires HandlesOk(m) && m1.created == m.created && q in m.calls && CallFiles(m.calls[q]) == []
    requires m1.place == Moved(m.place, ReaderFiles(m.reader), InResult(q))
    requires m1.closedFiles == m.closedFiles && ReaderFiles(m1.reader) == []
    requires m1.handled == m.handled && m1.inbound == m.inbound
    requires m1.calls.Keys == m.calls.Keys && CallFiles(m1.calls[q]) == ReaderFiles(m.reader)
    requires forall p :: p in m.calls && p != q ==> m1.calls[p] == m.calls[p]
    ensures HandlesOk(m1)
  {
    Move(loc => HandlesAt(m, loc), loc => HandlesAt(m1, loc), m.place, m.created, InReader, InResult(q));
  }

  lemma DispatchHandles(m: State)
    requires HandlesOk(m) && DoDispatch(m).Some? && !DoDispatch(m).value.reader.Panicked?
    requires forall q :: q in m.sessions && q in m.calls ==> CallFiles(m.calls[q]) == []
    ensures HandlesOk(DoDispatch(m).value)
  {
    var m1 := DoDispatch(m).value;
    var p, files := m.reader.p, m.reader.files;
    if !p.isResponse {
      QueueHandles(m, m1, InMsg(p.data, files, p.annotations, p.seqNo));
    } else if p.seqNo in m.sessions && p.seqNo in m.calls {
      ResultHandles(m, m1, p.seqNo);
    } else {
      CloseHandles(m, m1);
    }
  }
}
