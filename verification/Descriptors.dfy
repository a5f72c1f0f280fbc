/** The messages users build and read: descriptors named on one side are found by name on the
    other, up to the ten the control buffer holds. */
module Descriptors {
  import opened Base
  import opened Wire
  import opened Mux
  import opened MuxInvariant
  import opened MuxTheorems
  import opened MuxMessages

  datatype AddError = NilFile | EmptyId | DuplicateId

  datatype GetError = Integrity | Unknown

  type Found = Result<(Fd, string), GetError>

  /** The fields of a message that carry descriptors. */
  datatype Table = Table(files: seq<Fd>, annotations: seq<Annotation>)

  predicate Named(a: seq<Annotation>, id: string) {
    exists i :: 0 <= i < |a| && a[i].id == id
  }

  /** The first position of an id; |a| when there is none. */
  function First(a: seq<Annotation>, id: string): (i: nat)
    ensures i <= |a| && (i < |a| ==> a[i].id == id)
    ensures forall j :: 0 <= j < i ==> a[j].id != id
  {
    if a == [] then 0 else if a[0].id == id then 0 else 1 + First(a[1..], id)
  }

  function Find(t: Table, id: string): Found {
    var i := First(t.annotations, id);
    if i == |t.annotations| then Err(Unknown)
    else if i >= |t.files| then Err(Integrity)
    else Ok((t.files[i], t.annotations[i].purpose))
  }

  class Message {
    var data: seq<Byte>
    var files: seq<Fd>
    var annotations: seq<Annotation>
    var seqNo: nat

    ghost function Value(): Table reads this { Table(files, annotations) }

    constructor (data: seq<Byte>, files: seq<Fd>, annotations: seq<Annotation>, seqNo: nat)
      ensures this.data == data && Value() == Table(files, annotations) && this.seqNo == seqNo
    {
      this.data, this.files, this.annotations, this.seqNo := data, files, annotations, seqNo;
    }

    /** Rejects a nil file, an empty id and an id already used; otherwise appends to both fields. */
    method AddDescriptor(fd: Option<Fd>, id: string, purpose: string) returns (err: Option<AddError>)
      modifies this`files, this`annotations
      ensures err.None? <==> fd.Some? && id != "" && !Named(old(annotations), id)
      ensures Value() == AddTo(old(Value()), Add(fd, id, purpose))
      ensures err == Some(NilFile) <==> fd.None?
      ensures err == Some(EmptyId) <==> fd.Some? && id == ""
      ensures err == Some(DuplicateId) <==> fd.Some? && id != "" && Named(old(annotations), id)
    {
      if fd.None? {
        return Some(NilFile);
      }
      if id == "" {
        return Some(EmptyId);
      }
      for i := 0 to |annotations|
        invariant forall j :: 0 <= j < i ==> annotations[j].id != id
      {
        if annotations[i].id == id {
          return Some(DuplicateId);
        }
      }
      files := files + [fd.value];
      annotations := annotations + [Annotation(id, purpose)];
      return None;
    }

    /** The file and purpose at the first position that carries the id. */
    method GetDescriptor(id: string) returns (r: Found)
      ensures r == Err(Unknown) <==> !Named(annotations, id)
      ensures r == Find(Value(), id)
    {
      for i := 0 to |annotations|
        invariant forall j :: 0 <= j < i ==> annotations[j].id != id
      {
        if annotations[i].id == id {
          return if i >= |files| then Err(Integrity) else Ok((files[i], annotations[i].purpose));
        }
      }
      return Err(Unknown);
    }
  }

  // ---------- Messages built by AddDescriptor ----------

  datatype Add = Add(fd: Option<Fd>, id: string, purpose: string)

  function AddTo(t: Table, a: Add): Table {
    if a.fd.None? || a.id == "" || Named(t.annotations, a.id) then t
    else Table(t.files + [a.fd.value], t.annotations + [Annotation(a.id, a.purpose)])
  }

  /** The table after any sequence of AddDescriptor calls on a new message. */
  function Build(adds: seq<Add>): Table {
    if adds == [] then Table([], []) else AddTo(Build(adds[..|adds| - 1]), adds[|adds| - 1])
  }

  /** Such a message passes writeWire's count check and its ids are distinct. */
  lemma {:induction false} BuildOk(adds: seq<Add>)
    ensures var t := Build(adds);
            && |t.files| == |t.annotations|
            && forall i, j :: 0 <= i < j < |t.annotations| ==> t.annotations[i].id != t.annotations[j].id
  {
    if adds != [] {
      BuildOk(adds[..|adds| - 1]);
    }
  }

  /** One of the first n calls had a file and this id. */
  predicate Used(adds: seq<Add>, n: nat, id: string) {
    exists j :: 0 <= j < n && j < |adds| && adds[j].fd.Some? && adds[j].id == id
  }

  /** Call i is accepted: it has a file and an id that no earlier call with a file had. */
  predicate Accepts(adds: seq<Add>, i: nat) {
    i < |adds| && adds[i].fd.Some? && adds[i].id != "" && !Used(adds, i, adds[i].id)
  }

  /** How many calls are accepted. */
  function Accepted(adds: seq<Add>): nat {
    if adds == [] then 0 else
      var n := |adds| - 1;
      Accepted(adds[..n]) + if Accepts(adds, n) then 1 else 0
  }

  lemma UsedInFront(adds: seq<Add>, k: nat, n: nat, id: string)
    requires n <= k <= |adds|
    ensures Used(adds[..k], n, id) <==> Used(adds, n, id)
  {
    if j :| 0 <= j < n && j < |adds| && adds[j].fd.Some? && adds[j].id == id {
      assert adds[..k][j] == adds[j];
    }
  }

  lemma UsedNext(adds: seq<Add>, n: nat, id: string)
    requires n < |adds|
    ensures Used(adds, n + 1, id) <==> Used(adds, n, id) || (adds[n].fd.Some? && adds[n].id == id)
  {}

  lemma {:induction false} NamedExactly(adds: seq<Add>, id: string)
    requires id != ""
    ensures Named(Build(adds).annotations, id) <==> Used(adds, |adds|, id)
  {
    if adds != [] {
      var n := |adds| - 1;
      NamedExactly(adds[..n], id);
      UsedInFront(adds, n, n, id);
      UsedNext(adds, n, id);
      NamedNext(Build(adds[..n]), adds[n], id);
    }
  }

  lemma NamedNext(t: Table, a: Add, id: string)
    requires id != ""
    ensures Named(AddTo(t, a).annotations, id) <==> Named(t.annotations, id) || (a.fd.Some? && a.id == id)
  {
    var x, y := t.annotations, AddTo(t, a).annotations;
    if y != x {
      assert y[..|x|] == x && y[|x|].id == a.id;
    }
  }

  lemma BuildStep(adds: seq<Add>)
    requires adds != []
    ensures var n := |adds| - 1;
            Build(adds) == if !Accepts(adds, n) then Build(adds[..n]) else
                             Table(Build(adds[..n]).files + [adds[n].fd.value],
                                   Build(adds[..n]).annotations + [Annotation(adds[n].id, adds[n].purpose)])
  {
    var n := |adds| - 1;
    assert Build(adds) == AddTo(Build(adds[..n]), adds[n]);
    hide Build, Named, Used;
    if adds[n].id != "" {
      NamedExactly(adds[..n], adds[n].id);
      UsedInFront(adds, n, n, adds[n].id);
    }
  }

  /** Call i, if accepted, has its place in the table, with its own file, id and purpose. */
  predicate Holds(t: Table, adds: seq<Add>, i: nat)
    requires i < |adds|
  {
    Accepts(adds, i) ==>
      var p := Accepted(adds[..i]);
      && p < |t.files| == |t.annotations| && t.files[p] == adds[i].fd.value
      && t.annotations[p] == Annotation(adds[i].id, adds[i].purpose)
  }

  /** The table holds the accepted calls, each in its turn, and nothing else. */
  lemma {:induction false} BuildHolds(adds: seq<Add>)
    ensures |Build(adds).files| == |Build(adds).annotations| == Accepted(adds)
    ensures forall i :: 0 <= i < |adds| ==> Holds(Build(adds), adds, i)
  {
    if adds != [] {
      var n := |adds| - 1;
      var front := adds[..n];
      BuildStep(adds);
      BuildHolds(front);
      hide Build, Used;
      forall i | 0 <= i < |adds| ensures Holds(Build(adds), adds, i) {
        if i < n {
          assert Holds(Build(front), front, i);
          assert front[..i] == adds[..i];
          UsedInFront(adds, n, i, adds[i].id);
        }
      }
    }
  }

  /** Every place is some accepted call's, and places follow the order of the calls. */
  lemma {:induction false} CallAt(adds: seq<Add>, p: nat) returns (i: nat)
    requires p < Accepted(adds)
    ensures Accepts(adds, i) && Accepted(adds[..i]) == p
  {
    var n := |adds| - 1;
    if p < Accepted(adds[..n]) {
      i := CallAt(adds[..n], p);
      assert adds[..n][..i] == adds[..i];
      UsedInFront(adds, n, i, adds[i].id);
    } else {
      i := n;
    }
  }

  lemma {:induction false} PlacesGrow(adds: seq<Add>, i: nat, j: nat)
    requires i <= j <= |adds|
    ensures Accepted(adds[..i]) <= Accepted(adds[..j])
  {
    if i < j {
      PlacesGrow(adds, i, j - 1);
      assert adds[..j][..j - 1] == adds[..j - 1];
    }
  }

  // ---------- Across the wire ----------

  /** What the receiver holds: cleaned strings, and the descriptors that fit. */
  function Received(c: Codec, t: Table): Table {
    Table(Cap(t.files), CleanAll(c, t.annotations))
  }

  /** What looking up the i-th id should give. */
  function Wanted(c: Codec, t: Table, i: nat): Found
    requires i < |t.files| == |t.annotations|
  {
    if i < 10 then Ok((t.files[i], c.utf8(t.annotations[i].purpose))) else Err(Integrity)
  }

  /** The i-th id is found, with its own file or the out-of-bounds error, whenever no earlier id
      that travelled cleans to the same string; and only then, when the files are distinct. */
  lemma NamingExactly(c: Codec, adds: seq<Add>, i: nat)
    requires i < |Build(adds).annotations|
    ensures |Build(adds).files| == |Build(adds).annotations|
    ensures var t := Build(adds);
            var found := Find(Received(c, t), c.utf8(t.annotations[i].id)) == Wanted(c, t, i);
            var clear := forall j :: 0 <= j < i && j < 10 ==> c.utf8(t.annotations[j].id) != c.utf8(t.annotations[i].id);
            (clear ==> found) && (Distinct(t.files) ==> (found <==> clear))
  {
    BuildOk(adds);
    var t := Build(adds);
    var a, id := CleanAll(c, t.annotations), c.utf8(t.annotations[i].id);
    var k := First(a, id);
    assert a[i].id == id && k <= i;
    if j :| 0 <= j < i && j < 10 && c.utf8(t.annotations[j].id) == id {
      assert a[j].id == id && k <= j;
      assert Find(Received(c, t), id) == Ok((t.files[k], a[k].purpose));
    } else if k < i {
      assert c.utf8(t.annotations[k].id) == a[k].id;
    }
  }

  /** Ids that are valid UTF-8 all survive. */
  lemma NamingSurvives(c: Codec, adds: seq<Add>, i: nat)
    requires i < |Build(adds).annotations|
    requires forall j :: 0 <= j < |Build(adds).annotations| ==> c.utf8(Build(adds).annotations[j].id) == Build(adds).annotations[j].id
    ensures |Build(adds).files| == |Build(adds).annotations|
    ensures Find(Received(c, Build(adds)), Build(adds).annotations[i].id) == Wanted(c, Build(adds), i)
  {
    BuildOk(adds);
    NamingExactly(c, adds, i);
  }

  /** The i-th descriptor was sent under an id that cleans to name. */
  predicate SentAs(c: Codec, t: Table, i: nat, name: string) {
    i < |t.files| == |t.annotations| && c.utf8(t.annotations[i].id) == name
  }

  /** Any lookup at the receiver gives the file sent under an id that cleans to the name asked for,
      never another's; and an error for every name no sent id cleans to. */
  lemma NeverAnother(c: Codec, adds: seq<Add>, name: string)
    ensures var t, r := Build(adds), Find(Received(c, Build(adds)), name);
            && (r.Ok? ==> exists i: nat :: SentAs(c, t, i, name) && i < 10 && r == Wanted(c, t, i))
            && (r == Err(Unknown) <==> forall i :: 0 <= i < |t.annotations| ==> c.utf8(t.annotations[i].id) != name)
  {
    BuildOk(adds);
    var t := Build(adds);
    var a := CleanAll(c, t.annotations);
    var k := First(a, name);
    if k < |a| {
      assert a[k].id == c.utf8(t.annotations[k].id);
      assert SentAs(c, t, k, name);
    }
    forall i | 0 <= i < |a| ensures a[i].id == c.utf8(t.annotations[i].id) {}
  }

  /** From end to end: an accepted descriptor, among the first ten, whose id no earlier accepted one
      cleans to, is found at the receiver under its id, with its own file and purpose. */
  lemma NamedArrives(c: Codec, adds: seq<Add>, i: nat)
    requires Accepts(adds, i) && Accepted(adds[..i]) < 10
    requires forall j :: 0 <= j < i && Accepts(adds, j) ==> c.utf8(adds[j].id) != c.utf8(adds[i].id)
    ensures Find(Received(c, Build(adds)), c.utf8(adds[i].id)) == Ok((adds[i].fd.value, c.utf8(adds[i].purpose)))
  {
    BuildHolds(adds);
    var t, p := Build(adds), Accepted(adds[..i]);
    assert Holds(t, adds, i);
    forall k | 0 <= k < p ensures c.utf8(t.annotations[k].id) != c.utf8(t.annotations[p].id) {
      var j := CallAt(adds, k);
      assert Holds(t, adds, j);
      if i <= j {
        PlacesGrow(adds, i, j);
      }
    }
    NamingExactly(c, adds, p);
  }

  lemma ConveyedTable(c: Codec, msg: Msg, got: InMsg)
    requires Conveys(c, msg, got)
    ensures Table(FdsOf(got.files), got.annotations) == Received(c, Table(msg.fds, msg.annotations))
  {
    assert FdsOf(got.files) == Cap(msg.fds);
    assert got.annotations == CleanAll(c, msg.annotations);
  }

  /** In every run, of a successful Request: the handler was given the received form of the table the
      caller built, and the caller the received form of the one the handler's reply was built with. */
  lemma DescriptorsTravel(c: Codec, tr: Trace, side: Side, q: nat) returns (msg: Msg, h: nat, reply: Msg)
    requires Lawful(c) && Exec(c, tr).Some?
    requires var calls := At(Exec(c, tr).value, side).calls;
             q in calls && calls[q].pc.Done? && calls[q].pc.res.Some?
    ensures (side, Start(msg)) in tr && (Other(side), Respond(h, reply, true)) in tr
    ensures var peer, r := At(Exec(c, tr).value, Other(side)), At(Exec(c, tr).value, side).calls[q].pc.res.value;
            && h < |peer.handled| && peer.handled[h].seqNo == q
            && (forall asked :: Table(msg.fds, msg.annotations) == Build(asked) ==>
                  Table(FdsOf(peer.handled[h].files), peer.handled[h].annotations) == Received(c, Build(asked)))
            && (forall answered :: Table(reply.fds, reply.annotations) == Build(answered) ==>
                  Table(FdsOf(r.files), r.annotations) == Received(c, Build(answered)))
  {
    var i, k;
    msg, i, h, reply, k := ReplyMatching(c, tr, side, q);
    ConveyedTable(c, msg, At(Exec(c, tr).value, Other(side)).handled[h]);
    ConveyedTable(c, reply, At(Exec(c, tr).value, side).calls[q].pc.res.value);
  }
}
