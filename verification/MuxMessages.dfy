/** What a Request delivers, in terms of the messages its caller and its responder were given, and
    that a Request can succeed. */
module MuxMessages {
  import opened Base
  import opened Wire
  import opened Mux
  import opened MuxInvariant
  import opened MuxSteps
  import opened MuxRun
  import opened MuxTheorems

  // ---------- Across the wire ----------

  /** got is what becomes of msg: the same bytes, ids and purposes as valid UTF-8, and the first ten
      descriptors. */
  predicate Conveys(c: Codec, msg: Msg, got: InMsg) {
    && got.data == msg.data
    && |got.annotations| == |msg.annotations|
    && (forall i :: 0 <= i < |msg.annotations| ==>
          && got.annotations[i].id == c.utf8(msg.annotations[i].id)
          && got.annotations[i].purpose == c.utf8(msg.annotations[i].purpose))
    && |got.files| == (if |msg.fds| <= 10 then |msg.fds| else 10)
    && (forall i :: 0 <= i < |got.files| ==> got.files[i].fd == msg.fds[i])
  }

  /** One annotation for each descriptor, as writeWire asks. */
  predicate Counted(msg: Msg) { |msg.fds| == |msg.annotations| }

  /** The frame carries msg under the number q. */
  predicate Carries(f: Frame, isResponse: bool, q: nat, msg: Msg) {
    && f.payload.seqNo == q && f.payload.isResponse == isResponse
    && f.payload.data == msg.data && f.payload.annotations == msg.annotations && f.fds == msg.fds
  }

  lemma CarriedIsConveyed(c: Codec, f: Frame, q: nat, msg: Msg, got: InMsg)
    requires Carries(f, f.payload.isResponse, q, msg) && Seen(f.payload.isResponse, got) == Deliver(c, f)
    ensures got.seqNo == q && Conveys(c, msg, got)
  {
    assert FdsOf(got.files) == Cap(f.fds);
    forall i | 0 <= i < |got.files| ensures got.files[i].fd == msg.fds[i] {
      assert FdsOf(got.files)[i] == got.files[i].fd;
    }
  }

  // ---------- Calls and frames of a run ----------

  /** How many Requests one side has begun. */
  function Starts(tr: Trace, side: Side): nat {
    if tr == [] then 0 else
      Starts(tr[..|tr| - 1], side) + if tr[|tr| - 1].0 == side && tr[|tr| - 1].1.Start? then 1 else 0
  }

  /** Calls get their messages and numbers when they begin, and keep them. */
  lemma StepMessages(c: Codec, m: State, peer: seq<Frame>, a: Act)
    requires Do(c, m, peer, a).Some?
    ensures var m1 := Do(c, m, peer, a).value;
            && m1.nextSeq == m.nextSeq + (if a.Start? then 1 else 0)
            && forall q :: q in m1.calls ==>
                 (q in m.calls && m1.calls[q].msg == m.calls[q].msg) || (a == Start(m1.calls[q].msg) && q == m.nextSeq + 1)
  {}

  lemma {:induction false} StartsCount(c: Codec, tr: Trace, side: Side)
    requires Exec(c, tr).Some?
    ensures At(Exec(c, tr).value, side).nextSeq == Starts(tr, side)
  {
    if tr != [] {
      var n := |tr| - 1;
      ExecSnoc(c, tr);
      StartsCount(c, tr[..n], side);
      var s := Exec(c, tr[..n]).value;
      hide Do, Exec;
      StepMessages(c, At(s, tr[n].0), At(s, Other(tr[n].0)).sent, tr[n].1);
    }
  }

  /** Step i of the run began Request number q of one side, with the message msg. */
  predicate BeganAt(tr: Trace, i: nat, side: Side, q: nat, msg: Msg) {
    i < |tr| && tr[i] == (side, Start(msg)) && Starts(tr[..i], side) + 1 == q
  }

  lemma BeganEarlier(tr: Trace, n: nat, i: nat, side: Side, q: nat, msg: Msg)
    requires n <= |tr| && BeganAt(tr[..n], i, side, q, msg)
    ensures i < n && BeganAt(tr, i, side, q, msg)
  {
    assert tr[..n][..i] == tr[..i];
  }

  lemma {:induction false} CallBegan(c: Codec, tr: Trace, side: Side, q: nat) returns (i: nat)
    requires Exec(c, tr).Some? && q in At(Exec(c, tr).value, side).calls
    ensures BeganAt(tr, i, side, q, At(Exec(c, tr).value, side).calls[q].msg)
  {
    var n := |tr| - 1;
    ExecSnoc(c, tr);
    StartsCount(c, tr[..n], side);
    var s := Exec(c, tr[..n]).value;
    var msg := At(Exec(c, tr).value, side).calls[q].msg;
    StepMessages(c, At(s, tr[n].0), At(s, Other(tr[n].0)).sent, tr[n].1);
    hide Do, Exec;
    if q in At(s, side).calls && At(s, side).calls[q].msg == msg {
      i := CallBegan(c, tr[..n], side, q);
      BeganEarlier(tr, n, i, side, q, msg);
    } else {
      i := n;
    }
  }

  /** A step writes at most one frame: a call's request, or a responder's reply. */
  lemma StepFrame(c: Codec, m: State, peer: seq<Frame>, a: Act)
    requires Do(c, m, peer, a).Some?
    ensures var sent := Do(c, m, peer, a).value.sent;
            || sent == m.sent
            || (&& a.WriteRequest? && a.ok && a.q in m.calls && Counted(m.calls[a.q].msg) && |sent| == |m.sent| + 1
                && sent[..|m.sent|] == m.sent && Carries(sent[|m.sent|], false, a.q, m.calls[a.q].msg))
            || (&& a.Respond? && a.ok && a.h < |m.handled| && Counted(a.reply) && |sent| == |m.sent| + 1
                && sent[..|m.sent|] == m.sent && Carries(sent[|m.sent|], true, m.handled[a.h].seqNo, a.reply)
                && sent[|m.sent|].origin == FromResponder(a.h))
  {}

  /** An accepted reply with matching counts is written. */
  lemma ResponderWrites(c: Codec, m: State, peer: seq<Frame>, h: nat, reply: Msg)
    requires Do(c, m, peer, Respond(h, reply, true)).Some? && Counted(reply)
    ensures h < |m.handled| && |Do(c, m, peer, Respond(h, reply, true)).value.sent| == |m.sent| + 1
  {}

  /** The j-th frame of one side was written at step k. */
  ghost predicate WroteAt(c: Codec, tr: Trace, side: Side, j: nat, k: nat)
    requires Exec(c, tr).Some?
  {
    && k < |tr| && tr[k].0 == side && Exec(c, tr[..k]).Some? && Exec(c, tr[..k + 1]).Some?
    && |At(Exec(c, tr[..k]).value, side).sent| == j
    && |At(Exec(c, tr[..k + 1]).value, side).sent| == j + 1
    && At(Exec(c, tr[..k + 1]).value, side).sent <= At(Exec(c, tr).value, side).sent
  }

  lemma {:induction false} FrameWritten(c: Codec, tr: Trace, side: Side, j: nat) returns (k: nat)
    requires Exec(c, tr).Some? && j < |At(Exec(c, tr).value, side).sent|
    ensures WroteAt(c, tr, side, j, k)
  {
    var n := |tr| - 1;
    ExecSnoc(c, tr);
    var s := Exec(c, tr[..n]).value;
    StepFrame(c, At(s, tr[n].0), At(s, Other(tr[n].0)).sent, tr[n].1);
    assert tr[..n + 1] == tr;
    hide Do, Exec;
    if j < |At(s, side).sent| {
      k := FrameWritten(c, tr[..n], side, j);
      assert tr[..n][..k] == tr[..k] && tr[..n][..k + 1] == tr[..k + 1];
      assert At(s, side).sent <= At(Exec(c, tr).value, side).sent;
    } else {
      k := n;
    }
  }

  lemma {:induction false} LogsGrow(c: Codec, tr: Trace, k: nat, side: Side)
    requires k <= |tr| && Exec(c, tr).Some? && Exec(c, tr[..k]).Some?
    ensures At(Exec(c, tr[..k]).value, side).sent <= At(Exec(c, tr).value, side).sent
    ensures At(Exec(c, tr[..k]).value, side).handled <= At(Exec(c, tr).value, side).handled
  {
    if k == |tr| {
      assert tr[..k] == tr;
    } else {
      var n := |tr| - 1;
      assert tr[..n][..k] == tr[..k];
      ExecSnoc(c, tr);
      LogsGrow(c, tr[..n], k, side);
      var s := Exec(c, tr[..n]).value;
      StepGrows(c, At(s, tr[n].0), At(s, Other(tr[n].0)).sent, tr[n].1);
    }
  }

  // ---------- Reply matching ----------

  /** A responder's reply was written if the write was accepted and the counts match. */
  predicate Accepted(a: Act) { a.Respond? && a.ok && Counted(a.reply) }

  /** Before step k no reply of responder h had been accepted. */
  predicate FirstOf(tr: Trace, k: nat, side: Side, h: nat) {
    forall i :: 0 <= i < k && i < |tr| && tr[i].0 == side && tr[i].1.Respond? && tr[i].1.h == h ==> !Accepted(tr[i].1)
  }

  /** An accepted reply leaves a frame. */
  lemma AcceptedLeavesFrame(c: Codec, tr: Trace, k: nat, i: nat, side: Side, q: nat)
    requires i < k <= |tr| && Exec(c, tr).Some? && Exec(c, tr[..k]).Some?
    requires tr[i].0 == side && Accepted(tr[i].1) && tr[i].1.h < |At(Exec(c, tr).value, side).handled|
    requires At(Exec(c, tr).value, side).handled[tr[i].1.h].seqNo == q
    ensures var sent := At(Exec(c, tr[..k]).value, side).sent; !NoReply(sent, |sent|, q)
  {
    StepAt(c, tr, i);
    var s := Exec(c, tr[..i]).value;
    var m := At(s, side);
    ResponderWrites(c, m, At(s, Other(side)).sent, tr[i].1.h, tr[i].1.reply);
    StepFrame(c, m, At(s, Other(side)).sent, tr[i].1);
    LogsGrow(c, tr, i, side);
    assert tr[..k][..i + 1] == tr[..i + 1];
    LogsGrow(c, tr[..k], i + 1, side);
    hide Do, Exec;
    var sent := At(Exec(c, tr[..k]).value, side).sent;
    assert IsReplyTo(sent[|m.sent|], q);
  }

  /** A successful Request.  It is the q-th of its side, begun at step i with message msg; the other
      end's HandleRequest returned msg, as it crosses the wire, as its h-th request; and what Request
      returns is, as it crosses the wire, the message that responder h was called with at step k: the
      first call of that responder that was accepted. */
  lemma ReplyMatching(c: Codec, tr: Trace, side: Side, q: nat) returns (msg: Msg, i: nat, h: nat, reply: Msg, k: nat)
    requires Lawful(c) && Exec(c, tr).Some?
    requires var calls := At(Exec(c, tr).value, side).calls;
             q in calls && calls[q].pc.Done? && calls[q].pc.res.Some?
    ensures var r, peer := At(Exec(c, tr).value, side).calls[q].pc.res.value, At(Exec(c, tr).value, Other(side));
            && i < k < |tr|
            && BeganAt(tr, i, side, q, msg) && Counted(msg)
            && h < |peer.handled| && peer.handled[h].seqNo == q && Conveys(c, msg, peer.handled[h])
            && tr[k] == (Other(side), Respond(h, reply, true)) && Counted(reply) && FirstOf(tr, k, Other(side), h)
            && r.seqNo == q && Conveys(c, reply, r)
  {
    var j, h0, f := ReplyFrame(c, tr, side, q);
    h := h0;
    k := FrameWritten(c, tr, Other(side), j);
    reply := RepliedAt(c, tr, side, j, h, k);
    var s := Exec(c, tr).value;
    CarriedIsConveyed(c, At(s, Other(side)).sent[j], q, reply, At(s, side).calls[q].pc.res.value);
    msg, i := AskedBefore(c, tr, side, h, k);
    forall n | 0 <= n < k && tr[n].0 == Other(side) && tr[n].1.Respond? && tr[n].1.h == h
      ensures !Accepted(tr[n].1)
    {
      if Accepted(tr[n].1) {
        NoReplyBefore(c, tr, side, j, k, q);
        AcceptedLeavesFrame(c, tr, k, n, Other(side), q);
      }
    }
  }

  lemma NoReplyBefore(c: Codec, tr: Trace, side: Side, j: nat, k: nat, q: nat)
    requires Exec(c, tr).Some? && WroteAt(c, tr, Other(side), j, k)
    requires NoReply(At(Exec(c, tr).value, Other(side)).sent, j, q)
    ensures var sent := At(Exec(c, tr[..k]).value, Other(side)).sent; NoReply(sent, |sent|, q)
  {
    LogsGrow(c, tr, k, Other(side));
  }

  /** The step that wrote reply j of responder h. */
  lemma RepliedAt(c: Codec, tr: Trace, side: Side, j: nat, h: nat, k: nat) returns (reply: Msg)
    requires Exec(c, tr).Some? && WroteAt(c, tr, Other(side), j, k)
    requires var f := At(Exec(c, tr).value, Other(side)).sent[j];
             f.payload.isResponse && f.origin == FromResponder(h)
    ensures tr[k] == (Other(side), Respond(h, reply, true)) && Counted(reply)
    ensures var f := At(Exec(c, tr).value, Other(side)).sent[j]; Carries(f, true, f.payload.seqNo, reply)
    ensures h < |At(Exec(c, tr[..k]).value, Other(side)).handled|
  {
    StepAt(c, tr, k);
    var s := Exec(c, tr[..k]).value;
    StepFrame(c, At(s, Other(side)), At(s, side).sent, tr[k].1);
    hide Do, Exec;
    reply := tr[k].1.reply;
  }

  /** A request handled before step k was begun before step k, by the call of its number. */
  lemma AskedBefore(c: Codec, tr: Trace, side: Side, h: nat, k: nat) returns (msg: Msg, i: nat)
    requires Lawful(c) && k <= |tr| && Exec(c, tr).Some? && Exec(c, tr[..k]).Some?
    requires h < |At(Exec(c, tr[..k]).value, Other(side)).handled|
    ensures h < |At(Exec(c, tr).value, Other(side)).handled|
    ensures var got := At(Exec(c, tr).value, Other(side)).handled[h];
            i < k && BeganAt(tr, i, side, got.seqNo, msg) && Counted(msg) && Conveys(c, msg, got)
  {
    LogsGrow(c, tr, k, Other(side));
    msg, i := HandledIsAsked(c, tr[..k], Other(side), h);
    BeganEarlier(tr, k, i, side, At(Exec(c, tr[..k]).value, Other(side)).handled[h].seqNo, msg);
  }

  /** Every request HandleRequest returns is one the other side's Request was given, under that
      call's number. */
  lemma HandledIsAsked(c: Codec, tr: Trace, side: Side, h: nat) returns (msg: Msg, i: nat)
    requires Lawful(c) && Exec(c, tr).Some? && h < |At(Exec(c, tr).value, side).handled|
    ensures var got := At(Exec(c, tr).value, side).handled[h];
            BeganAt(tr, i, Other(side), got.seqNo, msg) && Counted(msg) && Conveys(c, msg, got)
  {
    var s := Exec(c, tr).value;
    RunOk(c, tr);
    var f := HandledWasWritten(c, At(s, side), At(s, Other(side)), h);
    CleanKeeps(c, At(s, Other(side)).sent[f].payload);
    var k := FrameWritten(c, tr, Other(side), f);
    i := RequestedAt(c, tr, Other(side), f, k);
    msg := tr[i].1.msg;
    CarriedIsConveyed(c, At(s, Other(side)).sent[f], At(s, side).handled[h].seqNo, msg, At(s, side).handled[h]);
  }

  /** The message of the call that wrote request f at step k. */
  lemma RequestedAt(c: Codec, tr: Trace, side: Side, f: nat, k: nat) returns (i: nat)
    requires Exec(c, tr).Some? && WroteAt(c, tr, side, f, k)
    requires !At(Exec(c, tr).value, side).sent[f].payload.isResponse
    ensures i < |tr| && tr[i].1.Start? && Counted(tr[i].1.msg)
    ensures var x := At(Exec(c, tr).value, side).sent[f];
            BeganAt(tr, i, side, x.payload.seqNo, tr[i].1.msg) && Carries(x, false, x.payload.seqNo, tr[i].1.msg)
  {
    StepAt(c, tr, k);
    var s := Exec(c, tr[..k]).value;
    StepFrame(c, At(s, side), At(s, Other(side)).sent, tr[k].1);
    hide Do, Exec;
    i := CallBegan(c, tr[..k], side, tr[k].1.q);
    BeganEarlier(tr, k, i, side, tr[k].1.q, At(s, side).calls[tr[k].1.q].msg);
  }

  // ---------- A Request can succeed ----------

  /** Nothing is on its way to this end, and its reader is waiting for a frame. */
  predicate Quiet(m: State, peer: seq<Frame>) {
    m.reader.AtHeader? && m.got == |peer| && m.inbound == []
  }

  lemma ReadsHeader(c: Codec, m: State, peer: seq<Frame>)
    requires m.reader.AtHeader? && m.got < |peer| && m.pos == |Flat(c, peer[..m.got])| && FitsWire(c, peer[m.got])
    ensures DoReadHeader(c, m, peer, 4).Some?
    ensures var m1 := DoReadHeader(c, m, peer, 4).value;
            && m1.reader.AtBody? && m1.reader.len == |c.marshal(peer[m.got].payload)| && m1.pos == m.pos + 4
            && m1 == m.(reader := m1.reader, pos := m1.pos, created := m1.created, place := m1.place)
  {
    HeaderAt(c, peer, m.got);
    HeaderExact(|c.marshal(peer[m.got].payload)|);
  }

  lemma ReadsBody(c: Codec, m: State, peer: seq<Frame>)
    requires Lawful(c) && m.reader.AtBody? && m.got < |peer| && m.pos == |Flat(c, peer[..m.got])| + 4
    requires FitsWire(c, peer[m.got]) && m.reader.len == |c.marshal(peer[m.got].payload)|
    ensures DoReadBody(c, m, peer, m.reader.len).Some?
    ensures var m1 := DoReadBody(c, m, peer, m.reader.len).value;
            && m1.reader.AtDispatch? && m1.reader.p == Clean(c, peer[m.got].payload)
            && m1 == m.(reader := m1.reader, pos := m1.pos)
  {
    assert c.marshal(peer[m.got].payload) != [];
    BodyDecodes(c, peer, m.got, m.reader.len);
  }

  /** Steps of one end while the other does not move. */
  function Steps(c: Codec, m: State, peer: seq<Frame>, acts: seq<Act>): Option<State>
    decreases acts
  {
    if acts == [] then Some(m) else
    match Do(c, m, peer, acts[0])
    case None => None
    case Some(m1) => Steps(c, m1, peer, acts[1..])
  }

  lemma StepsCons(c: Codec, m: State, peer: seq<Frame>, a: Act, rest: seq<Act>)
    ensures Steps(c, m, peer, [a] + rest) ==
            match Do(c, m, peer, a) case None => None case Some(m1) => Steps(c, m1, peer, rest)
  {
    assert ([a] + rest)[1..] == rest;
  }

  /** They can be added to a run. */
  lemma {:induction false} AddSteps(c: Codec, tr: Trace, side: Side, acts: seq<Act>) returns (tr1: Trace)
    requires Exec(c, tr).Some?
    requires Steps(c, At(Exec(c, tr).value, side), At(Exec(c, tr).value, Other(side)).sent, acts).Some?
    ensures Exec(c, tr1).Some?
    ensures var s, s1 := Exec(c, tr).value, Exec(c, tr1).value;
            && Some(At(s1, side)) == Steps(c, At(s, side), At(s, Other(side)).sent, acts)
            && At(s1, Other(side)) == At(s, Other(side))
    decreases acts
  {
    if acts == [] {
      tr1 := tr;
    } else {
      ExecAppend(c, tr, side, acts[0]);
      hide Do;
      tr1 := AddSteps(c, tr + [(side, acts[0])], side, acts[1..]);
    }
  }

  /** A reader with an unread frame reads it. */
  lemma Reads(c: Codec, m: State, peer: seq<Frame>) returns (acts: seq<Act>)
    requires Lawful(c) && ReaderOk(c, m.reader, m.pos, m.got, peer)
    requires m.reader.AtHeader? && m.got < |peer| && FitsWire(c, peer[m.got])
    ensures (forall a :: a in acts ==> a.ReadHeader? || a.ReadBody?) && Steps(c, m, peer, acts).Some?
    ensures var m1 := Steps(c, m, peer, acts).value;
            && m1.reader.AtDispatch? && m1.reader.p == Clean(c, peer[m.got].payload)
            && m1 == m.(reader := m1.reader, pos := m1.pos, created := m1.created, place := m1.place)
  {
    ReadsHeader(c, m, peer);
    var m1 := DoReadHeader(c, m, peer, 4).value;
    ReadsBody(c, m1, peer);
    hide DoReadHeader, DoReadBody, Clean, FitsWire, Lawful;
    acts := [ReadHeader(4)] + ([ReadBody(m1.reader.len)] + []);
    StepsCons(c, m, peer, ReadHeader(4), [ReadBody(m1.reader.len)] + []);
    StepsCons(c, m1, peer, ReadBody(m1.reader.len), []);
  }

  /** A call that has begun gets its request written. */
  lemma Sends(c: Codec, m: State, peer: seq<Frame>, q: nat) returns (acts: seq<Act>)
    requires q in m.calls && m.calls[q].pc.Fresh? && m.calls[q].ch == NEW_CHAN && Counted(m.calls[q].msg)
    requires |c.marshal(Payload(q, false, m.calls[q].msg.annotations, m.calls[q].msg.data))| < U32
    ensures (forall a :: a in acts ==> a.Register? || a.WriteRequest?) && Steps(c, m, peer, acts).Some?
    ensures var m1 := Steps(c, m, peer, acts).value;
            && m1 == m.(sessions := m.sessions + {q}, calls := m1.calls, sent := m1.sent) && m1.calls.Keys == m.calls.Keys
            && (forall p :: p in m.calls && p != q ==> m1.calls[p] == m.calls[p])
            && |m1.sent| == |m.sent| + 1 && m1.sent[..|m.sent|] == m.sent && Carries(m1.sent[|m.sent|], false, q, m.calls[q].msg)
            && m1.calls[q] == m.calls[q].(pc := Waiting, late := m1.calls[q].late)
  {
    acts := [Register(q)] + ([WriteRequest(q, true)] + []);
    StepsCons(c, m, peer, Register(q), [WriteRequest(q, true)] + []);
    StepsCons(c, DoRegister(m, q).value, peer, WriteRequest(q, true), []);
  }

  /** A caller gets its request written. */
  lemma Asks(c: Codec, m: State, peer: seq<Frame>, msg: Msg) returns (acts: seq<Act>)
    requires Counted(msg) && m.nextSeq + 1 < U64
    requires |c.marshal(Payload(m.nextSeq + 1, false, msg.annotations, msg.data))| < U32
    ensures Steps(c, m, peer, acts).Some?
    ensures var m1, q := Steps(c, m, peer, acts).value, m.nextSeq + 1;
            && m1.reader == m.reader && m1.got == m.got && m1.inbound == m.inbound
            && |m1.sent| == |m.sent| + 1 && m1.sent[..|m.sent|] == m.sent && Carries(m1.sent[|m.sent|], false, q, msg)
            && q in m1.sessions && q in m1.calls && m1.calls[q].msg == msg && m1.calls[q].pc.Waiting? && m1.calls[q].ch == NEW_CHAN
  {
    var m1 := DoStart(m, msg).value;
    var rest := Sends(c, m1, peer, m.nextSeq + 1);
    acts := [Start(msg)] + rest;
    StepsCons(c, m, peer, Start(msg), rest);
  }

  /** A handler takes a request that has been read, and answers it. */
  lemma Answers(c: Codec, m: State, peer: seq<Frame>, reply: Msg) returns (acts: seq<Act>)
    requires m.reader.AtDispatch? && !m.reader.p.isResponse && m.inbound == [] && Counted(reply)
    requires |c.marshal(Payload(m.reader.p.seqNo, true, reply.annotations, reply.data))| < U32
    ensures Steps(c, m, peer, acts).Some?
    ensures var m1 := Steps(c, m, peer, acts).value;
            && |m1.sent| == |m.sent| + 1 && m1.sent[..|m.sent|] == m.sent
            && Carries(m1.sent[|m.sent|], true, m.reader.p.seqNo, reply)
  {
    var h := |m.handled|;
    acts := [Dispatch] + ([TakeRequest] + ([Respond(h, reply, true)] + []));
    StepsCons(c, m, peer, Dispatch, [TakeRequest] + ([Respond(h, reply, true)] + []));
    var m1 := DoDispatch(m).value;
    StepsCons(c, m1, peer, TakeRequest, [Respond(h, reply, true)] + []);
    StepsCons(c, DoTakeRequest(m1).value, peer, Respond(h, reply, true), []);
  }

  /** A caller whose reply has been read returns. */
  lemma Returns(c: Codec, m: State, peer: seq<Frame>, q: nat) returns (acts: seq<Act>)
    requires m.reader.AtDispatch? && m.reader.p.isResponse && m.reader.p.seqNo == q
    requires q in m.sessions && q in m.calls && m.calls[q].pc.Waiting? && m.calls[q].ch == NEW_CHAN
    ensures (forall a :: a in acts ==> a.Dispatch? || a.Receive?) && Steps(c, m, peer, acts).Some?
    ensures var m1 := Steps(c, m, peer, acts).value;
            && m1.reader == AtHeader && m1.got == m.got + 1 && m1.inbound == m.inbound && m1.sent == m.sent
            && m1.nextSeq == m.nextSeq && m1.calls.Keys == m.calls.Keys
            && forall p :: p in m.calls && p != q ==> m1.calls[p] == m.calls[p]
    ensures var calls := Steps(c, m, peer, acts).value.calls;
            && q in calls && calls[q].msg == m.calls[q].msg && calls[q].pc.Done? && calls[q].pc.res.Some?
            && calls[q].pc.res.value == InMsg(m.reader.p.data, m.reader.files, m.reader.p.annotations, q)
  {
    acts := [Dispatch] + ([Receive(q)] + []);
    StepsCons(c, m, peer, Dispatch, [Receive(q)] + []);
    StepsCons(c, DoDispatch(m).value, peer, Receive(q), []);
  }

  /** What the invariant says of an unread frame. */
  lemma Unread(c: Codec, tr: Trace, side: Side)
    requires Lawful(c) && Exec(c, tr).Some?
    ensures var me, sent := At(Exec(c, tr).value, side), At(Exec(c, tr).value, Other(side)).sent;
            ReaderOk(c, me.reader, me.pos, me.got, sent) && forall j :: 0 <= j < |sent| ==> FitsWire(c, sent[j])
  {
    hide Exec, FrameOk, FitsWire, Lawful, CallsOk, HandlesOk, RepliesOk, QueueOk, ReaderOk;
    RunOk(c, tr);
  }

  lemma ReadNext(c: Codec, tr: Trace, side: Side, m: State, peer: State) returns (tr1: Trace, m1: State)
    requires Lawful(c) && Exec(c, tr).Some?
    requires m == At(Exec(c, tr).value, side) && peer == At(Exec(c, tr).value, Other(side))
    requires m.reader.AtHeader? && m.got < |peer.sent|
    ensures Exec(c, tr1).Some? && m1 == At(Exec(c, tr1).value, side) && peer == At(Exec(c, tr1).value, Other(side))
    ensures m1.reader.AtDispatch? && m1.reader.p == Clean(c, peer.sent[m.got].payload)
    ensures m1 == m.(reader := m1.reader, pos := m1.pos, created := m1.created, place := m1.place)
  {
    Unread(c, tr, side);
    hide Exec, Steps, ReaderOk, FitsWire, Clean, Lawful;
    var acts := Reads(c, m, peer.sent);
    tr1 := AddSteps(c, tr, side, acts);
    m1 := At(Exec(c, tr1).value, side);
  }

  /** A request reaches a quiet end and is answered there. */
  lemma AskedAndAnswered(c: Codec, tr: Trace, side: Side, m: State, peer: State, msg: Msg, reply: Msg)
    returns (tr1: Trace, m1: State, peer1: State)
    requires Lawful(c) && Exec(c, tr).Some? && Counted(msg) && Counted(reply)
    requires m == At(Exec(c, tr).value, side) && peer == At(Exec(c, tr).value, Other(side))
    requires Quiet(peer, m.sent) && m.nextSeq + 1 < U64
    requires |c.marshal(Payload(m.nextSeq + 1, false, msg.annotations, msg.data))| < U32
    requires |c.marshal(Payload(m.nextSeq + 1, true, reply.annotations, reply.data))| < U32
    ensures Exec(c, tr1).Some? && m1 == At(Exec(c, tr1).value, side) && peer1 == At(Exec(c, tr1).value, Other(side))
    ensures m1.reader == m.reader && m1.got == m.got && m.nextSeq + 1 in m1.sessions && m.nextSeq + 1 in m1.calls
    ensures var k := m1.calls[m.nextSeq + 1]; k.msg == msg && k.pc.Waiting? && k.ch == NEW_CHAN
    ensures |peer1.sent| == |peer.sent| + 1 && Carries(peer1.sent[|peer.sent|], true, m.nextSeq + 1, reply)
  {
    hide Exec, Steps, Lawful;
    var acts := Asks(c, m, peer.sent, msg);
    tr1 := AddSteps(c, tr, side, acts);
    m1 := At(Exec(c, tr1).value, side);
    CleanKeeps(c, m1.sent[|m.sent|].payload);
    hide Clean;
    var mid;
    tr1, mid := ReadNext(c, tr1, Other(side), peer, m1);
    acts := Answers(c, mid, m1.sent, reply);
    tr1 := AddSteps(c, tr1, Other(side), acts);
    peer1 := At(Exec(c, tr1).value, Other(side));
  }

  /** Wherever both ends are quiet any message can be sent and any reply be given: some continuation
      makes the next Request return it. */
  lemma RequestCanSucceed(c: Codec, tr: Trace, side: Side, msg: Msg, reply: Msg) returns (tr1: Trace)
    requires Lawful(c) && Exec(c, tr).Some? && Counted(msg) && Counted(reply)
    requires var m, peer := At(Exec(c, tr).value, side), At(Exec(c, tr).value, Other(side));
             && Quiet(m, peer.sent) && Quiet(peer, m.sent) && m.nextSeq + 1 < U64
             && |c.marshal(Payload(m.nextSeq + 1, false, msg.annotations, msg.data))| < U32
             && |c.marshal(Payload(m.nextSeq + 1, true, reply.annotations, reply.data))| < U32
    ensures Exec(c, tr1).Some?
    ensures var q, calls := At(Exec(c, tr).value, side).nextSeq + 1, At(Exec(c, tr1).value, side).calls;
            && q in calls && calls[q].msg == msg && calls[q].pc.Done? && calls[q].pc.res.Some?
            && calls[q].pc.res.value.data == reply.data
  {
    hide Exec, Steps, Lawful;
    var m, peer := At(Exec(c, tr).value, side), At(Exec(c, tr).value, Other(side));
    var m1, peer1;
    tr1, m1, peer1 := AskedAndAnswered(c, tr, side, m, peer, msg, reply);
    CleanKeeps(c, peer1.sent[|peer.sent|].payload);
    hide Clean;
    var m2;
    tr1, m2 := ReadNext(c, tr1, side, m1, peer1);
    var acts := Returns(c, m2, peer1.sent, m.nextSeq + 1);
    tr1 := AddSteps(c, tr1, side, acts);
  }

  // ---------- The inbound queue ----------

  /** The reader waits for the program only when 128 requests are queued, and there are never more. */
  lemma QueueBlocksExactly(c: Codec, tr: Trace, side: Side)
    requires Lawful(c) && Exec(c, tr).Some?
    ensures var me := At(Exec(c, tr).value, side);
            && |me.inbound| <= 128
            && (me.reader.AtDispatch? && !me.reader.p.isResponse ==>
                  (StepLink(c, Exec(c, tr).value, side, Dispatch).Some? <==> |me.inbound| < 128))
  {
    hide Exec, CallsOk, SentOk, RepliesOk, HandlesOk, ReaderOk, Lawful;
    RunOk(c, tr);
  }
}
