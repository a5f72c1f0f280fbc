/** Every step keeps the invariant: one small lemma for each part a step touches. */
module MuxSteps {
  import opened Base
  import opened Wire
  import opened Mux
  import opened MuxInvariant

  // ---------- The reader ----------

  lemma CleanKeeps(c: Codec, p: Payload)
    ensures Clean(c, p).seqNo == p.seqNo && Clean(c, p).isResponse == p.isResponse && Clean(c, p).data == p.data
  {}

  lemma SliceOfSlice<T>(s: seq<T>, lo: nat, hi: nat, a: nat, b: nat)
    requires a <= b && lo + b <= hi <= |s|
    ensures s[lo + a..lo + b] == s[lo..hi][a..b]
  {
    var x, y := s[lo + a..lo + b], s[lo..hi][a..b];
    assert |x| == |y|;
    forall i | 0 <= i < |x| ensures x[i] == y[i] {
      assert x[i] == s[lo + a + i];
      assert y[i] == s[lo..hi][a + i];
    }
  }

  /** Bytes [lo, lo + 4) at a frame boundary are that frame's header. */
  lemma HeaderAt(c: Codec, fs: seq<Frame>, k: nat)
    requires k < |fs|
    ensures var lo := |Flat(c, fs[..k])|;
            lo + 4 <= |Flat(c, fs)| && Flat(c, fs)[lo..lo + 4] == PutU32(|c.marshal(fs[k].payload)|)
  {
    FlatAt(c, fs, k);
    SliceOfSlice(Flat(c, fs), |Flat(c, fs[..k])|, |Flat(c, fs[..k + 1])|, 0, 4);
  }

  /** The n bytes after that header start the frame's body. */
  lemma BodyAt(c: Codec, fs: seq<Frame>, k: nat, n: nat)
    requires k < |fs| && n <= |c.marshal(fs[k].payload)|
    ensures var lo := |Flat(c, fs[..k])| + 4;
            lo + n <= |Flat(c, fs)| && Flat(c, fs)[lo..lo + n] == c.marshal(fs[k].payload)[..n]
  {
    FlatAt(c, fs, k);
    SliceOfSlice(Flat(c, fs), |Flat(c, fs[..k])|, |Flat(c, fs[..k + 1])|, 4, 4 + n);
    SliceOfSlice(Encode(c, fs[k].payload), 4, |Encode(c, fs[k].payload)|, 0, n);
    assert Encode(c, fs[k].payload)[4..] == c.marshal(fs[k].payload);
  }

  /** At a boundary with unread bytes there is an unread frame. */
  lemma BytesMeanFrame(c: Codec, fs: seq<Frame>, k: nat)
    requires k <= |fs| && |Flat(c, fs[..k])| < |Flat(c, fs)|
    ensures k < |fs|
  {
    assert fs[..|fs|] == fs;
  }

  lemma NewHandlesFds(fds: seq<Fd>, base: nat)
    ensures FdsOf(NewHandles(fds, base)) == fds
  {}

  lemma ReadHeaderOk(c: Codec, m: State, peer: seq<Frame>, n: nat)
    requires ReaderOk(c, m.reader, m.pos, m.got, peer)
    requires forall j :: 0 <= j < |peer| ==> FitsWire(c, peer[j])
    requires DoReadHeader(c, m, peer, n).Some?
    ensures var m1 := DoReadHeader(c, m, peer, n).value; ReaderOk(c, m1.reader, m1.pos, m1.got, peer)
  {
    if n == 4 {
      BytesMeanFrame(c, peer, m.got);
      HeaderAt(c, peer, m.got);
      HeaderExact(|c.marshal(peer[m.got].payload)|);
      FdsAt(c, peer, m.got, 4);
      NewHandlesFds(Cap(peer[m.got].fds), m.created);
    }
  }

  /** A short body ends in NUL bytes, so the decoder rejects it; a whole body decodes. */
  lemma BodyDecodes(c: Codec, fs: seq<Frame>, k: nat, n: nat)
    requires Lawful(c) && k < |fs| && FitsWire(c, fs[k])
    requires n <= |c.marshal(fs[k].payload)|
    ensures var lo, len := |Flat(c, fs[..k])| + 4, |c.marshal(fs[k].payload)|;
            && lo + n <= |Flat(c, fs)|
            && c.unmarshal(ReadBuffer(Flat(c, fs), lo, n, len)) ==
               if n == len then Some(Clean(c, fs[k].payload)) else None
  {
    BodyAt(c, fs, k, n);
    var lo, body := |Flat(c, fs[..k])| + 4, c.marshal(fs[k].payload);
    var buf := ReadBuffer(Flat(c, fs), lo, n, |body|);
    if n == |body| {
      assert buf == body;
    } else {
      assert buf[n] == 0;
    }
  }

  /** After a whole body the reader holds what the next frame delivers. */
  lemma WholeBody(c: Codec, r: Reader, pos: nat, got: nat, peer: seq<Frame>)
    requires ReaderOk(c, r, pos, got, peer) && r.AtBody?
    ensures ReaderOk(c, AtDispatch(Clean(c, peer[got].payload), r.files), pos + r.len, got, peer)
  {
    FlatAt(c, peer, got);
  }

  lemma ReadBodyOk(c: Codec, m: State, peer: seq<Frame>, n: nat)
    requires Lawful(c)
    requires ReaderOk(c, m.reader, m.pos, m.got, peer)
    requires forall j :: 0 <= j < |peer| ==> FitsWire(c, peer[j])
    requires DoReadBody(c, m, peer, n).Some?
    ensures var m1 := DoReadBody(c, m, peer, n).value; ReaderOk(c, m1.reader, m1.pos, m1.got, peer)
  {
    BodyDecodes(c, peer, m.got, n);
    if n == m.reader.len {
      WholeBody(c, m.reader, m.pos, m.got, peer);
    }
  }

  lemma ReaderSeesMore(c: Codec, r: Reader, pos: nat, got: nat, peer: seq<Frame>, f: Frame)
    requires ReaderOk(c, r, pos, got, peer)
    ensures ReaderOk(c, r, pos, got, peer + [f])
  {
    assert (peer + [f])[..got] == peer[..got];
    if got < |peer| {
      assert (peer + [f])[..got + 1] == peer[..got + 1];
    }
  }

  // ---------- The inbound queue ----------

  lemma RequestsSnoc(c: Codec, fs: seq<Frame>, k: nat)
    requires k < |fs|
    ensures RequestsIn(c, fs[..k + 1]) ==
            RequestsIn(c, fs[..k]) + if fs[k].payload.isResponse then [] else [Deliver(c, fs[k])]
  {
    assert fs[..k + 1][..k] == fs[..k];
  }

  lemma QueueSeesMore(c: Codec, handled: seq<InMsg>, inbound: seq<InMsg>, got: nat, peer: seq<Frame>, f: Frame)
    requires QueueOk(c, handled, inbound, got, peer)
    ensures QueueOk(c, handled, inbound, got, peer + [f])
  {
    assert (peer + [f])[..got] == peer[..got];
  }

  lemma QueueDispatch(c: Codec, m: State, peer: seq<Frame>)
    requires ReaderOk(c, m.reader, m.pos, m.got, peer)
    requires QueueOk(c, m.handled, m.inbound, m.got, peer)
    requires DoDispatch(m).Some?
    ensures var m1 := DoDispatch(m).value; QueueOk(c, m1.handled, m1.inbound, m1.got, peer)
  {
    RequestsSnoc(c, peer, m.got);
    CleanKeeps(c, peer[m.got].payload);
    var m1 := DoDispatch(m).value;
    if !m.reader.p.isResponse {
      var msg := InMsg(m.reader.p.data, m.reader.files, m.reader.p.annotations, m.reader.p.seqNo);
      assert m1.handled + m1.inbound == (m.handled + m.inbound) + [msg];
      assert Seen(false, msg) == Deliver(c, peer[m.got]);
    }
  }

  lemma QueueTake(c: Codec, m: State, got: nat, peer: seq<Frame>)
    requires QueueOk(c, m.handled, m.inbound, got, peer) && DoTakeRequest(m).Some?
    ensures var m1 := DoTakeRequest(m).value;
            QueueOk(c, m1.handled, m1.inbound, got, peer) && m1.handled + m1.inbound == m.handled + m.inbound
  {}

  /** A delivered request was written as a request frame. */
  lemma {:induction false} RequestHasFrame(c: Codec, fs: seq<Frame>, i: nat) returns (k: nat)
    requires i < |RequestsIn(c, fs)|
    ensures k < |fs| && !fs[k].payload.isResponse && RequestsIn(c, fs)[i] == Deliver(c, fs[k])
  {
    var n := |fs| - 1;
    if i < |RequestsIn(c, fs[..n])| {
      k := RequestHasFrame(c, fs[..n], i);
    } else {
      k := n;
    }
  }

  // ---------- Calls ----------

  /** Only call q and its session changed. */
  lemma OneCall(c: Codec, m: State, m1: State, q: nat, peer: seq<Frame>)
    requires CallsOk(c, m, peer)
    requires m1.got == m.got && SessionsClosed(m1.reader) == SessionsClosed(m.reader)
    requires m.nextSeq <= m1.nextSeq
    requires q in m1.calls && 1 <= q <= m1.nextSeq && q < U64
    requires m1.calls.Keys == m.calls.Keys + {q}
    requires forall p :: p in m.calls && p != q ==> m1.calls[p] == m.calls[p] && (p in m1.sessions <==> p in m.sessions)
    requires m1.sessions <= m1.calls.Keys
    requires CallOk(c, q, m1.calls[q], q in m1.sessions, SessionsClosed(m1.reader), m1.got, peer)
    ensures CallsOk(c, m1, peer)
  {
    forall p | p in m1.calls
      ensures 1 <= p <= m1.nextSeq && p < U64
      ensures CallOk(c, p, m1.calls[p], p in m1.sessions, SessionsClosed(m1.reader), m1.got, peer)
    {
      if p != q {
        assert p in m.calls;
      }
    }
  }

  lemma NotWrittenNoReply(m: State, peer: seq<Frame>, q: nat)
    requires RepliesOk(m, peer)
    requires q !in m.calls || !Wrote(m.calls[q])
    ensures forall n: nat :: NoReply(peer, n, q)
  {}

  lemma StartCalls(c: Codec, m: State, msg: Msg, peer: seq<Frame>)
    requires CallsOk(c, m, peer) && RepliesOk(m, peer) && DoStart(m, msg).Some?
    ensures CallsOk(c, DoStart(m, msg).value, peer) && m.nextSeq + 1 !in m.calls
  {
    NotWrittenNoReply(m, peer, m.nextSeq + 1);
    OneCall(c, m, DoStart(m, msg).value, m.nextSeq + 1, peer);
  }

  lemma RegisterCalls(c: Codec, m: State, q: nat, peer: seq<Frame>)
    requires CallsOk(c, m, peer) && RepliesOk(m, peer) && DoRegister(m, q).Some?
    ensures CallsOk(c, DoRegister(m, q).value, peer)
  {
    NotWrittenNoReply(m, peer, q);
    OneCall(c, m, DoRegister(m, q).value, q, peer);
  }

  lemma WriteCalls(c: Codec, m: State, q: nat, ok: bool, peer: seq<Frame>)
    requires CallsOk(c, m, peer) && DoWriteRequest(c, m, q, ok).Some?
    ensures CallsOk(c, DoWriteRequest(c, m, q, ok).value, peer)
  {
    OneCall(c, m, DoWriteRequest(c, m, q, ok).value, q, peer);
  }

  lemma UnregisterCalls(c: Codec, m: State, q: nat, peer: seq<Frame>)
    requires CallsOk(c, m, peer) && RepliesOk(m, peer) && DoUnregister(m, q).Some?
    ensures CallsOk(c, DoUnregister(m, q).value, peer)
    ensures m.calls[q].ch.buf.None?
  {
    NotWrittenNoReply(m, peer, q);
    OneCall(c, m, DoUnregister(m, q).value, q, peer);
  }

  lemma ReceiveCalls(c: Codec, m: State, q: nat, peer: seq<Frame>)
    requires CallsOk(c, m, peer) && DoReceive(m, q).Some?
    ensures CallsOk(c, DoReceive(m, q).value, peer)
  {
    OneCall(c, m, DoReceive(m, q).value, q, peer);
  }

  /** A call the frame does not answer keeps its clauses when one more frame is dispatched. */
  lemma CallSkips(c: Codec, q: nat, k: Call, inSess: bool, drained: bool, got: nat, peer: seq<Frame>)
    requires got < |peer|
    requires CallOk(c, q, k, inSess, drained, got, peer)
    requires k.ans.None? ==> !IsReplyTo(peer[got], q)
    ensures CallOk(c, q, k, inSess, drained, got + 1, peer)
  {}

  /** The channel of a registered session is empty and open: the send neither blocks nor panics. */
  lemma SendReady(c: Codec, m: State, peer: seq<Frame>)
    requires CallsOk(c, m, peer)
    requires m.reader.AtDispatch? && m.reader.p.isResponse
    ensures DoDispatch(m).Some? && !DoDispatch(m).value.reader.Panicked?
  {}

  lemma DispatchCalls(c: Codec, m: State, peer: seq<Frame>)
    requires CallsOk(c, m, peer) && RepliesOk(m, peer)
    requires ReaderOk(c, m.reader, m.pos, m.got, peer) && DoDispatch(m).Some?
    ensures CallsOk(c, DoDispatch(m).value, peer)
  {
    var m1 := DoDispatch(m).value;
    var f := peer[m.got];
    CleanKeeps(c, f.payload);
    forall q | q in m1.calls
      ensures 1 <= q <= m1.nextSeq && q < U64
      ensures CallOk(c, q, m1.calls[q], q in m1.sessions, SessionsClosed(m1.reader), m1.got, peer)
    {
      assert CallOk(c, q, m.calls[q], q in m.sessions, SessionsClosed(m.reader), m.got, peer);
      if q in m.sessions && IsReplyTo(f, q) {
        Answered(c, m, q, peer);
      } else {
        if m.calls[q].ans.None? && IsReplyTo(f, q) {
          Unanswered(c, m, q, peer);
        }
        CallSkips(c, q, m.calls[q], q in m.sessions, SessionsClosed(m.reader), m.got, peer);
      }
    }
  }

  /** A reply to a call that still lacks one finds its session. */
  lemma Unanswered(c: Codec, m: State, q: nat, peer: seq<Frame>)
    requires CallsOk(c, m, peer) && RepliesOk(m, peer) && ReaderOk(c, m.reader, m.pos, m.got, peer)
    requires m.reader.AtDispatch? && q in m.calls && m.calls[q].ans.None? && IsReplyTo(peer[m.got], q)
    ensures q in m.sessions
  {
    assert CallOk(c, q, m.calls[q], q in m.sessions, SessionsClosed(m.reader), m.got, peer);
    assert Wrote(m.calls[peer[m.got].payload.seqNo]);
  }

  lemma Answered(c: Codec, m: State, q: nat, peer: seq<Frame>)
    requires CallsOk(c, m, peer) && RepliesOk(m, peer)
    requires ReaderOk(c, m.reader, m.pos, m.got, peer) && DoDispatch(m).Some?
    requires m.reader.AtDispatch? && q in m.sessions && IsReplyTo(peer[m.got], q)
    ensures var m1 := DoDispatch(m).value;
            q in m1.calls && CallOk(c, q, m1.calls[q], q in m1.sessions, SessionsClosed(m1.reader), m1.got, peer)
  {
    CleanKeeps(c, peer[m.got].payload);
  }

  lemma CloseCalls(c: Codec, m: State, peer: seq<Frame>)
    requires CallsOk(c, m, peer) && DoCloseSessions(m).Some?
    ensures DoCloseSessions(m).value.reader.Drained?
    ensures CallsOk(c, DoCloseSessions(m).value, peer)
  {
    var m1 := DoCloseSessions(m).value;
    forall q | q in m1.calls
      ensures 1 <= q <= m1.nextSeq && q < U64
      ensures CallOk(c, q, m1.calls[q], q in m1.sessions, SessionsClosed(m1.reader), m1.got, peer)
    {
      assert CallOk(c, q, m.calls[q], q in m.sessions, SessionsClosed(m.reader), m.got, peer);
    }
  }

  lemma CallsSeeMore(c: Codec, m: State, peer: seq<Frame>, f: Frame)
    requires CallsOk(c, m, peer) && m.got <= |peer|
    ensures CallsOk(c, m, peer + [f])
  {
    forall q | q in m.calls
      ensures CallOk(c, q, m.calls[q], q in m.sessions, SessionsClosed(m.reader), m.got, peer + [f])
    {
      assert CallOk(c, q, m.calls[q], q in m.sessions, SessionsClosed(m.reader), m.got, peer);
    }
  }

  // ---------- Frames written and replies received ----------

  /** Calls keep their message and stay written; more requests may have been handled. */
  ghost predicate Grows(m: State, m1: State) {
    && (forall q :: q in m.calls ==> q in m1.calls && m1.calls[q].msg == m.calls[q].msg
                                     && (Wrote(m.calls[q]) ==> Wrote(m1.calls[q])))
    && m.handled <= m1.handled
  }

  lemma SentStays(c: Codec, m: State, m1: State)
    requires SentOk(c, m) && Grows(m, m1) && m1.sent == m.sent
    ensures SentOk(c, m1)
  {
    forall j | 0 <= j < |m1.sent| ensures FrameOk(m1, m1.sent[j]) {
      assert FrameOk(m, m.sent[j]);
    }
  }

  lemma RepliesStay(m: State, m1: State, peer: seq<Frame>)
    requires RepliesOk(m, peer) && Grows(m, m1)
    ensures RepliesOk(m1, peer)
  {}

  lemma SentAppend(c: Codec, m: State, m1: State, f: Frame)
    requires SentOk(c, m) && Grows(m, m1) && m1.sent == m.sent + [f]
    requires FrameOk(m1, f) && FitsWire(c, f)
    requires !f.payload.isResponse ==> f.payload.seqNo in m.calls && !Wrote(m.calls[f.payload.seqNo])
    ensures SentOk(c, m1)
  {
    forall j | 0 <= j < |m1.sent| ensures FrameOk(m1, m1.sent[j]) && FitsWire(c, m1.sent[j]) {
      if j < |m.sent| {
        assert FrameOk(m, m.sent[j]);
      }
    }
    forall i | 0 <= i < |m.sent| && !m.sent[i].payload.isResponse && !f.payload.isResponse
      ensures m.sent[i].payload.seqNo != f.payload.seqNo
    {
      assert FrameOk(m, m.sent[i]);
    }
  }

  /** A request this side returned from HandleRequest was written by a call of the peer. */
  lemma HandledWasWritten(c: Codec, m: State, peer: State, h: nat) returns (k: nat)
    requires QueueOk(c, m.handled, m.inbound, m.got, peer.sent) && SentOk(c, peer)
    requires h < |m.handled|
    ensures k < |peer.sent| && !peer.sent[k].payload.isResponse
    ensures Seen(false, m.handled[h]) == Deliver(c, peer.sent[k])
    ensures FrameOk(peer, peer.sent[k]) && FitsWire(c, peer.sent[k])
  {
    assert SeenRequests(m.handled + m.inbound)[h] == Seen(false, m.handled[h]);
    k := RequestHasFrame(c, peer.sent[..m.got], h);
  }
}
