/** Every run of two connected fdchan ends keeps the invariant. */
module MuxRun {
  import opened Base
  import opened Wire
  import opened Mux
  import opened MuxInvariant
  import opened MuxSteps
  import opened MuxHandles

  // ---------- One step keeps the invariant ----------

  /** Only the calls table (and perhaps `sent` and `sessions`) changed, and no file moved. */
  lemma CallStep(c: Codec, m: State, m1: State, peer: seq<Frame>)
    requires EndOk(c, m, peer) && CallsOk(c, m1, peer) && SentOk(c, m1) && Grows(m, m1)
    requires m1 == m.(nextSeq := m1.nextSeq, calls := m1.calls, sessions := m1.sessions, sent := m1.sent, reader := m1.reader)
    requires m1.reader == m.reader || (m.reader.Failed? && m1.reader.Drained?)
    requires forall q :: HandlesAt(m1, InResult(q)) == HandlesAt(m, InResult(q))
    ensures EndOk(c, m1, peer)
  {
    RepliesStay(m, m1, peer);
    Unmoved(m, m1);
  }

  lemma StartStep(c: Codec, m: State, msg: Msg, peer: seq<Frame>)
    requires EndOk(c, m, peer) && DoStart(m, msg).Some?
    ensures EndOk(c, DoStart(m, msg).value, peer)
  {
    hide HandlesOk, ReaderOk, QueueOk, RepliesOk, CallsOk, SentOk;
    StartCalls(c, m, msg, peer);
    SentStays(c, m, DoStart(m, msg).value);
    CallStep(c, m, DoStart(m, msg).value, peer);
  }

  lemma RegisterStep(c: Codec, m: State, q: nat, peer: seq<Frame>)
    requires EndOk(c, m, peer) && DoRegister(m, q).Some?
    ensures EndOk(c, DoRegister(m, q).value, peer)
  {
    hide HandlesOk, ReaderOk, QueueOk, RepliesOk, CallsOk, SentOk;
    RegisterCalls(c, m, q, peer);
    SentStays(c, m, DoRegister(m, q).value);
    CallStep(c, m, DoRegister(m, q).value, peer);
  }

  lemma WriteSent(c: Codec, m: State, q: nat, ok: bool, peer: seq<Frame>)
    requires CallsOk(c, m, peer) && SentOk(c, m) && DoWriteRequest(c, m, q, ok).Some?
    ensures SentOk(c, DoWriteRequest(c, m, q, ok).value)
  {
    var m1 := DoWriteRequest(c, m, q, ok).value;
    if m1.sent == m.sent {
      SentStays(c, m, m1);
    } else {
      SentAppend(c, m, m1, Frame(RequestPayload(q, m.calls[q].msg), m.calls[q].msg.fds, FromCall(q)));
    }
  }

  /** A request to be written holds no handles. */
  lemma WriteFiles(c: Codec, m: State, q: nat, ok: bool, peer: seq<Frame>)
    requires CallsOk(c, m, peer) && DoWriteRequest(c, m, q, ok).Some?
    ensures forall p :: HandlesAt(DoWriteRequest(c, m, q, ok).value, InResult(p)) == HandlesAt(m, InResult(p))
  {
    hide LateOk, AnswerOk;
    assert CallOk(c, q, m.calls[q], q in m.sessions, SessionsClosed(m.reader), m.got, peer);
  }

  lemma WriteStep(c: Codec, m: State, q: nat, ok: bool, peer: seq<Frame>)
    requires EndOk(c, m, peer) && DoWriteRequest(c, m, q, ok).Some?
    ensures EndOk(c, DoWriteRequest(c, m, q, ok).value, peer)
  {
    hide HandlesOk, ReaderOk, QueueOk, RepliesOk, CallsOk, SentOk, Lawful;
    WriteFiles(c, m, q, ok, peer);
    WriteCalls(c, m, q, ok, peer);
    WriteSent(c, m, q, ok, peer);
    CallStep(c, m, DoWriteRequest(c, m, q, ok).value, peer);
  }

  lemma UnregisterStep(c: Codec, m: State, q: nat, peer: seq<Frame>)
    requires EndOk(c, m, peer) && DoUnregister(m, q).Some?
    ensures EndOk(c, DoUnregister(m, q).value, peer)
  {
    hide HandlesOk, ReaderOk, QueueOk, RepliesOk, CallsOk, SentOk;
    UnregisterCalls(c, m, q, peer);
    SentStays(c, m, DoUnregister(m, q).value);
    CallStep(c, m, DoUnregister(m, q).value, peer);
  }

  /** A received result keeps its handles, and the call counts as written as before. */
  lemma ReceiveFiles(c: Codec, m: State, q: nat, peer: seq<Frame>)
    requires CallsOk(c, m, peer) && DoReceive(m, q).Some?
    ensures Grows(m, DoReceive(m, q).value)
    ensures forall p :: HandlesAt(DoReceive(m, q).value, InResult(p)) == HandlesAt(m, InResult(p))
  {
    assert CallOk(c, q, m.calls[q], q in m.sessions, SessionsClosed(m.reader), m.got, peer);
  }

  lemma ReceiveStep(c: Codec, m: State, q: nat, peer: seq<Frame>)
    requires EndOk(c, m, peer) && DoReceive(m, q).Some?
    ensures EndOk(c, DoReceive(m, q).value, peer)
  {
    hide HandlesOk, ReaderOk, QueueOk, RepliesOk, CallsOk, SentOk;
    ReceiveCalls(c, m, q, peer);
    ReceiveFiles(c, m, q, peer);
    SentStays(c, m, DoReceive(m, q).value);
    CallStep(c, m, DoReceive(m, q).value, peer);
  }

  lemma CloseGrows(c: Codec, m: State, peer: seq<Frame>)
    requires CallsOk(c, m, peer) && DoCloseSessions(m).Some?
    ensures Grows(m, DoCloseSessions(m).value)
  {
    hide AnswerOk;
    forall q | q in m.calls ensures Wrote(m.calls[q]) ==> Wrote(DoCloseSessions(m).value.calls[q]) {
      assert CallOk(c, q, m.calls[q], q in m.sessions, SessionsClosed(m.reader), m.got, peer);
    }
  }

  lemma CloseSessionsStep(c: Codec, m: State, peer: seq<Frame>)
    requires EndOk(c, m, peer) && DoCloseSessions(m).Some?
    ensures EndOk(c, DoCloseSessions(m).value, peer)
  {
    hide HandlesOk, ReaderOk, QueueOk, RepliesOk, CallsOk, SentOk;
    CloseCalls(c, m, peer);
    CloseGrows(c, m, peer);
    SentStays(c, m, DoCloseSessions(m).value);
    CallStep(c, m, DoCloseSessions(m).value, peer);
  }

  /** The reader moved between two states before it closes the sessions; calls are as they were. */
  lemma ReaderStep(c: Codec, m: State, m1: State, peer: seq<Frame>)
    requires EndOk(c, m, peer)
    requires m1 == m.(reader := m1.reader, pos := m1.pos, created := m1.created, place := m1.place, closedFiles := m1.closedFiles)
    requires ReaderOk(c, m1.reader, m1.pos, m1.got, peer) && HandlesOk(m1)
    requires SessionsClosed(m1.reader) == SessionsClosed(m.reader)
    ensures EndOk(c, m1, peer)
  {
    SentStays(c, m, m1);
    RepliesStay(m, m1, peer);
  }

  lemma ReadHeaderStep(c: Codec, m: State, peer: State, n: nat)
    requires EndOk(c, m, peer.sent) && SentOk(c, peer) && DoReadHeader(c, m, peer.sent, n).Some?
    ensures EndOk(c, DoReadHeader(c, m, peer.sent, n).value, peer.sent)
  {
    ReadHeaderOk(c, m, peer.sent, n);
    HeaderHandles(c, m, peer.sent, n);
    ReaderStep(c, m, DoReadHeader(c, m, peer.sent, n).value, peer.sent);
  }

  lemma ReadBodyStep(c: Codec, m: State, peer: State, n: nat)
    requires Lawful(c)
    requires EndOk(c, m, peer.sent) && SentOk(c, peer) && DoReadBody(c, m, peer.sent, n).Some?
    ensures EndOk(c, DoReadBody(c, m, peer.sent, n).value, peer.sent)
  {
    hide HandlesOk, CallsOk, QueueOk, RepliesOk, ReadBuffer, Lawful;
    ReadBodyOk(c, m, peer.sent, n);
    var m1 := DoReadBody(c, m, peer.sent, n).value;
    ReadBodyHandles(c, m, peer.sent, n);
    ReaderStep(c, m, m1, peer.sent);
  }

  lemma ReadBodyHandles(c: Codec, m: State, peer: seq<Frame>, n: nat)
    requires HandlesOk(m) && DoReadBody(c, m, peer, n).Some?
    ensures HandlesOk(DoReadBody(c, m, peer, n).value)
  {
    var m1 := DoReadBody(c, m, peer, n).value;
    if m1.reader.Failed? {
      CloseHandles(m, m1);
    } else {
      Unmoved(m, m1);
    }
  }

  lemma BodyErrorStep(c: Codec, m: State, peer: seq<Frame>)
    requires EndOk(c, m, peer) && m.reader.AtBody?
    ensures EndOk(c, CloseAll(m, m.reader.files).(reader := Failed), peer)
  {
    var m1 := CloseAll(m, m.reader.files).(reader := Failed);
    CloseHandles(m, m1);
    ReaderStep(c, m, m1, peer);
  }

  /** A header error, closing done and a refused HandleRequest change the reader's state or a count only. */
  lemma PlainStep(c: Codec, m: State, m1: State, peer: seq<Frame>)
    requires EndOk(c, m, peer)
    requires m1 == m.(reader := m1.reader, refusals := m1.refusals)
    requires ReaderFiles(m1.reader) == ReaderFiles(m.reader) == []
    requires ReaderOk(c, m1.reader, m1.pos, m1.got, peer)
    requires SessionsClosed(m1.reader) == SessionsClosed(m.reader)
    ensures EndOk(c, m1, peer)
  {
    Unmoved(m, m1);
    SentStays(c, m, m1);
    RepliesStay(m, m1, peer);
  }

  /** A waiting session holds no handles, and the call of one counts as written as before. */
  lemma DispatchGrows(c: Codec, m: State, peer: seq<Frame>)
    requires CallsOk(c, m, peer) && DoDispatch(m).Some?
    ensures Grows(m, DoDispatch(m).value)
    ensures forall q :: q in m.sessions && q in m.calls ==> CallFiles(m.calls[q]) == []
  {
    hide LateOk, AnswerOk;
    forall q | q in m.sessions && q in m.calls
      ensures !m.calls[q].pc.Done? && CallFiles(m.calls[q]) == []
    {
      assert CallOk(c, q, m.calls[q], true, SessionsClosed(m.reader), m.got, peer);
    }
  }

  lemma DispatchReader(c: Codec, m: State, peer: seq<Frame>)
    requires ReaderOk(c, m.reader, m.pos, m.got, peer) && DoDispatch(m).Some? && !DoDispatch(m).value.reader.Panicked?
    ensures var m1 := DoDispatch(m).value; ReaderOk(c, m1.reader, m1.pos, m1.got, peer)
  {}

  lemma DispatchStep(c: Codec, m: State, peer: seq<Frame>)
    requires EndOk(c, m, peer) && DoDispatch(m).Some?
    ensures EndOk(c, DoDispatch(m).value, peer)
  {
    hide HandlesOk, ReaderOk, QueueOk, RepliesOk, CallsOk, SentOk;
    var m1 := DoDispatch(m).value;
    if m.reader.p.isResponse {
      SendReady(c, m, peer);
    }
    DispatchCalls(c, m, peer);
    DispatchGrows(c, m, peer);
    DispatchReader(c, m, peer);
    QueueDispatch(c, m, peer);
    DispatchHandles(m);
    SentStays(c, m, m1);
    RepliesStay(m, m1, peer);
  }

  lemma TakeStep(c: Codec, m: State, peer: seq<Frame>)
    requires EndOk(c, m, peer) && DoTakeRequest(m).Some?
    ensures EndOk(c, DoTakeRequest(m).value, peer)
  {
    var m1 := DoTakeRequest(m).value;
    QueueTake(c, m, m.got, peer);
    SentStays(c, m, m1);
    RepliesStay(m, m1, peer);
    Unmoved(m, m1);
  }

  lemma RespondStep(c: Codec, m: State, peer: State, h: nat, reply: Msg, ok: bool)
    requires EndOk(c, m, peer.sent) && SentOk(c, peer) && DoRespond(c, m, h, reply, ok).Some?
    ensures EndOk(c, DoRespond(c, m, h, reply, ok).value, peer.sent)
  {
    var m1 := DoRespond(c, m, h, reply, ok).value;
    if m1.sent != m.sent {
      var k := HandledWasWritten(c, m, peer, h);
      CleanKeeps(c, peer.sent[k].payload);
      SentAppend(c, m, m1, Frame(ReplyPayload(m.handled[h].seqNo, reply), reply.fds, FromResponder(h)));
    }
    RepliesStay(m, m1, peer.sent);
    Unmoved(m, m1);
  }

  lemma QuietStep(c: Codec, m: State, peer: seq<Frame>, a: Act)
    requires EndOk(c, m, peer) && (a.ReadHeaderError? || a.CloseDone? || a.RefuseRequest?) && Do(c, m, peer, a).Some?
    ensures EndOk(c, Do(c, m, peer, a).value, peer)
  {
    PlainStep(c, m, Do(c, m, peer, a).value, peer);
  }

  lemma OwnStep(c: Codec, m: State, peer: State, a: Act)
    requires Lawful(c) && EndOk(c, m, peer.sent) && SentOk(c, peer)
    requires Do(c, m, peer.sent, a).Some?
    ensures EndOk(c, Do(c, m, peer.sent, a).value, peer.sent)
  {
    hide EndOk, SentOk, Lawful;
    match a
    case Start(msg) => StartStep(c, m, msg, peer.sent);
    case Register(q) => RegisterStep(c, m, q, peer.sent);
    case WriteRequest(q, ok) => WriteStep(c, m, q, ok, peer.sent);
    case Unregister(q) => UnregisterStep(c, m, q, peer.sent);
    case Receive(q) => ReceiveStep(c, m, q, peer.sent);
    case ReadHeader(n) => ReadHeaderStep(c, m, peer, n);
    case ReadBody(n) => ReadBodyStep(c, m, peer, n);
    case Dispatch => DispatchStep(c, m, peer.sent);
    case CloseSessions => CloseSessionsStep(c, m, peer.sent);
    case TakeRequest => TakeStep(c, m, peer.sent);
    case Respond(h, reply, ok) => RespondStep(c, m, peer, h, reply, ok);
    case ReadBodyError => BodyErrorStep(c, m, peer.sent);
    case _ => QuietStep(c, m, peer.sent, a);
  }

  /** The peer sees one more frame. */
  lemma PeerSees(c: Codec, peer: State, sent: seq<Frame>, f: Frame)
    requires EndOk(c, peer, sent)
    requires f.payload.isResponse ==> f.payload.seqNo in peer.calls && Wrote(peer.calls[f.payload.seqNo])
    ensures EndOk(c, peer, sent + [f])
  {
    ReaderSeesMore(c, peer.reader, peer.pos, peer.got, sent, f);
    QueueSeesMore(c, peer.handled, peer.inbound, peer.got, sent, f);
    CallsSeeMore(c, peer, sent, f);
  }

  /** A step writes at most one frame, and a reply only about a request the peer has written. */
  lemma WritesOne(c: Codec, m: State, peer: State, a: Act)
    requires QueueOk(c, m.handled, m.inbound, m.got, peer.sent) && SentOk(c, peer)
    requires Do(c, m, peer.sent, a).Some?
    ensures var sent := Do(c, m, peer.sent, a).value.sent;
            || sent == m.sent
            || exists f: Frame :: && sent == m.sent + [f]
                 && (f.payload.isResponse ==> f.payload.seqNo in peer.calls && Wrote(peer.calls[f.payload.seqNo]))
  {
    if a.Respond? {
      var k := HandledWasWritten(c, m, peer, a.h);
      CleanKeeps(c, peer.sent[k].payload);
    }
  }

  lemma PeerStep(c: Codec, m: State, peer: State, a: Act)
    requires EndOk(c, m, peer.sent) && EndOk(c, peer, m.sent)
    requires Do(c, m, peer.sent, a).Some?
    ensures EndOk(c, peer, Do(c, m, peer.sent, a).value.sent)
  {
    WritesOne(c, m, peer, a);
    var sent := Do(c, m, peer.sent, a).value.sent;
    if sent != m.sent {
      var f: Frame :| sent == m.sent + [f]
                      && (f.payload.isResponse ==> f.payload.seqNo in peer.calls && Wrote(peer.calls[f.payload.seqNo]));
      PeerSees(c, peer, m.sent, f);
    }
  }

  lemma InitOk(c: Codec)
    ensures LinkOk(c, Link(INIT, INIT))
  {
    hide Conserved;
    NoHandles();
    assert SentOk(c, INIT) && RepliesOk(INIT, []) && CallsOk(c, INIT, []);
    assert ReaderOk(c, AtHeader, 0, 0, []) && QueueOk(c, [], [], 0, []);
  }

  lemma NoHandles()
    ensures HandlesOk(INIT)
  {}

  // ---------- Runs ----------

  lemma ExecSnoc(c: Codec, tr: Trace)
    requires tr != [] && Exec(c, tr).Some?
    ensures Exec(c, tr[..|tr| - 1]).Some?
    ensures StepLink(c, Exec(c, tr[..|tr| - 1]).value, tr[|tr| - 1].0, tr[|tr| - 1].1) == Exec(c, tr)
  {}

  /** Every run keeps the invariant at both ends. */
  lemma {:induction false} RunOk(c: Codec, tr: Trace)
    requires Lawful(c) && Exec(c, tr).Some?
    ensures LinkOk(c, Exec(c, tr).value)
  {
    if tr == [] {
      InitOk(c);
    } else {
      var n := |tr| - 1;
      ExecSnoc(c, tr);
      RunOk(c, tr[..n]);
      var s := Exec(c, tr[..n]).value;
      OwnStep(c, At(s, tr[n].0), At(s, Other(tr[n].0)), tr[n].1);
      PeerStep(c, At(s, tr[n].0), At(s, Other(tr[n].0)), tr[n].1);
    }
  }
}
