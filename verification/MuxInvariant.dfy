/** The invariant of two connected fdchan ends, kept by every step. */
module MuxInvariant {
  import opened Base
  import opened Wire
  import opened Mux

  // ---------- Vocabulary ----------

  /** What a frame delivers to the other side: the decoded payload and the open files. */
  datatype Delivered = Delivered(p: Payload, fds: seq<Fd>)

  function Deliver(c: Codec, f: Frame): Delivered {
    Delivered(Clean(c, f.payload), Cap(f.fds))
  }

  function FdsOf(files: seq<Handle>): seq<Fd> {
    seq(|files|, i requires 0 <= i < |files| => files[i].fd)
  }

  function Seen(isResponse: bool, m: InMsg): Delivered {
    Delivered(Payload(m.seqNo, isResponse, m.annotations, m.data), FdsOf(m.files))
  }

  function SeenRequests(ms: seq<InMsg>): seq<Delivered> {
    seq(|ms|, i requires 0 <= i < |ms| => Seen(false, ms[i]))
  }

  /** The requests among some frames, in wire order. */
  function RequestsIn(c: Codec, fs: seq<Frame>): seq<Delivered> {
    if fs == [] then [] else
      var f := fs[|fs| - 1];
      RequestsIn(c, fs[..|fs| - 1]) + if f.payload.isResponse then [] else [Deliver(c, f)]
  }

  predicate IsReplyTo(f: Frame, q: nat) {
    f.payload.isResponse && f.payload.seqNo == q
  }

  ghost predicate NoReply(peer: seq<Frame>, n: nat, q: nat) {
    forall i :: 0 <= i < n && i < |peer| ==> !IsReplyTo(peer[i], q)
  }

  predicate SessionsClosed(r: Reader) {
    r.Drained? || r.Exited?
  }

  /** The call's request may have been written: it is waiting, or returned on a send or a close. */
  predicate Wrote(k: Call) {
    k.pc.Waiting? || (k.pc.Done? && k.ch.sends + k.ch.closes == 1)
  }

  // ---------- The reader stays on a frame boundary ----------

  ghost predicate ReaderOk(c: Codec, r: Reader, pos: nat, got: nat, peer: seq<Frame>) {
    && got <= |peer|
    && (r.AtHeader? ==> pos == |Flat(c, peer[..got])|)
    && (r.AtBody? ==>
          && got < |peer|
          && pos == |Flat(c, peer[..got])| + 4
          && r.len == |c.marshal(peer[got].payload)|
          && FdsOf(r.files) == Cap(peer[got].fds))
    && (r.AtDispatch? ==>
          && got < |peer|
          && pos == |Flat(c, peer[..got + 1])|
          && Delivered(r.p, FdsOf(r.files)) == Deliver(c, peer[got]))
    && !r.Panicked?
  }

  // ---------- The inbound queue ----------

  ghost predicate QueueOk(c: Codec, handled: seq<InMsg>, inbound: seq<InMsg>, got: nat, peer: seq<Frame>) {
    && got <= |peer|
    && SeenRequests(handled + inbound) == RequestsIn(c, peer[..got])
    && |inbound| <= INBOUND_CAP
  }

  // ---------- Calls and their channels ----------

  /** Channel discipline of one call. */
  predicate ChanOk(k: Call, inSess: bool) {
    && (k.pc.Fresh? ==> !inSess && k.ch == NEW_CHAN)
    && (inSess ==> k.ch == NEW_CHAN && !k.pc.Done?)
    && k.ch.sends + k.ch.closes <= 1
    && (k.ch.closed <==> k.ch.closes == 1)
    && (k.ans.Some? <==> k.ch.sends == 1)
    && (k.ch.buf.Some? ==> k.ch.sends == 1 && !k.pc.Done?)
    && (k.ch.sends == 1 && !k.pc.Done? ==> k.ch.buf.Some?)
    && ((k.pc.Registered? || k.pc.Waiting?) && !inSess ==> k.ch.sends + k.ch.closes == 1)
    && (k.pc.Registered? || k.pc.WriteFailed? ==> k.ch.sends == 0)
    && (k.pc.Done? ==> (k.pc.res.Some? <==> k.ch.sends == 1))
  }

  /** A session registered after the reader closed the sessions is the only kind left open. */
  predicate LateOk(k: Call, inSess: bool, drained: bool) {
    && (k.late ==> drained && !k.pc.Fresh?)
    && (drained && inSess ==> k.late)
    && (k.late && (k.pc.Registered? || k.pc.Waiting?) ==> inSess)
    && (k.ch.closes == 1 ==> drained)
  }

  /** The answer of a call is the first reply frame the peer wrote for its number; a call without one
      has had no reply dispatched. */
  ghost predicate AnswerOk(c: Codec, q: nat, k: Call, inSess: bool, got: nat, peer: seq<Frame>) {
    && (k.ans.None? ==> NoReply(peer, got, q))
    && (k.ans.Some? ==>
          var j := k.ans.value;
          && j < got && j < |peer|
          && IsReplyTo(peer[j], q)
          && NoReply(peer, j, q)
          && (k.ch.buf.Some? ==> Seen(true, k.ch.buf.value) == Deliver(c, peer[j]))
          && (k.pc.Done? && k.pc.res.Some? ==> Seen(true, k.pc.res.value) == Deliver(c, peer[j])))
  }

  ghost predicate CallOk(c: Codec, q: nat, k: Call, inSess: bool, drained: bool, got: nat, peer: seq<Frame>) {
    ChanOk(k, inSess) && LateOk(k, inSess, drained) && AnswerOk(c, q, k, inSess, got, peer)
  }

  ghost predicate CallsOk(c: Codec, m: State, peer: seq<Frame>) {
    && m.sessions <= m.calls.Keys
    && (forall q :: q in m.calls ==> 1 <= q <= m.nextSeq && q < U64)
    && (forall q :: q in m.calls ==>
          CallOk(c, q, m.calls[q], q in m.sessions, SessionsClosed(m.reader), m.got, peer))
  }

  // ---------- What this side has written ----------

  ghost predicate FrameOk(m: State, f: Frame) {
    if f.payload.isResponse then
      && f.origin.FromResponder?
      && f.origin.h < |m.handled|
      && f.payload.seqNo == m.handled[f.origin.h].seqNo
    else
      var q := f.payload.seqNo;
      && f.origin == FromCall(q)
      && q in m.calls
      && Wrote(m.calls[q])
      && f.payload == RequestPayload(q, m.calls[q].msg)
      && f.fds == m.calls[q].msg.fds
  }

  predicate FitsWire(c: Codec, f: Frame) {
    f.payload.seqNo < U64 && |c.marshal(f.payload)| < U32
  }

  ghost predicate SentOk(c: Codec, m: State) {
    && (forall j :: 0 <= j < |m.sent| ==> FrameOk(m, m.sent[j]) && FitsWire(c, m.sent[j]))
    && (forall i, j :: 0 <= i < j < |m.sent| && !m.sent[i].payload.isResponse && !m.sent[j].payload.isResponse
          ==> m.sent[i].payload.seqNo != m.sent[j].payload.seqNo)
  }

  /** Every reply the peer has written is about a request written here. */
  ghost predicate RepliesOk(m: State, peer: seq<Frame>) {
    forall j :: 0 <= j < |peer| && peer[j].payload.isResponse ==>
      peer[j].payload.seqNo in m.calls && Wrote(m.calls[peer[j].payload.seqNo])
  }

  // ---------- Descriptor handles ----------

  function ReaderFiles(r: Reader): seq<Handle> {
    match r
    case AtBody(_, files) => files
    case AtDispatch(_, files) => files
    case _ => []
  }

  function CallFiles(k: Call): seq<Handle> {
    if k.ch.buf.Some? then k.ch.buf.value.files
    else if k.pc.Done? && k.pc.res.Some? then k.pc.res.value.files
    else []
  }

  /** The handles at one place. */
  function HandlesAt(m: State, loc: Loc): seq<Handle> {
    match loc
    case InReader => ReaderFiles(m.reader)
    case InResult(q) => if q in m.calls then CallFiles(m.calls[q]) else []
    case InMessage(i) => if i < |m.handled + m.inbound| then (m.handled + m.inbound)[i].files else []
    case IsClosed => m.closedFiles
  }

  /** Each handle created so far is listed at exactly the place recorded for it, once. */
  ghost predicate Conserved(at: Loc -> seq<Handle>, place: map<nat, Loc>, created: nat) {
    && (forall id: nat :: id in place <==> id < created)
    && (forall loc, i :: 0 <= i < |at(loc)| ==> at(loc)[i].id in place && place[at(loc)[i].id] == loc)
    && (forall loc, i, j :: 0 <= i < j < |at(loc)| ==> at(loc)[i].id != at(loc)[j].id)
    && (forall id :: id in place ==> exists i :: 0 <= i < |at(place[id])| && at(place[id])[i].id == id)
  }

  ghost predicate HandlesOk(m: State) {
    Conserved(loc => HandlesAt(m, loc), m.place, m.created)
  }

  // ---------- Everything ----------

  ghost predicate EndOk(c: Codec, m: State, peer: seq<Frame>) {
    && ReaderOk(c, m.reader, m.pos, m.got, peer)
    && QueueOk(c, m.handled, m.inbound, m.got, peer)
    && CallsOk(c, m, peer)
    && SentOk(c, m)
    && RepliesOk(m, peer)
    && HandlesOk(m)
  }

  ghost predicate LinkOk(c: Codec, s: Link) {
    EndOk(c, s.left, s.right.sent) && EndOk(c, s.right, s.left.sent)
  }
}
