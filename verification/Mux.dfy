/** One end of an fdchan connection as a step machine: concurrent Request calls, the reader
    goroutine, HandleRequest and the responders.  A step is one critical section or one system
    call; everything the environment decides (which goroutine runs, how many bytes a read
    returns, whether an operation fails) is in the step's label. */
module Mux {
  import opened Base
  import opened Wire

  /** Capacity of inboundRx. */
  const INBOUND_CAP: nat := 128

  /** What a caller sends. */
  datatype Msg = Msg(data: seq<Byte>, fds: seq<Fd>, annotations: seq<Annotation>)

  /** A file handle created by readWire for a received descriptor. */
  datatype Handle = Handle(id: nat, fd: Fd)

  /** What a caller or a handler receives. */
  datatype InMsg = InMsg(data: seq<Byte>, files: seq<Handle>, annotations: seq<Annotation>, seqNo: nat)

  /** A session's one-slot channel, with the number of sends and closes so far. */
  datatype Chan = Chan(buf: Option<InMsg>, closed: bool, sends: nat, closes: nat)

  const NEW_CHAN := Chan(None, false, 0, 0)

  datatype CallPc =
    | Fresh                        // has its sequence number and channel
    | Registered                   // session stored, request not yet written
    | Waiting                      // request written, receiving from the channel
    | WriteFailed                  // about to delete its session
    | Done(res: Option<InMsg>)     // returned; None is an error

  /** A Request call.  `ans` (the peer's frame that answered it) and `late` (registered after
      the reader closed the sessions) are history. */
  datatype Call = Call(pc: CallPc, msg: Msg, ch: Chan, ans: Option<nat>, late: bool)

  datatype Reader =
    | AtHeader
    | AtBody(len: nat, files: seq<Handle>)
    | AtDispatch(p: Payload, files: seq<Handle>)
    | Failed                       // readWire returned an error
    | Drained                      // sessions closed and reset
    | Exited                       // done closed
    | Panicked                     // sent on or closed a closed channel

  /** Where a handle is. */
  datatype Loc = InReader | InResult(q: nat) | InMessage(i: nat) | IsClosed

  /** `got` counts the peer's frames dispatched; `sent`, `handled`, `refusals`, `closedFiles`
      and `place` record history. */
  datatype State = State(
    nextSeq: nat,
    calls: map<nat, Call>,
    sessions: set<nat>,
    inbound: seq<InMsg>,
    handled: seq<InMsg>,
    refusals: nat,
    reader: Reader,
    pos: nat,
    got: nat,
    created: nat,
    closedFiles: seq<Handle>,
    place: map<nat, Loc>,
    sent: seq<Frame>)

  const INIT := State(0, map[], {}, [], [], 0, AtHeader, 0, 0, 0, [], map[], [])

  datatype Act =
    | Start(msg: Msg)
    | Register(q: nat)
    | WriteRequest(q: nat, ok: bool)
    | Unregister(q: nat)
    | Receive(q: nat)
    | ReadHeader(n: nat)
    | ReadHeaderError
    | ReadBody(n: nat)
    | ReadBodyError
    | Dispatch
    | CloseSessions
    | CloseDone
    | TakeRequest
    | RefuseRequest
    | Respond(h: nat, reply: Msg, ok: bool)

  // ---------- Request ----------

  function DoStart(m: State, msg: Msg): Option<State> {
    var q := m.nextSeq + 1;
    if q >= U64 then None else
    Some(m.(nextSeq := q, calls := m.calls[q := Call(Fresh, msg, NEW_CHAN, None, false)]))
  }

  function DoRegister(m: State, q: nat): Option<State> {
    if q !in m.calls || !m.calls[q].pc.Fresh? then None else
    var late := m.reader.Drained? || m.reader.Exited?;
    Some(m.(sessions := m.sessions + {q}, calls := m.calls[q := m.calls[q].(pc := Registered, late := late)]))
  }

  function RequestPayload(q: nat, msg: Msg): Payload {
    Payload(q, false, msg.annotations, msg.data)
  }

  /** writeWire: a count mismatch always fails; otherwise the environment decides, and a
      successful write appends one whole frame. */
  function Write(c: Codec, m: State, f: Frame, ok: bool): Option<(State, bool)> {
    if |f.fds| != |f.payload.annotations| || !ok then Some((m, false))
    else if |c.marshal(f.payload)| >= U32 then None
    else Some((m.(sent := m.sent + [f]), true))
  }

  function DoWriteRequest(c: Codec, m: State, q: nat, ok: bool): Option<State> {
    if q !in m.calls || !m.calls[q].pc.Registered? then None else
    var call := m.calls[q];
    match Write(c, m, Frame(RequestPayload(q, call.msg), call.msg.fds, FromCall(q)), ok)
    case None => None
    case Some((m1, wrote)) =>
      Some(m1.(calls := m.calls[q := call.(pc := if wrote then Waiting else WriteFailed)]))
  }

  function DoUnregister(m: State, q: nat): Option<State> {
    if q !in m.calls || !m.calls[q].pc.WriteFailed? then None else
    Some(m.(sessions := m.sessions - {q}, calls := m.calls[q := m.calls[q].(pc := Done(None))]))
  }

  /** `res, ok := <-resChan`: a buffered result first, then the close. */
  function DoReceive(m: State, q: nat): Option<State> {
    if q !in m.calls || !m.calls[q].pc.Waiting? then None else
    var call := m.calls[q];
    if call.ch.buf.Some? then
      Some(m.(calls := m.calls[q := call.(pc := Done(call.ch.buf), ch := call.ch.(buf := None))]))
    else if call.ch.closed then
      Some(m.(calls := m.calls[q := call.(pc := Done(None))]))
    else None
  }

  // ---------- The reader ----------

  function NewHandles(fds: seq<Fd>, base: nat): seq<Handle> {
    seq(|fds|, i requires 0 <= i < |fds| => Handle(base + i, fds[i]))
  }

  function Ids(files: seq<Handle>): set<nat> {
    set h | h in files :: h.id
  }

  function Moved(place: map<nat, Loc>, files: seq<Handle>, to: Loc): map<nat, Loc> {
    map i | i in place.Keys + Ids(files) :: if i in Ids(files) then to else place[i]
  }

  function DoReadHeader(c: Codec, m: State, peer: seq<Frame>, n: nat): Option<State> {
    if !m.reader.AtHeader? || !(1 <= n <= 4) || m.pos + n > |Flat(c, peer)| then None
    else if n < 4 then Some(m.(reader := Failed, pos := m.pos + n))
    else
      var files := NewHandles(Cap(FdsIn(c, peer, m.pos, m.pos + 4)), m.created);
      var len := GetU32(Flat(c, peer)[m.pos..m.pos + 4]);
      Some(m.(reader := AtBody(len, files), pos := m.pos + 4, created := m.created + |files|,
              place := Moved(m.place, files, InReader)))
  }

  function CloseAll(m: State, files: seq<Handle>): State {
    m.(closedFiles := m.closedFiles + files, place := Moved(m.place, files, IsClosed))
  }

  /** A zeroed buffer of len bytes after one Read that delivered n. */
  function ReadBuffer(bytes: seq<Byte>, pos: nat, n: nat, len: nat): seq<Byte>
    requires n <= len && pos + n <= |bytes|
  {
    bytes[pos..pos + n] + Zeros(len - n)
  }

  /** One Read into the body buffer, then the decoder. */
  function DoReadBody(c: Codec, m: State, peer: seq<Frame>, n: nat): Option<State> {
    if !m.reader.AtBody? || n > m.reader.len || (n == 0 && m.reader.len > 0) || m.pos + n > |Flat(c, peer)| then None
    else
      var m1 := m.(pos := m.pos + n);
      match c.unmarshal(ReadBuffer(Flat(c, peer), m.pos, n, m.reader.len))
      case None => Some(CloseAll(m1, m.reader.files).(reader := Failed))
      case Some(p) => Some(m1.(reader := AtDispatch(p, m.reader.files)))
  }

  /** Some(m') when the branch of readLoop can run; the send blocks (None) when the slot is
      taken and panics when the channel is closed. */
  function DoDispatch(m: State): Option<State> {
    if !m.reader.AtDispatch? then None else
    var p, files := m.reader.p, m.reader.files;
    var m1 := m.(reader := AtHeader, got := m.got + 1);
    var msg := InMsg(p.data, files, p.annotations, p.seqNo);
    if !p.isResponse then
      if |m.inbound| >= INBOUND_CAP then None else
      Some(m1.(inbound := m.inbound + [msg],
               place := Moved(m.place, files, InMessage(|m.handled| + |m.inbound|))))
    else if p.seqNo in m.sessions && p.seqNo in m.calls then
      var call := m.calls[p.seqNo];
      if call.ch.closed then Some(m.(reader := Panicked))
      else if call.ch.buf.Some? then None
      else
        var ch := call.ch.(buf := Some(msg), sends := call.ch.sends + 1);
        Some(m1.(sessions := m.sessions - {p.seqNo},
                 calls := m.calls[p.seqNo := call.(ch := ch, ans := Some(m.got))],
                 place := Moved(m.place, files, InResult(p.seqNo))))
    else Some(CloseAll(m1, files))
  }

  function CloseChan(call: Call): Call {
    call.(ch := call.ch.(closed := true, closes := call.ch.closes + 1))
  }

  function DoCloseSessions(m: State): Option<State> {
    if !m.reader.Failed? then None
    else if exists q :: q in m.sessions && q in m.calls && m.calls[q].ch.closed then Some(m.(reader := Panicked))
    else
      Some(m.(reader := Drained, sessions := {},
              calls := map q | q in m.calls :: if q in m.sessions then CloseChan(m.calls[q]) else m.calls[q]))
  }

  // ---------- HandleRequest and the responders ----------

  /** The select of receiveRequest takes a queued message even when done is closed. */
  function DoTakeRequest(m: State): Option<State> {
    if m.inbound == [] then None else
    Some(m.(inbound := m.inbound[1..], handled := m.handled + [m.inbound[0]]))
  }

  function ReplyPayload(q: nat, reply: Msg): Payload {
    Payload(q, true, reply.annotations, reply.data)
  }

  /** A responder may be called any number of times, at any time after its request was returned. */
  function DoRespond(c: Codec, m: State, h: nat, reply: Msg, ok: bool): Option<State> {
    if h >= |m.handled| then None else
    match Write(c, m, Frame(ReplyPayload(m.handled[h].seqNo, reply), reply.fds, FromResponder(h)), ok)
    case None => None
    case Some((m1, _)) => Some(m1)
  }

  // ---------- One step, a run ----------

  function Do(c: Codec, m: State, peer: seq<Frame>, a: Act): Option<State> {
    match a
    case Start(msg) => DoStart(m, msg)
    case Register(q) => DoRegister(m, q)
    case WriteRequest(q, ok) => DoWriteRequest(c, m, q, ok)
    case Unregister(q) => DoUnregister(m, q)
    case Receive(q) => DoReceive(m, q)
    case ReadHeader(n) => DoReadHeader(c, m, peer, n)
    case ReadHeaderError => if m.reader.AtHeader? then Some(m.(reader := Failed)) else None
    case ReadBody(n) => DoReadBody(c, m, peer, n)
    case ReadBodyError =>
      if m.reader.AtBody? then Some(CloseAll(m, m.reader.files).(reader := Failed)) else None
    case Dispatch => DoDispatch(m)
    case CloseSessions => DoCloseSessions(m)
    case CloseDone => if m.reader.Drained? then Some(m.(reader := Exited)) else None
    case TakeRequest => DoTakeRequest(m)
    case RefuseRequest => if m.reader.Exited? then Some(m.(refusals := m.refusals + 1)) else None
    case Respond(h, reply, ok) => DoRespond(c, m, h, reply, ok)
  }

  datatype Side = Left | Right

  /** The two ends; each reads the frames the other has written. */
  datatype Link = Link(left: State, right: State)

  function At(s: Link, side: Side): State {
    if side.Left? then s.left else s.right
  }

  function Other(side: Side): Side {
    if side.Left? then Right else Left
  }

  function StepLink(c: Codec, s: Link, side: Side, a: Act): Option<Link> {
    match Do(c, At(s, side), At(s, Other(side)).sent, a)
    case None => None
    case Some(m) => Some(if side.Left? then s.(left := m) else s.(right := m))
  }

  type Trace = seq<(Side, Act)>

  /** The state a run reaches, or None when some step of it was not enabled. */
  function Exec(c: Codec, tr: Trace): Option<Link> {
    if tr == [] then Some(Link(INIT, INIT)) else
    match Exec(c, tr[..|tr| - 1])
    case None => None
    case Some(s) => StepLink(c, s, tr[|tr| - 1].0, tr[|tr| - 1].1)
  }
}
