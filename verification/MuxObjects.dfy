/** One end of the connection as the objects it is made of: channels, the sessions map, the inbound
    queue.  Each method is one critical section or channel operation of the program; it is proved
    to be the step of the machine in Mux, whose invariant gives what a send or close requires. */
module MuxObjects {
  import opened Base
  import opened Wire
  import opened Mux

  /** A channel with one slot. */
  class Channel {
    var buf: Option<InMsg>
    var closed: bool
    ghost var sends: nat
    ghost var closes: nat

    ghost function Val(): Chan reads this { Chan(buf, closed, sends, closes) }

    constructor ()
      ensures Val() == NEW_CHAN
    {
      buf, closed, sends, closes := None, false, 0, 0;
    }

    /** A send that neither blocks nor panics. */
    method Send(m: InMsg)
      requires !closed && buf.None?
      modifies this
      ensures Val() == old(Val()).(buf := Some(m), sends := old(sends) + 1)
    {
      buf, sends := Some(m), sends + 1;
    }

    method Close()
      requires !closed
      modifies this
      ensures Val() == old(Val()).(closed := true, closes := old(closes) + 1)
    {
      closed, closes := true, closes + 1;
    }

    /** A receive that does not block: the buffered value first, then the close. */
    method Receive() returns (r: Option<InMsg>)
      requires buf.Some? || closed
      modifies this
      ensures r == old(buf) && Val() == old(Val()).(buf := None)
    {
      r := buf;
      buf := None;
    }
  }

  class MuxEnd {
    var nextSeq: nat
    var sessions: map<nat, Channel>
    var inbound: seq<InMsg>
    var closedFiles: seq<Handle>

    // The channel of each Request call, and the machine's state.
    ghost var chans: map<nat, Channel>
    ghost var st: State

    ghost predicate Valid()
      reads this, chans.Values
    {
      && nextSeq == st.nextSeq && inbound == st.inbound && closedFiles == st.closedFiles
      && sessions.Keys == st.sessions && chans.Keys == st.calls.Keys
      && (forall q :: q in chans ==> chans[q].Val() == st.calls[q].ch)
      && (forall q :: q in sessions ==> q in chans && sessions[q] == chans[q])
      && (forall p, q :: p in chans && q in chans && p != q ==> chans[p] != chans[q])
      && (forall q :: q in chans ==> q <= nextSeq)
    }

    constructor ()
      ensures Valid() && st == INIT
    {
      nextSeq, sessions, inbound, closedFiles := 0, map[], [], [];
      chans, st := map[], INIT;
    }

    // ---------- Request ----------

    method Begin(msg: Msg) returns (q: nat, ch: Channel)
      requires Valid() && nextSeq + 1 < U64
      modifies this`nextSeq, this`chans, this`st
      ensures Valid() && Some(st) == DoStart(old(st), msg)
      ensures q == nextSeq && q in chans && chans[q] == ch && fresh(ch)
    {
      nextSeq := nextSeq + 1;
      q := nextSeq;
      ch := new Channel();
      chans, st := chans[q := ch], DoStart(st, msg).value;
    }

    method Register(q: nat, ch: Channel)
      requires Valid() && q in chans && chans[q] == ch && st.calls[q].pc.Fresh?
      modifies this`sessions, this`st
      ensures Valid() && Some(st) == DoRegister(old(st), q)
    {
      sessions := sessions[q := ch];
      st := DoRegister(st, q).value;
    }

    /** The error path of Request. */
    method Unregister(q: nat)
      requires Valid() && q in chans && st.calls[q].pc.WriteFailed?
      modifies this`sessions, this`st
      ensures Valid() && Some(st) == DoUnregister(old(st), q)
    {
      sessions := Without(sessions, q);
      st := DoUnregister(st, q).value;
    }

    /** The end of Request; r is nil when the connection was reset. */
    method Receive(q: nat, ch: Channel) returns (r: Option<InMsg>)
      requires Valid() && q in chans && chans[q] == ch && st.calls[q].pc.Waiting? && (ch.buf.Some? || ch.closed)
      modifies this`st, ch
      ensures Valid() && Some(st) == DoReceive(old(st), q) && st.calls[q].pc == Done(r)
    {
      r := ch.Receive();
      st := DoReceive(st, q).value;
    }

    // ---------- readLoop ----------

    method CloseAllFiles(files: seq<Handle>)
      modifies this`closedFiles
      ensures closedFiles == old(closedFiles) + files
    {
      for i := 0 to |files|
        invariant closedFiles == old(closedFiles) + files[..i]
      {
        closedFiles := closedFiles + [files[i]];
      }
      assert files[..|files|] == files;
    }

    /** The reply branch: its session's channel, or nobody's files. */
    method DispatchReply(msg: InMsg)
      requires Valid() && st.reader.AtDispatch? && st.reader.p.isResponse
      requires msg == InMsg(st.reader.p.data, st.reader.files, st.reader.p.annotations, st.reader.p.seqNo)
      requires msg.seqNo in sessions ==> !sessions[msg.seqNo].closed && sessions[msg.seqNo].buf.None?
      modifies this`sessions, this`closedFiles, this`st,
               if msg.seqNo in sessions then {sessions[msg.seqNo]} else {}
      ensures Valid() && Some(st) == DoDispatch(old(st))
    {
      hide Moved;
      if msg.seqNo in sessions {
        var s := sessions[msg.seqNo];
        sessions := Without(sessions, msg.seqNo);
        s.Send(msg);
      } else {
        CloseAllFiles(msg.files);
      }
      st := DoDispatch(st).value;
    }

    /** One round of readLoop after a successful read, when the machine can take it without a panic;
        for replies MuxTheorems.SendNeverBlocks and ChannelSafety say that it always can. */
    method DispatchFrame(p: Payload, files: seq<Handle>)
      requires Valid() && st.reader == AtDispatch(p, files)
      requires DoDispatch(st).Some? && !DoDispatch(st).value.reader.Panicked?
      modifies this`sessions, this`inbound, this`closedFiles, this`st,
               if p.isResponse && p.seqNo in sessions then {sessions[p.seqNo]} else {}
      ensures Valid() && Some(st) == DoDispatch(old(st))
    {
      var msg := InMsg(p.data, files, p.annotations, p.seqNo);
      if p.isResponse {
        DispatchReply(msg);
      } else {
        inbound := inbound + [msg];
        st := DoDispatch(st).value;
      }
    }

    /** The loop that closes every session's channel. */
    method CloseEach()
      requires Valid() && forall q :: q in sessions ==> !sessions[q].closed
      modifies sessions.Values
      ensures forall q :: q in chans ==>
                chans[q].Val() == if q in sessions then CloseChan(st.calls[q]).ch else st.calls[q].ch
    {
      var todo := sessions.Keys;
      while todo != {}
        invariant todo <= sessions.Keys
        invariant forall q :: q in chans ==>
                    chans[q].Val() == if q in sessions && q !in todo then CloseChan(st.calls[q]).ch else st.calls[q].ch
        decreases todo
      {
        var q :| q in todo;
        todo := todo - {q};
        sessions[q].Close();
      }
    }

    /** What readLoop does when a read fails; by MuxTheorems.ChannelSafety no channel is closed yet. */
    method CloseAllSessions()
      requires Valid() && st.reader.Failed?
      requires !DoCloseSessions(st).value.reader.Panicked?
      modifies this`sessions, this`st, sessions.Values
      ensures Valid() && Some(st) == DoCloseSessions(old(st))
    {
      CloseEach();
      sessions := map[];
      st := DoCloseSessions(st).value;
    }

    // ---------- receiveRequest ----------

    method TakeInbound() returns (msg: InMsg)
      requires Valid() && inbound != []
      modifies this`inbound, this`st
      ensures Valid() && Some(st) == DoTakeRequest(old(st)) && msg == old(inbound)[0]
    {
      msg := inbound[0];
      inbound := inbound[1..];
      st := DoTakeRequest(st).value;
    }
  }

  // ---------- Frames in byte buffers ----------

  /** binary.BigEndian.PutUint32 into the first four bytes. */
  method PutUint32(buf: array<Byte>, n: nat)
    requires buf.Length >= 4
    modifies buf
    ensures buf[..] == PutU32(n) + old(buf[4..])
  {
    buf[0] := n / 0x100_0000 % 0x100;
    buf[1] := n / 0x1_0000 % 0x100;
    buf[2] := n / 0x100 % 0x100;
    buf[3] := n % 0x100;
  }

  /** copy(buf[at:], data). */
  method CopyInto(buf: array<Byte>, at: nat, data: seq<Byte>)
    requires at + |data| <= buf.Length
    modifies buf
    ensures buf[..] == old(buf[..at]) + data + old(buf[at + |data|..])
  {
    for i := 0 to |data|
      invariant buf[..at] == old(buf[..at]) && buf[at..at + i] == data[..i]
      invariant buf[at + i..] == old(buf[at + i..])
    {
      buf[at + i] := data[i];
    }
  }

  /** The frame buffer writeWire fills: header, then body. */
  method FrameBuffer(c: Codec, p: Payload) returns (buf: array<Byte>)
    ensures fresh(buf) && buf[..] == Encode(c, p)
  {
    var meta := c.marshal(p);
    buf := new Byte[4 + |meta|](i => 0);
    PutUint32(buf, |meta|);
    CopyInto(buf, 4, meta);
  }

  /** The body buffer of readWire: zeroed, then one Read that delivers n bytes. */
  method BodyBuffer(stream: seq<Byte>, pos: nat, n: nat, len: nat) returns (buf: array<Byte>)
    requires n <= len && pos + n <= |stream|
    ensures fresh(buf) && buf[..] == ReadBuffer(stream, pos, n, len)
  {
    buf := new Byte[len](i => 0);
    CopyInto(buf, 0, stream[pos..pos + n]);
  }

  /** The files readWire makes of the received descriptors. */
  method OpenFiles(fds: seq<Fd>, base: nat) returns (files: array<Handle>)
    ensures fresh(files) && files[..] == NewHandles(fds, base)
  {
    files := new Handle[|fds|](i => Handle(0, 0));
    for i := 0 to |fds|
      invariant files[..i] == NewHandles(fds[..i], base)
    {
      files[i] := Handle(base + i, fds[i]);
    }
    assert fds[..|fds|] == fds;
  }
}
