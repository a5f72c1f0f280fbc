/** What holds after every run of two connected fdchan ends. */
module MuxTheorems {
  import opened Base
  import opened Wire
  import opened Mux
  import opened MuxInvariant
  import opened MuxSteps
  import opened MuxHandles
  import opened MuxRun

  /** The invariant at one end of a run. */
  lemma ReachedOk(c: Codec, tr: Trace, side: Side)
    requires Lawful(c) && Exec(c, tr).Some?
    ensures EndOk(c, At(Exec(c, tr).value, side), At(Exec(c, tr).value, Other(side)).sent)
    ensures SentOk(c, At(Exec(c, tr).value, Other(side)))
  {
    RunOk(c, tr);
  }

  // ---------- Reply matching ----------

  /** The frames behind a successful Request: j is the first reply the other end wrote for its
      number, by a responder of request h, which is the frame this call wrote. */
  lemma ReplyFrame(c: Codec, tr: Trace, side: Side, q: nat) returns (j: nat, h: nat, k: nat)
    requires Lawful(c) && Exec(c, tr).Some?
    requires var calls := At(Exec(c, tr).value, side).calls;
             q in calls && calls[q].pc.Done? && calls[q].pc.res.Some?
    ensures var me, peer := At(Exec(c, tr).value, side), At(Exec(c, tr).value, Other(side));
            && j < |peer.sent| && IsReplyTo(peer.sent[j], q) && NoReply(peer.sent, j, q)
            && Seen(true, me.calls[q].pc.res.value) == Deliver(c, peer.sent[j])
            && peer.sent[j].origin == FromResponder(h) && h < |peer.handled| && peer.handled[h].seqNo == q
            && k < |me.sent| && !me.sent[k].payload.isResponse && FrameOk(me, me.sent[k])
            && me.sent[k].payload.seqNo == q && Seen(false, peer.handled[h]) == Deliver(c, me.sent[k])
  {
    hide Lawful, HandlesOk, Exec, ReaderOk;
    RunOk(c, tr);
    var me, peer := At(Exec(c, tr).value, side), At(Exec(c, tr).value, Other(side));
    assert CallOk(c, q, me.calls[q], q in me.sessions, SessionsClosed(me.reader), me.got, peer.sent);
    j := me.calls[q].ans.value;
    assert FrameOk(peer, peer.sent[j]);
    h := peer.sent[j].origin.h;
    k := HandledWasWritten(c, peer, me, h);
    CleanKeeps(c, me.sent[k].payload);
  }

  /** No reply is lost: when a call has returned and some dispatched frame is a reply to it, it
      returned successfully.  An error means that no reply reached this end. */
  lemma ReplyNotLost(c: Codec, tr: Trace, side: Side, q: nat, j: nat)
    requires Lawful(c) && Exec(c, tr).Some?
    requires var me, peer := At(Exec(c, tr).value, side), At(Exec(c, tr).value, Other(side));
             && q in me.calls && me.calls[q].pc.Done?
             && j < me.got && j < |peer.sent| && IsReplyTo(peer.sent[j], q)
    ensures At(Exec(c, tr).value, side).calls[q].pc.res.Some?
  {
    hide Exec, Lawful, ReaderOk, QueueOk, HandlesOk, SentOk, RepliesOk;
    RunOk(c, tr);
    var me, peer := At(Exec(c, tr).value, side), At(Exec(c, tr).value, Other(side));
    assert CallOk(c, q, me.calls[q], q in me.sessions, SessionsClosed(me.reader), me.got, peer.sent);
  }

  // ---------- Framing ----------

  /** What readLoop at one end dispatched during a run, read off its Dispatch steps. */
  function Dispatched(c: Codec, tr: Trace, side: Side): seq<Delivered>
    requires Exec(c, tr).Some?
  {
    if tr == [] then [] else
      var n := |tr| - 1;
      var r := At(Exec(c, tr[..n]).value, side).reader;
      Dispatched(c, tr[..n], side) +
      if tr[n] == (side, Dispatch) && r.AtDispatch? then [Delivered(r.p, FdsOf(r.files))] else []
  }

  function DeliverAll(c: Codec, fs: seq<Frame>): seq<Delivered> {
    seq(|fs|, i requires 0 <= i < |fs| => Deliver(c, fs[i]))
  }

  /** Frames are only ever appended, and only Dispatch counts one. */
  lemma StepGrows(c: Codec, m: State, peer: seq<Frame>, a: Act)
    requires Do(c, m, peer, a).Some?
    ensures var m1 := Do(c, m, peer, a).value;
            && m.sent <= m1.sent && m.handled <= m1.handled
            && (!m1.reader.Panicked? ==> m1.got == if a.Dispatch? then m.got + 1 else m.got)
  {}

  /** One more Dispatch delivers one more frame. */
  lemma DeliverSnoc(c: Codec, fs: seq<Frame>, k: nat)
    requires k < |fs|
    ensures DeliverAll(c, fs[..k + 1]) == DeliverAll(c, fs[..k]) + [Deliver(c, fs[k])]
  {
    assert fs[..k + 1] == fs[..k] + [fs[k]];
  }

  /** How many frames the reader of one end has dispatched after a step of either end. */
  lemma DispatchCounts(c: Codec, s: Link, side: Side, mover: Side, a: Act)
    requires StepLink(c, s, mover, a).Some? && !At(StepLink(c, s, mover, a).value, mover).reader.Panicked?
    ensures var s1 := StepLink(c, s, mover, a).value;
            && At(s, Other(side)).sent <= At(s1, Other(side)).sent
            && At(s1, side).got == At(s, side).got + (if (mover, a) == (side, Dispatch) then 1 else 0)
            && ((mover, a) == (side, Dispatch) ==> At(s, side).reader.AtDispatch?)
  {
    StepGrows(c, At(s, mover), At(s, Other(mover)).sent, a);
  }

  lemma PrefixOfPrefix<T>(a: seq<T>, b: seq<T>, k: nat)
    requires a <= b && k <= |a|
    ensures b[..k] == a[..k]
  {}

  /** Where the reader of one end is in the other's frames. */
  lemma ReaderAt(c: Codec, tr: Trace, side: Side)
    requires Lawful(c) && Exec(c, tr).Some?
    ensures var me, sent := At(Exec(c, tr).value, side), At(Exec(c, tr).value, Other(side)).sent;
            && me.got <= |sent| && !me.reader.Panicked?
            && (me.reader.AtDispatch? ==>
                  me.got < |sent| && Delivered(me.reader.p, FdsOf(me.reader.files)) == Deliver(c, sent[me.got]))
  {
    RunOk(c, tr);
  }

  /** What the last step of a run dispatched. */
  lemma DispatchedSnoc(c: Codec, tr: Trace, side: Side)
    requires tr != [] && Exec(c, tr).Some?
    ensures var n := |tr| - 1;
            && Exec(c, tr[..n]).Some?
            && var r := At(Exec(c, tr[..n]).value, side).reader;
               Dispatched(c, tr, side) == Dispatched(c, tr[..n], side) +
               if tr[n] == (side, Dispatch) && r.AtDispatch? then [Delivered(r.p, FdsOf(r.files))] else []
  {}

  /** For every schedule of short reads: the frames dispatched are the first ones written. */
  lemma {:induction false} FramingIsPrefix(c: Codec, tr: Trace, side: Side)
    requires Lawful(c) && Exec(c, tr).Some?
    ensures var me, peer := At(Exec(c, tr).value, side), At(Exec(c, tr).value, Other(side));
            me.got <= |peer.sent| && Dispatched(c, tr, side) == DeliverAll(c, peer.sent[..me.got])
  {
    if tr == [] {
    } else {
      hide *;
      ReaderAt(c, tr, side);
      var n := |tr| - 1;
      ExecSnoc(c, tr);
      DispatchedSnoc(c, tr, side);
      ReaderAt(c, tr[..n], side);
      ReaderAt(c, tr, tr[n].0);
      FramingIsPrefix(c, tr[..n], side);
      var s := Exec(c, tr[..n]).value;
      DispatchCounts(c, s, side, tr[n].0, tr[n].1);
      var me, peer, peer1 := At(s, side), At(s, Other(side)), At(Exec(c, tr).value, Other(side));
      PrefixOfPrefix(peer.sent, peer1.sent, me.got);
      if tr[n] == (side, Dispatch) {
        DeliverSnoc(c, peer1.sent, me.got);
      }
    }
  }

  predicate Stopped(r: Reader) {
    r.Failed? || r.Drained? || r.Exited?
  }

  lemma ShortBodyFails(c: Codec, m: State, peer: seq<Frame>, n: nat)
    requires Lawful(c) && ReaderOk(c, m.reader, m.pos, m.got, peer) && m.reader.AtBody? && n < m.reader.len
    requires FitsWire(c, peer[m.got]) && DoReadBody(c, m, peer, n).Some?
    ensures DoReadBody(c, m, peer, n).value.reader.Failed?
  {
    BodyDecodes(c, peer, m.got, n);
  }

  /** A header or body read that came up short ends in failure. */
  lemma ShortReadFails(c: Codec, tr: Trace, side: Side, a: Act)
    requires Lawful(c) && Exec(c, tr).Some? && StepLink(c, Exec(c, tr).value, side, a).Some?
    requires var r := At(Exec(c, tr).value, side).reader;
             (a.ReadHeader? && a.n < 4) || (a.ReadBody? && r.AtBody? && a.n < r.len)
    ensures At(StepLink(c, Exec(c, tr).value, side, a).value, side).reader.Failed?
  {
    hide Exec, CallsOk, HandlesOk, RepliesOk, QueueOk, Lawful;
    if a.ReadBody? {
      ReachedOk(c, tr, side);
      ShortBodyFails(c, At(Exec(c, tr).value, side), At(Exec(c, tr).value, Other(side)).sent, a.n);
    }
  }

  lemma StoppedStays(c: Codec, m: State, peer: seq<Frame>, a: Act)
    requires Stopped(m.reader) && Do(c, m, peer, a).Some?
    requires !Do(c, m, peer, a).value.reader.Panicked?
    ensures var m1 := Do(c, m, peer, a).value; Stopped(m1.reader) && m1.got == m.got
  {}

  lemma {:induction false} ExecPrefix(c: Codec, tr: Trace, k: nat)
    requires k <= |tr| && Exec(c, tr).Some?
    ensures Exec(c, tr[..k]).Some?
  {
    if k == |tr| {
      assert tr[..k] == tr;
    } else {
      assert tr[..|tr| - 1][..k] == tr[..k];
      ExecPrefix(c, tr[..|tr| - 1], k);
    }
  }

  /** Fail-stop: after a failed read nothing more is ever dispatched at that end. */
  lemma {:induction false} FailStop(c: Codec, tr: Trace, k: nat, side: Side)
    requires Lawful(c) && k <= |tr| && Exec(c, tr).Some? && Exec(c, tr[..k]).Some?
    requires Stopped(At(Exec(c, tr[..k]).value, side).reader)
    ensures Stopped(At(Exec(c, tr).value, side).reader)
    ensures At(Exec(c, tr).value, side).got == At(Exec(c, tr[..k]).value, side).got
  {
    if k == |tr| {
      assert tr[..k] == tr;
    } else {
      var n := |tr| - 1;
      assert tr[..n][..k] == tr[..k];
      FailStop(c, tr[..n], k, side);
      RunOk(c, tr);
      if tr[n].0 == side {
        var s := Exec(c, tr[..n]).value;
        StoppedStays(c, At(s, side), At(s, Other(side)).sent, tr[n].1);
      }
    }
  }

  /** The requests HandleRequest returned, including any it returned after done was closed, are
      the first requests the other end wrote, in wire order and none of them twice. */
  lemma RequestsArePrefix(c: Codec, tr: Trace, side: Side)
    requires Lawful(c) && Exec(c, tr).Some?
    ensures var me, peer := At(Exec(c, tr).value, side), At(Exec(c, tr).value, Other(side));
            && SeenRequests(me.handled) <= RequestsIn(c, peer.sent)
            && forall i, j :: 0 <= i < j < |me.handled| ==> me.handled[i].seqNo != me.handled[j].seqNo
  {
    hide Lawful, Exec, ReaderOk, CallsOk, HandlesOk, RepliesOk, RequestsIn, FrameOk, FitsWire;
    RunOk(c, tr);
    var me, peer := At(Exec(c, tr).value, side), At(Exec(c, tr).value, Other(side));
    RequestsPrefix(c, peer.sent, me.got);
    assert SeenRequests(me.handled) <= SeenRequests(me.handled + me.inbound);
    forall i, j | 0 <= i < j < |me.handled| ensures me.handled[i].seqNo != me.handled[j].seqNo {
      var fs := peer.sent[..me.got];
      assert SeenRequests(me.handled + me.inbound)[i].p.seqNo == me.handled[i].seqNo;
      assert SeenRequests(me.handled + me.inbound)[j].p.seqNo == me.handled[j].seqNo;
      RequestsDiffer(c, fs, i, j);
    }
  }

  lemma {:induction false} RequestsPrefix(c: Codec, fs: seq<Frame>, k: nat)
    requires k <= |fs|
    ensures RequestsIn(c, fs[..k]) <= RequestsIn(c, fs)
  {
    if k == |fs| {
      assert fs[..k] == fs;
    } else {
      assert fs[..|fs| - 1][..k] == fs[..k];
      RequestsPrefix(c, fs[..|fs| - 1], k);
    }
  }

  lemma {:induction false} RequestsDiffer(c: Codec, fs: seq<Frame>, i: nat, j: nat)
    requires i < j < |RequestsIn(c, fs)|
    requires forall a, b :: 0 <= a < b < |fs| && !fs[a].payload.isResponse && !fs[b].payload.isResponse
               ==> fs[a].payload.seqNo != fs[b].payload.seqNo
    ensures RequestsIn(c, fs)[i].p.seqNo != RequestsIn(c, fs)[j].p.seqNo
  {
    var n := |fs| - 1;
    if j < |RequestsIn(c, fs[..n])| {
      RequestsDiffer(c, fs[..n], i, j);
    } else {
      var k := RequestHasFrame(c, fs[..n], i);
      CleanKeeps(c, fs[k].payload);
      CleanKeeps(c, fs[n].payload);
    }
  }

  // ---------- Session channels ----------

  /** Each session's channel sees at most one send or one close, never both, and neither hits a
      closed channel. */
  lemma ChannelSafety(c: Codec, tr: Trace, side: Side)
    requires Lawful(c) && Exec(c, tr).Some?
    ensures var me := At(Exec(c, tr).value, side);
            && !me.reader.Panicked?
            && forall q :: q in me.calls ==> me.calls[q].ch.sends + me.calls[q].ch.closes <= 1
  {
    RunOk(c, tr);
    var me, peer := At(Exec(c, tr).value, side), At(Exec(c, tr).value, Other(side));
    forall q | q in me.calls ensures me.calls[q].ch.sends + me.calls[q].ch.closes <= 1 {
      assert CallOk(c, q, me.calls[q], q in me.sessions, SessionsClosed(me.reader), me.got, peer.sent);
    }
  }

  /** The send made while sessionsMu is held never blocks. */
  lemma SendNeverBlocks(c: Codec, tr: Trace, side: Side)
    requires Lawful(c) && Exec(c, tr).Some?
    requires var r := At(Exec(c, tr).value, side).reader; r.AtDispatch? && r.p.isResponse
    ensures StepLink(c, Exec(c, tr).value, side, Dispatch).Some?
  {
    ReachedOk(c, tr, side);
    SendReady(c, At(Exec(c, tr).value, side), At(Exec(c, tr).value, Other(side)).sent);
  }

  /** Receiving from a channel that is open and empty. */
  predicate Stuck(k: Call) {
    k.pc.Waiting? && k.ch.buf.None? && !k.ch.closed
  }

  /** Once the reader has closed the sessions, the waiting calls left without a result or a close
      are exactly those that registered after it did. */
  lemma WaitersAfterExit(c: Codec, tr: Trace, side: Side, q: nat)
    requires Lawful(c) && Exec(c, tr).Some?
    requires var me := At(Exec(c, tr).value, side);
             q in me.calls && SessionsClosed(me.reader) && me.calls[q].pc.Waiting?
    ensures Stuck(At(Exec(c, tr).value, side).calls[q]) <==> At(Exec(c, tr).value, side).calls[q].late
  {
    RunOk(c, tr);
    var me, peer := At(Exec(c, tr).value, side), At(Exec(c, tr).value, Other(side));
    assert CallOk(c, q, me.calls[q], q in me.sessions, SessionsClosed(me.reader), me.got, peer.sent);
  }

  lemma StuckStep(c: Codec, m: State, peer: seq<Frame>, a: Act, q: nat)
    requires q in m.calls && Stuck(m.calls[q]) && SessionsClosed(m.reader) && q <= m.nextSeq
    requires Do(c, m, peer, a).Some?
    ensures var m1 := Do(c, m, peer, a).value;
            q in m1.calls && Stuck(m1.calls[q]) && SessionsClosed(m1.reader)
  {}

  /** Such a call is never released: no continuation of the run lets it return. */
  lemma {:induction false} LateWaitsForever(c: Codec, tr: Trace, k: nat, side: Side, q: nat)
    requires Lawful(c) && k <= |tr| && Exec(c, tr).Some? && Exec(c, tr[..k]).Some?
    requires var me := At(Exec(c, tr[..k]).value, side);
             q in me.calls && SessionsClosed(me.reader) && me.calls[q].pc.Waiting? && me.calls[q].late
    ensures var me := At(Exec(c, tr).value, side);
            q in me.calls && Stuck(me.calls[q]) && SessionsClosed(me.reader)
  {
    if k == |tr| {
      assert tr[..k] == tr;
      WaitersAfterExit(c, tr, side, q);
    } else {
      var n := |tr| - 1;
      assert tr[..n][..k] == tr[..k];
      LateWaitsForever(c, tr[..n], k, side, q);
      if tr[n].0 == side {
        var s := Exec(c, tr[..n]).value;
        RunOk(c, tr[..n]);
        StuckStep(c, At(s, side), At(s, Other(side)).sent, tr[n].1, q);
      }
    }
  }

  lemma ExecAppend(c: Codec, tr: Trace, side: Side, a: Act)
    requires Exec(c, tr).Some?
    ensures Exec(c, tr + [(side, a)]) == StepLink(c, Exec(c, tr).value, side, a)
  {
    assert (tr + [(side, a)])[..|tr|] == tr;
  }

  /** The failing family is not empty: a run that leaves a Request waiting for ever. */
  lemma LateWaiterExists(c: Codec, msg: Msg) returns (tr: Trace)
    requires |c.marshal(Payload(1, false, msg.annotations, msg.data))| < U32 && |msg.fds| == |msg.annotations|
    ensures Exec(c, tr).Some?
    ensures var me := Exec(c, tr).value.left;
            1 in me.calls && SessionsClosed(me.reader) && me.calls[1].pc.Waiting? && me.calls[1].late
  {
    tr := [];
    ExecAppend(c, tr, Left, ReadHeaderError);
    tr := tr + [(Left, ReadHeaderError)];
    ExecAppend(c, tr, Left, CloseSessions);
    tr := tr + [(Left, CloseSessions)];
    ExecAppend(c, tr, Left, Start(msg));
    tr := tr + [(Left, Start(msg))];
    ExecAppend(c, tr, Left, Register(1));
    tr := tr + [(Left, Register(1))];
    ExecAppend(c, tr, Left, WriteRequest(1, true));
    tr := tr + [(Left, WriteRequest(1, true))];
  }

  // ---------- Descriptor handles ----------

  predicate IsAt(m: State, id: nat, loc: Loc, i: int) {
    0 <= i < |HandlesAt(m, loc)| && HandlesAt(m, loc)[i].id == id
  }

  /** Every handle readWire has created is in exactly one place: held by the reader, in one
      call's result, in one request message, or closed. */
  lemma HandlesConserved(c: Codec, tr: Trace, side: Side, id: nat)
    requires Lawful(c) && Exec(c, tr).Some?
    requires id < At(Exec(c, tr).value, side).created
    ensures var me := At(Exec(c, tr).value, side);
            exists loc, i :: IsAt(me, id, loc, i)
    ensures var me := At(Exec(c, tr).value, side);
            forall loc, i, loc', i' :: IsAt(me, id, loc, i) && IsAt(me, id, loc', i') ==> loc == loc' && i == i'
  {
    RunOk(c, tr);
    var me := At(Exec(c, tr).value, side);
    var at := loc => HandlesAt(me, loc);
    assert Conserved(at, me.place, me.created);
    assert id in me.place;
    var i :| 0 <= i < |at(me.place[id])| && at(me.place[id])[i].id == id;
    assert IsAt(me, id, me.place[id], i);
    forall loc, i, loc', i' | IsAt(me, id, loc, i) && IsAt(me, id, loc', i')
      ensures loc == loc' && i == i'
    {
      assert at(loc)[i].id == at(loc')[i'].id == id;
    }
  }

  /** A step that takes handles from the reader and delivers them to nobody: a body that could not be
      read or decoded, or a reply no session waits for. */
  predicate Discards(m: State, a: Act, m1: State) {
    && m1.reader != m.reader
    && (m1.reader.Failed?
        || (a.Dispatch? && m.reader.AtDispatch? && m.reader.p.isResponse && m.reader.p.seqNo !in m.sessions))
  }

  /** The reader never drops handles: a step that takes them from the reader without delivering
      them has closed all of them. */
  lemma DiscardedAreClosed(c: Codec, m: State, peer: seq<Frame>, a: Act)
    requires Do(c, m, peer, a).Some? && Discards(m, a, Do(c, m, peer, a).value)
    ensures Do(c, m, peer, a).value.closedFiles == m.closedFiles + ReaderFiles(m.reader)
  {}

  lemma ClosedGrows(c: Codec, m: State, peer: seq<Frame>, a: Act)
    requires Do(c, m, peer, a).Some?
    ensures m.closedFiles <= Do(c, m, peer, a).value.closedFiles
  {}

  lemma {:induction false} ClosedStays(c: Codec, tr: Trace, k: nat, side: Side)
    requires k <= |tr| && Exec(c, tr).Some? && Exec(c, tr[..k]).Some?
    ensures At(Exec(c, tr[..k]).value, side).closedFiles <= At(Exec(c, tr).value, side).closedFiles
  {
    if k == |tr| {
      assert tr[..k] == tr;
    } else {
      var n := |tr| - 1;
      assert tr[..n][..k] == tr[..k];
      ClosedStays(c, tr[..n], k, side);
      if tr[n].0 == side {
        var s := Exec(c, tr[..n]).value;
        ClosedGrows(c, At(s, side), At(s, Other(side)).sent, tr[n].1);
      }
    }
  }

  /** The state before and after step k of a run. */
  lemma StepAt(c: Codec, tr: Trace, k: nat)
    requires k < |tr| && Exec(c, tr).Some?
    ensures Exec(c, tr[..k]).Some? && Exec(c, tr[..k + 1]).Some?
    ensures Exec(c, tr[..k + 1]) == StepLink(c, Exec(c, tr[..k]).value, tr[k].0, tr[k].1)
  {
    ExecPrefix(c, tr, k);
    ExecPrefix(c, tr, k + 1);
    assert tr[..k + 1][..k] == tr[..k];
  }

  lemma ListedAsClosed(m: State, before: seq<Handle>, files: seq<Handle>, h: Handle)
    requires before + files <= m.closedFiles && h in files
    ensures exists i :: IsAt(m, h.id, IsClosed, i)
  {
    var j :| 0 <= j < |files| && files[j] == h;
    assert (before + files)[|before| + j] == h;
    assert IsAt(m, h.id, IsClosed, |before| + j);
  }

  /** In every run: a handle the reader held at a step that discarded it is among the closed ones
      from then on, and (by HandlesConserved) nowhere else. */
  lemma DiscardedStayClosed(c: Codec, tr: Trace, k: nat, h: Handle)
    requires k < |tr| && Exec(c, tr).Some?
    requires Exec(c, tr[..k]).Some? && Exec(c, tr[..k + 1]).Some?
    requires var side := tr[k].0;
             var m := At(Exec(c, tr[..k]).value, side);
             Discards(m, tr[k].1, At(Exec(c, tr[..k + 1]).value, side)) && h in ReaderFiles(m.reader)
    ensures exists i :: IsAt(At(Exec(c, tr).value, tr[k].0), h.id, IsClosed, i)
  {
    var side := tr[k].0;
    StepAt(c, tr, k);
    var s := Exec(c, tr[..k]).value;
    var m, peer := At(s, side), At(s, Other(side)).sent;
    DiscardedAreClosed(c, m, peer, tr[k].1);
    ClosedStays(c, tr, k + 1, side);
    var m2 := At(Exec(c, tr).value, side);
    hide Do, Exec, Discards;
    ListedAsClosed(m2, m.closedFiles, ReaderFiles(m.reader), h);
  }
}
