/** The handshake can be completed: a run of both programs over the connection in which every request
    is granted ends with the parent waiting for a child that is setting up. */
module HandshakeRuns {
  import opened Base
  import opened Wire
  import opened Mux
  import opened MuxInvariant
  import opened MuxSteps
  import opened MuxRun
  import opened MuxMessages
  import opened Descriptors
  import opened Handshake

  /** Frames as small as these fit the wire. */
  ghost predicate Fits(c: Codec) {
    forall p: Payload :: p.seqNo <= 2 && |p.data| <= 17 && |p.annotations| <= 1 ==> |c.marshal(p)| < U32
  }

  // ---------- Steps of one end within the two programs ----------

  predicate MayDo(side: Side, a: Act) {
    if side.Left? then IsParentIo(a) else IsReader(a)
  }

  function IoAct(side: Side, a: Act): BootAct {
    if side.Left? then ParentIo(a) else ChildIo(a)
  }

  lemma BootSnoc(c: Codec, acts: seq<BootAct>, a: BootAct)
    requires ExecBoot(c, acts).Some?
    ensures ExecBoot(c, acts + [a]) == DoBoot(c, ExecBoot(c, acts).value, a)
  {
    assert (acts + [a])[..|acts|] == acts;
  }

  /** Only the connection moved between the two states. */
  predicate SamePrograms(b: Boot, b1: Boot) {
    b1.parent == b.parent && b1.child == b.child && b1.fds == b.fds && b1.mark == b.mark
  }

  lemma BootIo(c: Codec, acts: seq<BootAct>, side: Side, a: Act)
    requires ExecBoot(c, acts).Some? && MayDo(side, a)
    requires var s := ExecBoot(c, acts).value.link; Do(c, At(s, side), At(s, Other(side)).sent, a).Some?
    ensures ExecBoot(c, acts + [IoAct(side, a)]).Some?
    ensures SamePrograms(ExecBoot(c, acts).value, ExecBoot(c, acts + [IoAct(side, a)]).value)
    ensures var s, s1 := ExecBoot(c, acts).value.link, ExecBoot(c, acts + [IoAct(side, a)]).value.link;
            && Some(At(s1, side)) == Do(c, At(s, side), At(s, Other(side)).sent, a)
            && At(s1, Other(side)) == At(s, Other(side))
  {
    BootSnoc(c, acts, IoAct(side, a));
    hide Do, ExecBoot;
  }

  lemma {:induction false} AddIo(c: Codec, acts: seq<BootAct>, side: Side, steps: seq<Act>) returns (acts1: seq<BootAct>)
    requires ExecBoot(c, acts).Some? && forall a :: a in steps ==> MayDo(side, a)
    requires var s := ExecBoot(c, acts).value.link; Steps(c, At(s, side), At(s, Other(side)).sent, steps).Some?
    ensures ExecBoot(c, acts1).Some? && SamePrograms(ExecBoot(c, acts).value, ExecBoot(c, acts1).value)
    ensures var s, s1 := ExecBoot(c, acts).value.link, ExecBoot(c, acts1).value.link;
            && Some(At(s1, side)) == Steps(c, At(s, side), At(s, Other(side)).sent, steps)
            && At(s1, Other(side)) == At(s, Other(side))
    decreases steps
  {
    if steps == [] {
      acts1 := acts;
    } else {
      BootIo(c, acts, side, steps[0]);
      hide Do, ExecBoot, DoBoot;
      acts1 := AddIo(c, acts + [IoAct(side, steps[0])], side, steps[1..]);
    }
  }

  /** The reader of one end reads the next frame and dispatches it. */
  lemma Takes(c: Codec, acts: seq<BootAct>, side: Side, m: State, peer: State) returns (acts1: seq<BootAct>, m1: State)
    requires Lawful(c) && ExecBoot(c, acts).Some?
    requires m == At(ExecBoot(c, acts).value.link, side) && peer == At(ExecBoot(c, acts).value.link, Other(side))
    requires m.reader.AtHeader? && m.got < |peer.sent|
    ensures ExecBoot(c, acts1).Some? && SamePrograms(ExecBoot(c, acts).value, ExecBoot(c, acts1).value)
    ensures m1 == At(ExecBoot(c, acts1).value.link, side) && peer == At(ExecBoot(c, acts1).value.link, Other(side))
    ensures m1.reader.AtDispatch? && m1.reader.p == Clean(c, peer.sent[m.got].payload)
    ensures FdsOf(m1.reader.files) == Cap(peer.sent[m.got].fds)
    ensures m1 == m.(reader := m1.reader, pos := m1.pos, created := m1.created, place := m1.place)
  {
    BootReads(c, acts, side);
    hide Exec, ExecBoot, Steps, ReaderOk, FitsWire, Clean, Lawful;
    var steps := Reads(c, m, peer.sent);
    acts1 := AddIo(c, acts, side, steps);
    m1 := At(ExecBoot(c, acts1).value.link, side);
    BootHolds(c, acts1, side);
  }

  lemma BootReads(c: Codec, acts: seq<BootAct>, side: Side)
    requires Lawful(c) && ExecBoot(c, acts).Some?
    ensures var s := ExecBoot(c, acts).value.link;
            && ReaderOk(c, At(s, side).reader, At(s, side).pos, At(s, side).got, At(s, Other(side)).sent)
            && forall j :: 0 <= j < |At(s, Other(side)).sent| ==> FitsWire(c, At(s, Other(side)).sent[j])
  {
    BootRunOk(c, acts);
    hide Lawful, ParentOk, MarkOk, ChildOk, ReaderOk, FitsWire;
    Unread(c, ExecBoot(c, acts).value.tr, side);
  }

  lemma BootHolds(c: Codec, acts: seq<BootAct>, side: Side)
    requires Lawful(c) && ExecBoot(c, acts).Some?
    requires At(ExecBoot(c, acts).value.link, side).reader.AtDispatch?
    ensures var s := ExecBoot(c, acts).value.link; var m := At(s, side);
            m.got < |At(s, Other(side)).sent| && FdsOf(m.reader.files) == Cap(At(s, Other(side)).sent[m.got].fds)
  {
    BootReads(c, acts, side);
  }

  // ---------- One round ----------

  /** A run of both programs has led to these places and these two ends. */
  predicate Stage(c: Codec, acts: seq<BootAct>, parent: ParentPc, child: ChildPc, m: State, p: State) {
    ExecBoot(c, acts).Some? && ExecBoot(c, acts).value.parent == parent && ExecBoot(c, acts).value.child == child
    && ExecBoot(c, acts).value.link == Link(m, p)
  }

  lemma StageIo(c: Codec, acts: seq<BootAct>, side: Side, pp: ParentPc, cp: ChildPc, m: State, p: State, steps: seq<Act>)
    returns (acts1: seq<BootAct>, m1: State, p1: State)
    requires Stage(c, acts, pp, cp, m, p) && forall a :: a in steps ==> MayDo(side, a)
    requires Steps(c, if side.Left? then m else p, (if side.Left? then p else m).sent, steps).Some?
    ensures Stage(c, acts1, pp, cp, m1, p1)
    ensures Some(if side.Left? then m1 else p1) == Steps(c, if side.Left? then m else p, (if side.Left? then p else m).sent, steps)
    ensures if side.Left? then p1 == p else m1 == m
  {
    hide ExecBoot, Steps;
    acts1 := AddIo(c, acts, side, steps);
    m1, p1 := ExecBoot(c, acts1).value.link.left, ExecBoot(c, acts1).value.link.right;
  }

  /** The parent's next request. */
  function Command(parent: ParentPc): seq<Byte> {
    if parent.AskListener? then LISTENER else COMPLETE
  }

  function Awaiting(parent: ParentPc): ParentPc {
    if parent.AskListener? then AwaitListener else AwaitComplete
  }

  lemma AskIs(c: Codec, b: Boot)
    requires (b.parent.AskListener? || b.parent.AskComplete?) && b.link.left.nextSeq < 2
    ensures DoStart(b.link.left, Plain(Command(b.parent))).Some? && DoBoot(c, b, ParentAsk).Some?
    ensures var b1 := DoBoot(c, b, ParentAsk).value;
            && b1.parent == Awaiting(b.parent) && b1.child == b.child
            && b1.link == Link(DoStart(b.link.left, Plain(Command(b.parent))).value, b.link.right)
  {
    hide Bytes;
  }

  lemma StageAsk(c: Codec, acts: seq<BootAct>, pp: ParentPc, m: State, p: State) returns (acts1: seq<BootAct>)
    requires Stage(c, acts, pp, Looping, m, p) && (pp.AskListener? || pp.AskComplete?) && m.nextSeq < 2
    ensures DoStart(m, Plain(Command(pp))).Some?
    ensures Stage(c, acts1, Awaiting(pp), Looping, DoStart(m, Plain(Command(pp))).value, p)
  {
    hide ExecBoot, DoBoot, DoStart, Bytes;
    BootSnoc(c, acts, ParentAsk);
    AskIs(c, ExecBoot(c, acts).value);
    acts1 := acts + [ParentAsk];
  }

  lemma SmallFits(c: Codec, q: nat, isResponse: bool, msg: Msg)
    requires Fits(c) && q <= 2 && |msg.data| <= 17 && |msg.annotations| <= 1
    ensures |c.marshal(Payload(q, isResponse, msg.annotations, msg.data))| < U32
  {}

  lemma Begun(m: State, msg: Msg)
    requires m.nextSeq < 2
    ensures DoStart(m, msg).Some?
    ensures var q, m1 := m.nextSeq + 1, DoStart(m, msg).value;
            && m1 == m.(nextSeq := q, calls := m1.calls) && m1.calls.Keys == m.calls.Keys + {q}
            && (forall k :: k in m.calls && k != q ==> m1.calls[k] == m.calls[k])
            && m1.calls[q] == Call(Fresh, msg, NEW_CHAN, None, false)
  {}

  lemma CommandSmall(pp: ParentPc)
    ensures |Command(pp)| <= 14
  {
    assert |LISTENER| == 14 && |COMPLETE| == 8;
  }

  /** The parent's request is written. */
  lemma RoundAsks(c: Codec, acts: seq<BootAct>, pp: ParentPc, m: State, p: State) returns (acts1: seq<BootAct>, m1: State)
    requires Fits(c) && Stage(c, acts, pp, Looping, m, p) && (pp.AskListener? || pp.AskComplete?) && m.nextSeq < 2
    ensures Stage(c, acts1, Awaiting(pp), Looping, m1, p)
    ensures var q := m.nextSeq + 1;
            && m1 == m.(nextSeq := q, sessions := m.sessions + {q}, calls := m1.calls, sent := m1.sent)
            && m1.calls.Keys == m.calls.Keys + {q} && (forall k :: k in m.calls && k != q ==> m1.calls[k] == m.calls[k])
            && m1.calls[q].pc.Waiting? && m1.calls[q].ch == NEW_CHAN
            && |m1.sent| == |m.sent| + 1 && Carries(m1.sent[|m.sent|], false, q, Plain(Command(pp)))
  {
    hide Stage, Fits, Command, DoStart, Bytes, Carries, Steps;
    var msg := Plain(Command(pp));
    CommandSmall(pp);
    SmallFits(c, m.nextSeq + 1, false, msg);
    acts1 := StageAsk(c, acts, pp, m, p);
    Begun(m, msg);
    var m0, p1 := DoStart(m, msg).value, p;
    var steps := Sends(c, m0, p.sent, m.nextSeq + 1);
    acts1, m1, p1 := StageIo(c, acts1, Left, Awaiting(pp), Looping, m0, p, steps);
  }

  lemma TakeIs(c: Codec, b: Boot)
    requires b.child.Looping? && b.link.right.inbound != []
    ensures DoBoot(c, b, ChildTake).Some?
    ensures var b1 := DoBoot(c, b, ChildTake).value;
            b1.parent == b.parent && b1.child == Handling && b1.link == Link(b.link.left, DoTakeRequest(b.link.right).value)
  {}

  lemma StageTake(c: Codec, acts: seq<BootAct>, pp: ParentPc, m: State, p: State) returns (acts1: seq<BootAct>)
    requires Stage(c, acts, pp, Looping, m, p) && p.inbound != []
    ensures Stage(c, acts1, pp, Handling, m, DoTakeRequest(p).value)
  {
    hide ExecBoot, DoBoot, DoTakeRequest;
    BootSnoc(c, acts, ChildTake);
    TakeIs(c, ExecBoot(c, acts).value);
    acts1 := acts + [ChildTake];
  }

  /** What the child replies. */
  function Reply(cmd: seq<Byte>, listen: Fd): Msg {
    if cmd == LISTENER then ListenerReply(listen) else Plain(COMPLETED)
  }

  lemma ReplyIs(cmd: seq<Byte>, listen: Fd)
    requires cmd == LISTENER || cmd == COMPLETE
    ensures ReplyTo(cmd, Some(listen)) == Some(Reply(cmd, listen)) && Counted(Reply(cmd, listen))
    ensures |Reply(cmd, listen).data| <= 17 && |Reply(cmd, listen).annotations| <= 1
  {
    assert |LISTENER| == 14 && |COMPLETE| == 8 && |PING| == 4 && |LISTENER_FD| == 17 && |COMPLETED| == 9;
  }

  lemma Responds(c: Codec, p: State, h: nat, reply: Msg)
    requires Fits(c) && h < |p.handled| && p.handled[h].seqNo <= 2 && Counted(reply)
    requires |reply.data| <= 17 && |reply.annotations| <= 1
    ensures var f := Frame(ReplyPayload(p.handled[h].seqNo, reply), reply.fds, FromResponder(h));
            DoRespond(c, p, h, reply, true) == Some(p.(sent := p.sent + [f])) && Carries(f, true, p.handled[h].seqNo, reply)
  {}

  lemma HandleIs(c: Codec, b: Boot, listen: Fd)
    requires Fits(c) && b.child.Handling? && b.link.right.handled != []
    requires var x := b.link.right.handled[|b.link.right.handled| - 1]; (x.data == LISTENER || x.data == COMPLETE) && x.seqNo <= 2
    ensures DoBoot(c, b, ChildHandle(Some(listen), true)).Some?
    ensures var p, b1 := b.link.right, DoBoot(c, b, ChildHandle(Some(listen), true)).value;
            var x, p1 := p.handled[|p.handled| - 1], b1.link.right;
            && b1.parent == b.parent && b1.child == (if x.data == COMPLETE then SettingUp else Looping) && b1.link.left == b.link.left
            && p1 == p.(sent := p1.sent) && |p1.sent| == |p.sent| + 1
            && Carries(p1.sent[|p.sent|], true, x.seqNo, Reply(x.data, listen))
  {
    var p := b.link.right;
    var h := |p.handled| - 1;
    ReplyIs(p.handled[h].data, listen);
    Responds(c, p, h, Reply(p.handled[h].data, listen));
    hide Bytes, ReplyTo, Reply, Carries, DoRespond, Fits, ReplyPayload;
  }

  lemma StageHandle(c: Codec, acts: seq<BootAct>, pp: ParentPc, m: State, p: State, listen: Fd)
    returns (acts1: seq<BootAct>, p1: State)
    requires Fits(c) && Stage(c, acts, pp, Handling, m, p) && p.handled != []
    requires var x := p.handled[|p.handled| - 1]; (x.data == LISTENER || x.data == COMPLETE) && x.seqNo <= 2
    ensures var x := p.handled[|p.handled| - 1];
            && Stage(c, acts1, pp, if x.data == COMPLETE then SettingUp else Looping, m, p1)
            && p1 == p.(sent := p1.sent) && |p1.sent| == |p.sent| + 1
            && Carries(p1.sent[|p.sent|], true, x.seqNo, Reply(x.data, listen))
  {
    hide ExecBoot, DoBoot, Bytes, Reply, Carries, Fits;
    BootSnoc(c, acts, ChildHandle(Some(listen), true));
    HandleIs(c, ExecBoot(c, acts).value, listen);
    acts1 := acts + [ChildHandle(Some(listen), true)];
    p1 := ExecBoot(c, acts1).value.link.right;
  }

  /** The child reads the request, takes it and answers it. */
  lemma RoundAnswers(c: Codec, acts: seq<BootAct>, pp: ParentPc, m: State, p: State, q: nat, cmd: seq<Byte>, listen: Fd)
    returns (acts1: seq<BootAct>, p1: State)
    requires Lawful(c) && Fits(c) && Stage(c, acts, pp, Looping, m, p) && (cmd == LISTENER || cmd == COMPLETE) && q <= 2
    requires p.reader.AtHeader? && p.inbound == [] && |m.sent| == p.got + 1 && Carries(m.sent[p.got], false, q, Plain(cmd))
    ensures Stage(c, acts1, pp, if cmd == COMPLETE then SettingUp else Looping, m, p1)
    ensures p1.reader.AtHeader? && p1.inbound == [] && p1.got == |m.sent|
    ensures |p1.sent| == |p.sent| + 1
    ensures Carries(p1.sent[|p.sent|], true, q, Reply(cmd, listen))
  {
    var r: State;
    acts1, r := StageReads(c, acts, Right, pp, Looping, m, p);
    CleanKeeps(c, m.sent[p.got].payload);
    hide Stage, Reply, Clean;
    assert Steps(c, r, m.sent, [Dispatch]).Some? by { StepsCons(c, r, m.sent, Dispatch, []); assert [Dispatch] + [] == [Dispatch]; }
    var m0, p0;
    acts1, m0, p0 := StageIo(c, acts1, Right, pp, Looping, m, r, [Dispatch]);
    assert Some(p0) == DoDispatch(r) by { StepsCons(c, r, m.sent, Dispatch, []); assert [Dispatch] + [] == [Dispatch]; }
    acts1 := StageTake(c, acts1, pp, m, p0);
    acts1, p1 := StageHandle(c, acts1, pp, m, DoTakeRequest(p0).value, listen);
  }

  lemma StageReads(c: Codec, acts: seq<BootAct>, side: Side, pp: ParentPc, cp: ChildPc, m: State, p: State)
    returns (acts1: seq<BootAct>, r: State)
    requires Lawful(c) && Stage(c, acts, pp, cp, m, p)
    requires var x, y := if side.Left? then m else p, if side.Left? then p else m; x.reader.AtHeader? && x.got < |y.sent|
    ensures Stage(c, acts1, pp, cp, if side.Left? then r else m, if side.Left? then p else r)
    ensures var x, y := if side.Left? then m else p, if side.Left? then p else m;
            && r.reader.AtDispatch? && r.reader.p == Clean(c, y.sent[x.got].payload)
            && FdsOf(r.reader.files) == Cap(y.sent[x.got].fds)
            && r == x.(reader := r.reader, pos := r.pos, created := r.created, place := r.place)
  {
    hide ExecBoot, Clean, Lawful;
    acts1, r := Takes(c, acts, side, if side.Left? then m else p, if side.Left? then p else m);
  }

  /** The parent's Request returns the reply. */
  lemma RoundReturns(c: Codec, acts: seq<BootAct>, pp: ParentPc, cp: ChildPc, m: State, p: State, q: nat, reply: Msg)
    returns (acts1: seq<BootAct>, m1: State)
    requires Lawful(c) && Stage(c, acts, pp, cp, m, p)
    requires m.reader.AtHeader? && |p.sent| == m.got + 1 && Carries(p.sent[m.got], true, q, reply)
    requires q in m.sessions && q in m.calls && m.calls[q].pc.Waiting? && m.calls[q].ch == NEW_CHAN
    ensures Stage(c, acts1, pp, cp, m1, p)
    ensures m1.reader.AtHeader? && m1.got == |p.sent| && m1.sent == m.sent && m1.nextSeq == m.nextSeq
    ensures m1.calls.Keys == m.calls.Keys && forall k :: k in m.calls && k != q ==> m1.calls[k] == m.calls[k]
    ensures m1.calls[q].pc.Done? && m1.calls[q].pc.res.Some?
    ensures var r := m1.calls[q].pc.res.value;
            r.data == reply.data && FdsOf(r.files) == Cap(reply.fds) && r.annotations == CleanAll(c, reply.annotations)
  {
    var r: State;
    acts1, r := StageReads(c, acts, Left, pp, cp, m, p);
    CleanKeeps(c, p.sent[m.got].payload);
    assert r.reader.p.annotations == CleanAll(c, reply.annotations);
    hide Stage, Clean, CleanAll;
    var steps := Returns(c, r, p.sent, q);
    hide Steps;
    var p0;
    acts1, m1, p0 := StageIo(c, acts1, Left, pp, cp, r, p, steps);
  }

  lemma StageCheck(c: Codec, acts: seq<BootAct>, pp: ParentPc, cp: ChildPc, m: State, p: State) returns (acts1: seq<BootAct>)
    requires Stage(c, acts, pp, cp, m, p) && (pp.AwaitListener? || pp.AwaitComplete?)
    requires var q := if pp.AwaitListener? then 1 else 2;
             && q in m.calls && m.calls[q].pc.Done? && m.calls[q].pc.res.Some?
             && var r := m.calls[q].pc.res.value;
             && (pp.AwaitListener? ==> r.data == LISTENER_FD && Find(TableOf(r), LISTENER_ID).Ok?)
             && (pp.AwaitComplete? ==> r.data == COMPLETED)
    ensures Stage(c, acts1, if pp.AwaitListener? then AskComplete else ProcWait, cp, m, p)
  {
    hide ExecBoot, Bytes, Find;
    BootSnoc(c, acts, ParentCheck(true));
    acts1 := acts + [ParentCheck(true)];
  }

  lemma ListenerFound(c: Codec, fd: Fd, r: InMsg)
    requires c.utf8(LISTENER_ID) == LISTENER_ID
    requires FdsOf(r.files) == Cap(ListenerReply(fd).fds) && r.annotations == CleanAll(c, ListenerReply(fd).annotations)
    ensures ListenerReply(fd).data == LISTENER_FD && Find(TableOf(r), LISTENER_ID) == Ok((fd, c.utf8("tcp listener")))
  {}

  lemma WordsDiffer(fd: Fd)
    ensures LISTENER != COMPLETE && Command(AskListener) == LISTENER && Command(AskComplete) == COMPLETE
    ensures Reply(LISTENER, fd) == ListenerReply(fd) && Reply(COMPLETE, fd) == Plain(COMPLETED)
  {
    assert |LISTENER| == 14 && |COMPLETE| == 8;
  }

  lemma StageStart(c: Codec)
    ensures Stage(c, [], AskListener, Looping, INIT, INIT)
  {}

  /** The first round: the parent is granted the listener. */
  lemma ListenerRound(c: Codec, fd: Fd) returns (acts: seq<BootAct>, m: State, p: State)
    requires Lawful(c) && Fits(c) && c.utf8(LISTENER_ID) == LISTENER_ID
    ensures Stage(c, acts, AskComplete, Looping, m, p)
    ensures m.reader.AtHeader? && m.got == |p.sent| && m.nextSeq == 1
    ensures p.reader.AtHeader? && p.got == |m.sent| && p.inbound == []
  {
    hide Stage, Command, Reply, Carries, Bytes, Lawful, Fits, FdsOf, CleanAll, Cap, Find, ListenerReply;
    WordsDiffer(fd);
    StageStart(c);
    acts, m := RoundAsks(c, [], AskListener, INIT, INIT);
    acts, p := RoundAnswers(c, acts, AwaitListener, m, INIT, 1, LISTENER, fd);
    acts, m := RoundReturns(c, acts, AwaitListener, Looping, m, p, 1, Reply(LISTENER, fd));
    ListenerFound(c, fd, m.calls[1].pc.res.value);
    acts := StageCheck(c, acts, AwaitListener, Looping, m, p);
  }

  /** Some run of the two programs completes the handshake, whatever descriptor the listener has. */
  lemma HandshakeCompletes(c: Codec, fd: Fd) returns (acts: seq<BootAct>)
    requires Lawful(c) && Fits(c) && c.utf8(LISTENER_ID) == LISTENER_ID
    ensures ExecBoot(c, acts).Some?
    ensures ExecBoot(c, acts).value.parent.ProcWait? && ExecBoot(c, acts).value.child.SettingUp?
  {
    hide Stage, Command, Reply, Carries, Bytes, Lawful, Fits, FdsOf, CleanAll, Cap, Find;
    WordsDiffer(fd);
    var m, p, m1, p1;
    acts, m, p := ListenerRound(c, fd);
    acts, m1 := RoundAsks(c, acts, AskComplete, m, p);
    acts, p1 := RoundAnswers(c, acts, AwaitComplete, m1, p, 2, COMPLETE, fd);
    acts, m1 := RoundReturns(c, acts, AwaitComplete, SettingUp, m1, p1, 2, Reply(COMPLETE, fd));
    acts := StageCheck(c, acts, AwaitComplete, SettingUp, m1, p1);
    StageIs(c, acts, ProcWait, SettingUp, m1, p1);
  }

  lemma StageIs(c: Codec, acts: seq<BootAct>, pp: ParentPc, cp: ChildPc, m: State, p: State)
    requires Stage(c, acts, pp, cp, m, p)
    ensures ExecBoot(c, acts).Some? && ExecBoot(c, acts).value.parent == pp && ExecBoot(c, acts).value.child == cp
  {}
}
