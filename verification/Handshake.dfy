/** The parent program and the child's command loop, composed over one fdchan connection: every
    interleaving of the two programs with both ends' Request and reader steps. */
module Handshake {
  import opened Base
  import opened Wire
  import opened Mux
  import opened MuxInvariant
  import opened MuxRun
  import MuxSteps
  import opened MuxTheorems
  import opened Descriptors

  // ---------- The messages ----------

  function Bytes(s: string): (b: seq<Byte>)
    ensures |b| == |s|
  {
    seq(|s|, i requires 0 <= i < |s| => s[i] as int % 256)
  }

  const PING := Bytes("ping")
  const PONG := Bytes("pong")
  const LISTENER := Bytes("proxy-listener")
  const LISTENER_FD := Bytes("proxy-listener-fd")
  const COMPLETE := Bytes("complete")
  const COMPLETED := Bytes("completed")

  const LISTENER_ID := "proxy-listener"

  function Plain(data: seq<Byte>): Msg { Msg(data, [], []) }

  /** The reply built with one AddDescriptor. */
  function ListenerReply(fd: Fd): Msg {
    var t := AddTo(Table([], []), Add(Some(fd), LISTENER_ID, "tcp listener"));
    Msg(LISTENER_FD, t.files, t.annotations)
  }

  // ---------- The two programs ----------

  datatype ParentPc =
    | AskListener                  // about to request the listener
    | AwaitListener                // in that Request
    | AskComplete
    | AwaitComplete
    | ProcWait                     // about to wait for the child to end
    | ParentFailed

  datatype ChildPc =
    | Looping                      // about to call HandleRequest
    | Handling                     // holds the last request returned
    | SettingUp                    // left the loop
    | ChildFailed

  /** `tr` is the run of the connection, `fds` the listener opened for each request, `mark` the
      number of frames the child had written when the parent asked for completion: history. */
  datatype Boot = Boot(link: Link, parent: ParentPc, child: ChildPc, tr: Trace, fds: map<nat, Fd>, mark: nat)

  const START := Boot(Link(INIT, INIT), AskListener, Looping, [], map[], 0)

  datatype BootAct =
    | ParentIo(a: Act)             // inside a Request, or the parent's reader
    | ParentAsk
    | ParentCheck(served: bool)    // served: net.FileListener succeeded
    | ChildIo(a: Act)              // the child's reader
    | ChildTake
    | ChildRefused
    | ChildHandle(listen: Option<Fd>, ok: bool)   // the listener, if it could be opened; ok: the write succeeded

  predicate IsReader(a: Act) {
    a.ReadHeader? || a.ReadHeaderError? || a.ReadBody? || a.ReadBodyError? || a.Dispatch? || a.CloseSessions? || a.CloseDone?
  }

  predicate IsParentIo(a: Act) {
    IsReader(a) || a.Register? || a.WriteRequest? || a.Unregister? || a.Receive?
  }

  /** A step of the connection made by one of the programs. */
  function Io(c: Codec, b: Boot, side: Side, a: Act): Option<Boot> {
    match StepLink(c, b.link, side, a)
    case None => None
    case Some(s) => Some(b.(link := s, tr := b.tr + [(side, a)]))
  }

  function DoAsk(c: Codec, b: Boot): Option<Boot> {
    if b.parent.AskListener? then
      match Io(c, b, Left, Start(Plain(LISTENER)))
      case None => None
      case Some(b1) => Some(b1.(parent := AwaitListener))
    else if b.parent.AskComplete? then
      match Io(c, b, Left, Start(Plain(COMPLETE)))
      case None => None
      case Some(b1) => Some(b1.(parent := AwaitComplete, mark := |b.link.right.sent|))
    else None
  }

  function TableOf(m: InMsg): Table { Table(FdsOf(m.files), m.annotations) }

  function DoCheck(b: Boot, served: bool): Option<Boot> {
    var calls := b.link.left.calls;
    if b.parent.AwaitListener? && 1 in calls && calls[1].pc.Done? then
      var r := calls[1].pc.res;
      var ok := r.Some? && r.value.data == LISTENER_FD && Find(TableOf(r.value), LISTENER_ID).Ok? && served;
      Some(b.(parent := if ok then AskComplete else ParentFailed))
    else if b.parent.AwaitComplete? && 2 in calls && calls[2].pc.Done? then
      var r := calls[2].pc.res;
      Some(b.(parent := if r.Some? && r.value.data == COMPLETED then ProcWait else ParentFailed))
    else None
  }

  /** A command's reply, with the listener it opened; None ends the loop with an error. */
  function ReplyTo(cmd: seq<Byte>, listen: Option<Fd>): Option<Msg> {
    if cmd == PING then Some(Plain(PONG))
    else if cmd == LISTENER then
      match listen
      case None => None
      case Some(fd) => Some(ListenerReply(fd))
    else if cmd == COMPLETE then Some(Plain(COMPLETED))
    else None
  }

  function DoHandle(c: Codec, b: Boot, listen: Option<Fd>, ok: bool): Option<Boot> {
    var m := b.link.right;
    if !b.child.Handling? || m.handled == [] then None else
    var h := |m.handled| - 1;
    var cmd := m.handled[h].data;
    var b0 := if cmd == LISTENER && listen.Some? then b.(fds := b.fds[h := listen.value]) else b;
    match ReplyTo(cmd, listen)
    case None => Some(b0.(child := ChildFailed))
    case Some(reply) =>
      match Io(c, b0, Right, Respond(h, reply, ok))
      case None => None
      case Some(b1) =>
        var wrote := |b1.link.right.sent| > |m.sent|;
        Some(b1.(child := if !wrote then ChildFailed else if cmd == COMPLETE then SettingUp else Looping))
  }

  function DoBoot(c: Codec, b: Boot, a: BootAct): Option<Boot> {
    match a
    case ParentIo(a) => if IsParentIo(a) then Io(c, b, Left, a) else None
    case ParentAsk => DoAsk(c, b)
    case ParentCheck(served) => DoCheck(b, served)
    case ChildIo(a) => if IsReader(a) then Io(c, b, Right, a) else None
    case ChildTake =>
      if !b.child.Looping? then None else
      (match Io(c, b, Right, TakeRequest)
       case None => None
       case Some(b1) => Some(b1.(child := Handling)))
    case ChildRefused =>
      if !b.child.Looping? then None else
      (match Io(c, b, Right, RefuseRequest)
       case None => None
       case Some(b1) => Some(b1.(child := ChildFailed)))
    case ChildHandle(listen, ok) => DoHandle(c, b, listen, ok)
  }

  function ExecBoot(c: Codec, acts: seq<BootAct>): Option<Boot> {
    if acts == [] then Some(START) else
    match ExecBoot(c, acts[..|acts| - 1])
    case None => None
    case Some(b) => DoBoot(c, b, acts[|acts| - 1])
  }

  // ---------- The invariant ----------

  /** The first Request returned the listener under its name. */
  predicate Granted(calls: map<nat, Call>) {
    && 1 in calls && calls[1].pc.Done? && calls[1].pc.res.Some?
    && calls[1].pc.res.value.data == LISTENER_FD
    && Find(TableOf(calls[1].pc.res.value), LISTENER_ID).Ok?
  }

  predicate Asked(calls: map<nat, Call>) {
    && (1 in calls ==> calls[1].msg == Plain(LISTENER))
    && (2 in calls ==> calls[2].msg == Plain(COMPLETE) && Granted(calls))
  }

  predicate ParentOk(m: State, pc: ParentPc) {
    && Asked(m.calls)
    && (match pc
        case AskListener => m.calls.Keys == {} && m.nextSeq == 0
        case AwaitListener => m.calls.Keys == {1} && m.nextSeq == 1
        case AskComplete => m.calls.Keys == {1} && m.nextSeq == 1 && Granted(m.calls)
        case AwaitComplete => m.calls.Keys == {1, 2} && m.nextSeq == 2
        case ProcWait => m.calls.Keys == {1, 2} && m.calls[2].pc.Done? && m.calls[2].pc.res.Some?
                         && m.calls[2].pc.res.value.data == COMPLETED
        case ParentFailed => m.calls.Keys <= {1, 2})
  }

  /** The child had answered the first request, and not the second, before it was asked. */
  ghost predicate MarkOk(calls: map<nat, Call>, sent: seq<Frame>, mark: nat) {
    2 in calls ==>
      && mark <= |sent| && NoReply(sent, mark, 2)
      && exists j :: 0 <= j < mark && IsReplyTo(sent[j], 1)
  }

  /** A frame the child wrote is the reply to the command it answers. */
  predicate IsAnswer(f: Frame, handled: seq<InMsg>, fds: map<nat, Fd>) {
    && f.origin.FromResponder? && f.origin.h < |handled|
    && var h := f.origin.h;
       var reply := ReplyTo(handled[h].data, if h in fds then Some(fds[h]) else None);
       reply.Some? && f == Frame(ReplyPayload(handled[h].seqNo, reply.value), reply.value.fds, FromResponder(h))
  }

  ghost predicate ChildOk(m: State, pc: ChildPc, fds: map<nat, Fd>) {
    && (forall j :: 0 <= j < |m.sent| ==> IsAnswer(m.sent[j], m.handled, fds))
    && (forall h :: h in fds ==> h < |m.handled|)
    && (pc.Handling? ==> m.handled != [] && |m.handled| - 1 !in fds)
    && (pc.SettingUp? ==> LastAnswered(m))
    && ((exists j :: 0 <= j < |m.sent| && m.sent[j].payload.data == COMPLETED) ==> pc.SettingUp?)
  }

  /** The last request was `complete`, and its reply was accepted for writing last. */
  predicate LastAnswered(m: State) {
    && m.handled != [] && m.handled[|m.handled| - 1].data == COMPLETE
    && m.sent != [] && m.sent[|m.sent| - 1].origin == FromResponder(|m.handled| - 1)
  }

  ghost predicate BootOk(c: Codec, b: Boot) {
    && Exec(c, b.tr) == Some(b.link)
    && ParentOk(b.link.left, b.parent)
    && MarkOk(b.link.left.calls, b.link.right.sent, b.mark)
    && ChildOk(b.link.right, b.child, b.fds)
  }

  // ---------- Preservation ----------

  lemma IoRun(c: Codec, b: Boot, side: Side, a: Act)
    requires Exec(c, b.tr) == Some(b.link) && Io(c, b, side, a).Some?
    ensures var b1 := Io(c, b, side, a).value; Exec(c, b1.tr) == Some(b1.link)
  {
    ExecAppend(c, b.tr, side, a);
  }

  /** Steps of a Request or of the reader keep messages and results. */
  lemma CallsKeep(c: Codec, m: State, peer: seq<Frame>, a: Act)
    requires IsParentIo(a) && Do(c, m, peer, a).Some?
    ensures var m1 := Do(c, m, peer, a).value;
            && m1.nextSeq == m.nextSeq && m1.calls.Keys == m.calls.Keys
            && forall q :: q in m.calls ==>
                 m1.calls[q].msg == m.calls[q].msg && (m.calls[q].pc.Done? ==> m1.calls[q].pc == m.calls[q].pc)
  {}

  lemma ReaderKeeps(c: Codec, m: State, peer: seq<Frame>, a: Act)
    requires IsReader(a) && Do(c, m, peer, a).Some?
    ensures var m1 := Do(c, m, peer, a).value; m1.sent == m.sent && m1.handled == m.handled
  {}

  lemma MarkGrows(calls: map<nat, Call>, sent: seq<Frame>, sent1: seq<Frame>, mark: nat)
    requires MarkOk(calls, sent, mark) && sent <= sent1
    ensures MarkOk(calls, sent1, mark)
  {}

  lemma ParentIoOk(c: Codec, b: Boot, a: Act)
    requires BootOk(c, b) && IsParentIo(a) && Io(c, b, Left, a).Some?
    ensures BootOk(c, Io(c, b, Left, a).value)
  {
    IoRun(c, b, Left, a);
    CallsKeep(c, b.link.left, b.link.right.sent, a);
  }

  lemma AskListenerOk(c: Codec, b: Boot)
    requires BootOk(c, b) && b.parent.AskListener? && DoAsk(c, b).Some?
    ensures BootOk(c, DoAsk(c, b).value)
  {
    hide ChildOk, Granted, Exec;
    IoRun(c, b, Left, Start(Plain(LISTENER)));
  }

  /** Before the second request exists nothing replies to it, and the first has been answered. */
  lemma MarkNow(c: Codec, tr: Trace)
    requires Lawful(c) && Exec(c, tr).Some?
    requires var calls := Exec(c, tr).value.left.calls; Granted(calls) && 2 !in calls
    ensures var sent := Exec(c, tr).value.right.sent;
            NoReply(sent, |sent|, 2) && exists j :: 0 <= j < |sent| && IsReplyTo(sent[j], 1)
  {
    RunOk(c, tr);
    var s := Exec(c, tr).value;
    assert RepliesOk(s.left, s.right.sent);
    var j, h, k := ReplyFrame(c, tr, Left, 1);
    assert IsReplyTo(s.right.sent[j], 1);
  }

  lemma AskCompleteOk(c: Codec, b: Boot)
    requires Lawful(c) && BootOk(c, b) && b.parent.AskComplete? && DoAsk(c, b).Some?
    ensures BootOk(c, DoAsk(c, b).value)
  {
    IoRun(c, b, Left, Start(Plain(COMPLETE)));
    MarkNow(c, b.tr);
  }

  lemma ChildIoOk(c: Codec, b: Boot, a: Act)
    requires BootOk(c, b) && IsReader(a) && Io(c, b, Right, a).Some?
    ensures BootOk(c, Io(c, b, Right, a).value)
  {
    IoRun(c, b, Right, a);
    ReaderKeeps(c, b.link.right, b.link.left.sent, a);
  }

  /** Taking a request changes no answer. */
  lemma TakeKeeps(m: State, m1: State, fds: map<nat, Fd>)
    requires ChildOk(m, Looping, fds) && DoTakeRequest(m) == Some(m1)
    ensures ChildOk(m1, Handling, fds)
  {
    forall j | 0 <= j < |m1.sent| ensures IsAnswer(m1.sent[j], m1.handled, fds) {
      assert IsAnswer(m.sent[j], m.handled, fds);
    }
  }

  /** The reply to the last request is its answer. */
  lemma HandleKeeps(c: Codec, m: State, m1: State, fds: map<nat, Fd>, listen: Option<Fd>, ok: bool)
    requires ChildOk(m, Handling, fds)
    requires var cmd := m.handled[|m.handled| - 1].data;
             && ReplyTo(cmd, listen).Some?
             && DoRespond(c, m, |m.handled| - 1, ReplyTo(cmd, listen).value, ok) == Some(m1)
    ensures var h := |m.handled| - 1; var cmd := m.handled[h].data;
            var fds1 := if cmd == LISTENER && listen.Some? then fds[h := listen.value] else fds;
            && m.sent <= m1.sent
            && ChildOk(m1, if |m1.sent| == |m.sent| then ChildFailed else if cmd == COMPLETE then SettingUp else Looping, fds1)
  {
    hide Bytes;
    var h := |m.handled| - 1;
    var cmd := m.handled[h].data;
    var fds1 := if cmd == LISTENER && listen.Some? then fds[h := listen.value] else fds;
    forall j | 0 <= j < |m1.sent| ensures IsAnswer(m1.sent[j], m1.handled, fds1) {
      if j < |m.sent| {
        assert IsAnswer(m.sent[j], m.handled, fds);
      }
    }
  }

  lemma ChildTakeOk(c: Codec, b: Boot)
    requires BootOk(c, b) && DoBoot(c, b, ChildTake).Some?
    ensures BootOk(c, DoBoot(c, b, ChildTake).value)
  {
    IoRun(c, b, Right, TakeRequest);
    TakeKeeps(b.link.right, DoTakeRequest(b.link.right).value, b.fds);
  }

  lemma ChildFailsOk(c: Codec, b: Boot, listen: Option<Fd>, ok: bool)
    requires BootOk(c, b) && b.child.Handling? && b.link.right.handled != []
    requires var handled := b.link.right.handled; ReplyTo(handled[|handled| - 1].data, listen).None?
    ensures DoHandle(c, b, listen, ok).Some? && BootOk(c, DoHandle(c, b, listen, ok).value)
  {
    hide ParentOk, MarkOk, Io, Exec;
  }

  lemma ChildHandleOk(c: Codec, b: Boot, listen: Option<Fd>, ok: bool)
    requires BootOk(c, b) && DoHandle(c, b, listen, ok).Some?
    ensures BootOk(c, DoHandle(c, b, listen, ok).value)
  {
    hide ParentOk, MarkOk, ChildOk, ReplyTo, Write, Exec;
    var m := b.link.right;
    var h := |m.handled| - 1;
    var reply := ReplyTo(m.handled[h].data, listen);
    if reply.Some? {
      IoRun(c, b, Right, Respond(h, reply.value, ok));
      HandleKeeps(c, m, DoRespond(c, m, h, reply.value, ok).value, b.fds, listen, ok);
      MarkGrows(b.link.left.calls, m.sent, DoRespond(c, m, h, reply.value, ok).value.sent, b.mark);
    } else {
      ChildFailsOk(c, b, listen, ok);
    }
  }

  lemma BootStepOk(c: Codec, b: Boot, a: BootAct)
    requires Lawful(c) && BootOk(c, b) && DoBoot(c, b, a).Some?
    ensures BootOk(c, DoBoot(c, b, a).value)
  {
    hide ParentOk, MarkOk, ChildOk;
    match a
    case ParentIo(a) => ParentIoOk(c, b, a);
    case ParentAsk =>
      if b.parent.AskListener? {
        AskListenerOk(c, b);
      } else {
        AskCompleteOk(c, b);
      }
    case ParentCheck(served) => CheckOk(c, b, served);
    case ChildIo(a) => ChildIoOk(c, b, a);
    case ChildTake => ChildTakeOk(c, b);
    case ChildRefused => RefusedOk(c, b);
    case ChildHandle(listen, ok) => ChildHandleOk(c, b, listen, ok);
  }

  lemma CheckOk(c: Codec, b: Boot, served: bool)
    requires BootOk(c, b) && DoCheck(b, served).Some?
    ensures BootOk(c, DoCheck(b, served).value)
  {}

  lemma RefusedOk(c: Codec, b: Boot)
    requires BootOk(c, b) && DoBoot(c, b, ChildRefused).Some?
    ensures BootOk(c, DoBoot(c, b, ChildRefused).value)
  {
    hide ParentOk, MarkOk, Exec, IsAnswer, ReplyTo;
    IoRun(c, b, Right, RefuseRequest);
  }

  lemma {:induction false} BootRunOk(c: Codec, acts: seq<BootAct>)
    requires Lawful(c) && ExecBoot(c, acts).Some?
    ensures BootOk(c, ExecBoot(c, acts).value)
  {
    if acts != [] {
      BootRunOk(c, acts[..|acts| - 1]);
      BootStepOk(c, ExecBoot(c, acts[..|acts| - 1]).value, acts[|acts| - 1]);
    }
  }

  // ---------- Handshake safety ----------

  /** The bytes are those of an ASCII text. */
  predicate Spells(data: seq<Byte>, text: string) {
    |data| == |text| && forall i :: 0 <= i < |text| ==> data[i] as int == text[i] as int
  }

  /** The child's j-th frame answers request q, which spelled `ask`, with a reply that spells `answer`
      and carries the descriptors fds under these annotations. */
  predicate Answered(b: Boot, j: nat, q: nat, ask: string, answer: string, notes: seq<Annotation>, fds: seq<Fd>) {
    var m := b.link.right;
    && j < |m.sent|
    && var f := m.sent[j];
       && f.origin.FromResponder? && f.origin.h < |m.handled|
       && m.handled[f.origin.h].seqNo == q && Spells(m.handled[f.origin.h].data, ask)
       && f.payload.seqNo == q && f.payload.isResponse && Spells(f.payload.data, answer)
       && f.payload.annotations == notes && f.fds == fds
  }

  const NOTES := [Annotation("proxy-listener", "tcp listener")]

  lemma BytesSpell(text: string)
    requires forall i :: 0 <= i < |text| ==> text[i] as int < 256
    ensures Spells(Bytes(text), text)
  {}

  lemma CommandsSpell()
    ensures Spells(PING, "ping") && Spells(PONG, "pong")
    ensures Spells(LISTENER, "proxy-listener") && Spells(LISTENER_FD, "proxy-listener-fd")
    ensures Spells(COMPLETE, "complete") && Spells(COMPLETED, "completed")
  {
    hide Spells;
    BytesSpell("ping");
    BytesSpell("pong");
    BytesSpell("proxy-listener");
    BytesSpell("proxy-listener-fd");
    BytesSpell("complete");
    BytesSpell("completed");
  }

  lemma OneSpelling(a: seq<Byte>, b: seq<Byte>, text: string)
    requires Spells(a, text) && Spells(b, text)
    ensures a == b
  {}

  /** What the child answers, in words: three commands, each with its own reply, and nothing else. */
  lemma ReplySpells(cmd: seq<Byte>, listen: Option<Fd>)
    ensures ReplyTo(cmd, listen).Some? <==>
            Spells(cmd, "ping") || (Spells(cmd, "proxy-listener") && listen.Some?) || Spells(cmd, "complete")
    ensures ReplyTo(cmd, listen).Some? ==>
              var r := ReplyTo(cmd, listen).value;
              if Spells(cmd, "proxy-listener")
              then Spells(r.data, "proxy-listener-fd") && r.annotations == NOTES && r.fds == [listen.value]
              else r.annotations == [] && r.fds == [] && Spells(r.data, if Spells(cmd, "ping") then "pong" else "completed")
  {
    CommandsSpell();
    hide Spells;
    if Spells(cmd, "ping") { OneSpelling(cmd, PING, "ping"); }
    if Spells(cmd, "proxy-listener") { OneSpelling(cmd, LISTENER, "proxy-listener"); }
    if Spells(cmd, "complete") { OneSpelling(cmd, COMPLETE, "complete"); }
    assert |PING| == 4 && |LISTENER| == 14 && |COMPLETE| == 8;
  }

  /** Only a listener request is answered with the listener data, and so on. */
  lemma ReplyData(cmd: seq<Byte>, listen: Option<Fd>)
    requires ReplyTo(cmd, listen).Some?
    ensures ReplyTo(cmd, listen).value.data == LISTENER_FD <==> cmd == LISTENER
    ensures ReplyTo(cmd, listen).value.data == COMPLETED <==> cmd == COMPLETE
  {
    assert |PONG| == 4 && |LISTENER_FD| == 17 && |COMPLETED| == 9;
    assert |PING| == 4 && |LISTENER| == 14 && |COMPLETE| == 8;
  }

  /** The frame behind a result of the parent. */
  lemma ResultAnswered(c: Codec, b: Boot, q: nat) returns (j: nat)
    requires Lawful(c) && BootOk(c, b)
    requires var calls := b.link.left.calls; q in calls && calls[q].pc.Done? && calls[q].pc.res.Some?
    ensures var r := b.link.left.calls[q].pc.res.value; var m := b.link.right;
            && j < |m.sent| && IsReplyTo(m.sent[j], q) && NoReply(m.sent, j, q)
            && m.sent[j].origin.FromResponder? && m.sent[j].origin.h < |m.handled|
            && var h := m.sent[j].origin.h; var listen := if h in b.fds then Some(b.fds[h]) else None;
            && var reply := ReplyTo(m.handled[h].data, listen);
            && reply.Some? && m.handled[h].seqNo == q
            && m.sent[j] == Frame(ReplyPayload(q, reply.value), reply.value.fds, FromResponder(h))
            && r.data == reply.value.data && FdsOf(r.files) == Cap(reply.value.fds)
            && r.annotations == CleanAll(c, reply.value.annotations)
  {
    var h, k;
    j, h, k := ReplyFrame(c, b.tr, Left, q);
    assert IsAnswer(b.link.right.sent[j], b.link.right.handled, b.fds);
  }

  /** When the parent waits for the child's end, the child has answered the listener request with
      the listener it opened, later the completion request, and has left its loop; and the
      descriptor the parent serves on is that listener. */
  lemma ParentWaitsLate(c: Codec, acts: seq<BootAct>) returns (j1: nat, j2: nat, fd: Fd)
    requires Lawful(c) && ExecBoot(c, acts).Some? && ExecBoot(c, acts).value.parent.ProcWait?
    ensures var b := ExecBoot(c, acts).value;
            && j1 < j2
            && Answered(b, j1, 1, "proxy-listener", "proxy-listener-fd", [Annotation("proxy-listener", "tcp listener")], [fd])
            && b.link.right.sent[j1].origin.h in b.fds && b.fds[b.link.right.sent[j1].origin.h] == fd
            && Answered(b, j2, 2, "complete", "completed", [], [])
            && b.child.SettingUp?
            && Granted(b.link.left.calls)
            && Find(TableOf(b.link.left.calls[1].pc.res.value), "proxy-listener").value.0 == fd
  {
    BootRunOk(c, acts);
    var b := ExecBoot(c, acts).value;
    var m := b.link.right;
    j1 := ResultAnswered(c, b, 1);
    j2 := ResultAnswered(c, b, 2);
    var h1, h2 := m.sent[j1].origin.h, m.sent[j2].origin.h;
    var l1, l2 := if h1 in b.fds then Some(b.fds[h1]) else None, if h2 in b.fds then Some(b.fds[h2]) else None;
    ReplyData(m.handled[h1].data, l1);
    ReplyData(m.handled[h2].data, l2);
    fd := b.fds[h1];
    OneNamed(c, fd);
    CommandsSpell();
    ReplySpells(m.handled[h1].data, l1);
    ReplySpells(m.handled[h2].data, l2);
  }

  /** In every run each frame of the child answers one of three commands, a listener request with the
      listener opened for it; whatever else it is asked it does not answer. */
  lemma ChildAnswers(c: Codec, acts: seq<BootAct>, j: nat)
    requires Lawful(c) && ExecBoot(c, acts).Some? && j < |ExecBoot(c, acts).value.link.right.sent|
    ensures var b := ExecBoot(c, acts).value;
            var q, h := b.link.right.sent[j].payload.seqNo, b.link.right.sent[j].origin;
            || Answered(b, j, q, "ping", "pong", [], [])
            || Answered(b, j, q, "complete", "completed", [], [])
            || (h.FromResponder? && h.h in b.fds
                && Answered(b, j, q, "proxy-listener", "proxy-listener-fd",
                            [Annotation("proxy-listener", "tcp listener")], [b.fds[h.h]]))
  {
    BootRunOk(c, acts);
    var b := ExecBoot(c, acts).value;
    var m := b.link.right;
    hide Exec, ExecBoot, ParentOk, MarkOk, Spells, ReplyTo, Lawful;
    assert IsAnswer(m.sent[j], m.handled, b.fds);
    var h := m.sent[j].origin.h;
    ReplySpells(m.handled[h].data, if h in b.fds then Some(b.fds[h]) else None);
  }

  lemma OneNamed(c: Codec, fd: Fd)
    ensures var r := ListenerReply(fd); var t := Table(Cap(r.fds), CleanAll(c, r.annotations));
            Find(t, LISTENER_ID).Ok? ==> Find(t, LISTENER_ID).value.0 == fd
  {}

  /** A completion request the child was given is the parent's second. */
  lemma CompleteWasAsked(c: Codec, child: State, left: State, h: nat)
    requires QueueOk(c, child.handled, child.inbound, child.got, left.sent) && SentOk(c, left)
    requires Asked(left.calls) && left.calls.Keys <= {1, 2}
    requires h < |child.handled| && child.handled[h].data == COMPLETE
    ensures child.handled[h].seqNo == 2 && 2 in left.calls
  {
    hide QueueOk, SentOk;
    var k := MuxSteps.HandledWasWritten(c, child, left, h);
    MuxSteps.CleanKeeps(c, left.sent[k].payload);
    assert |LISTENER| == 14 && |COMPLETE| == 8;
  }

  /** The parent's place in its program once its second request exists. */
  lemma SecondAsked(m: State, pc: ParentPc)
    requires ParentOk(m, pc)
    ensures m.calls.Keys <= {1, 2}
    ensures 2 in m.calls ==> Granted(m.calls) && !pc.AskListener? && !pc.AwaitListener? && !pc.AskComplete?
  {}

  lemma LastAnswer(b: Boot)
    requires ChildOk(b.link.right, SettingUp, b.fds)
    ensures var m := b.link.right;
            && m.sent != [] && m.handled != [] && m.handled[|m.handled| - 1].data == COMPLETE
            && Answered(b, |m.sent| - 1, m.handled[|m.handled| - 1].seqNo, "complete", "completed", [], [])
  {
    var m := b.link.right;
    CommandsSpell();
    assert IsAnswer(m.sent[|m.sent| - 1], m.handled, b.fds);
    assert |LISTENER| == 14 && |COMPLETE| == 8 && |PING| == 4;
  }

  /** When the child sets up, its last request was the parent's completion request, the reply to it
      was accepted for writing, and the parent had been granted the listener before it asked. */
  lemma ChildSetsUpLate(c: Codec, acts: seq<BootAct>)
    requires Lawful(c) && ExecBoot(c, acts).Some? && ExecBoot(c, acts).value.child.SettingUp?
    ensures var b := ExecBoot(c, acts).value;
            && b.link.right.sent != [] && Answered(b, |b.link.right.sent| - 1, 2, "complete", "completed", [], [])
            && Granted(b.link.left.calls) && !b.parent.AskListener? && !b.parent.AwaitListener? && !b.parent.AskComplete?
  {
    hide *;
    BootRunOk(c, acts);
    var b := ExecBoot(c, acts).value;
    LinkParts(c, b);
    LastAnswer(b);
    SecondAsked(b.link.left, b.parent);
    CompleteWasAsked(c, b.link.right, b.link.left, |b.link.right.handled| - 1);
  }

  lemma LinkParts(c: Codec, b: Boot)
    requires Lawful(c) && BootOk(c, b)
    ensures ParentOk(b.link.left, b.parent) && Asked(b.link.left.calls) && ChildOk(b.link.right, b.child, b.fds)
    ensures var m := b.link.right; QueueOk(c, m.handled, m.inbound, m.got, b.link.left.sent)
    ensures SentOk(c, b.link.left)
  {
    RunOk(c, b.tr);
  }
}
