/** The child's command loop as the code it is, over whatever its connection delivers. */
module CommandLoop {
  import opened Base
  import opened Wire
  import opened Mux
  import opened Handshake

  /** One round: what HandleRequest returned (None is an error), the listener if it could be opened,
      and whether the reply was accepted for writing. */
  datatype Turn = Turn(request: Option<seq<Byte>>, listen: Option<Fd>, ok: bool)

  function Reply(t: Turn): Option<Msg> {
    if t.request.None? then None else ReplyTo(t.request.value, t.listen)
  }

  predicate Good(t: Turn) { Reply(t).Some? && t.ok }

  predicate IsLast(t: Turn) { t.request == Some(COMPLETE) }

  /** The answers given: to every round until one fails or has asked for completion. */
  predicate Outcome(turns: seq<Turn>, answers: seq<Msg>) {
    && |answers| <= |turns|
    && (forall i :: 0 <= i < |answers| ==> Good(turns[i]) && answers[i] == Reply(turns[i]).value)
    && (forall i :: 0 <= i < |answers| - 1 ==> !IsLast(turns[i]))
    && (|answers| < |turns| && !Completes(turns, answers) ==> !Good(turns[|answers|]))
  }

  /** The last answer was to a completion request. */
  predicate Completes(turns: seq<Turn>, answers: seq<Msg>)
    requires |answers| <= |turns|
  {
    answers != [] && IsLast(turns[|answers| - 1])
  }

  /** The loop of run; `complete` when it is left for the setup. */
  method Serve(turns: seq<Turn>) returns (answers: seq<Msg>, complete: bool)
    ensures Outcome(turns, answers) && (complete <==> Completes(turns, answers))
  {
    answers, complete := [], false;
    while !complete && |answers| < |turns|
      invariant |answers| <= |turns|
      invariant forall i :: 0 <= i < |answers| ==> Good(turns[i]) && answers[i] == Reply(turns[i]).value
      invariant forall i :: 0 <= i < |answers| - 1 ==> !IsLast(turns[i])
      invariant complete <==> answers != [] && IsLast(turns[|answers| - 1])
      decreases |turns| - |answers|
    {
      var t := turns[|answers|];
      if t.request.None? {
        return;
      }
      var cmd := t.request.value;
      var resp: Msg;
      var last := false;
      if cmd == PING {
        resp := Plain(PONG);
      } else if cmd == LISTENER {
        if t.listen.None? {
          return;
        }
        resp := ListenerReply(t.listen.value);
      } else if cmd == COMPLETE {
        last := true;
        resp := Plain(COMPLETED);
      } else {
        return;
      }
      assert Reply(t) == Some(resp) && (last <==> IsLast(t)) by {
        assert |PING| == 4 && |LISTENER| == 14 && |COMPLETE| == 8;
      }
      if !t.ok {
        return;
      }
      answers, complete := answers + [resp], last;
    }
  }

  predicate AllServed(turns: seq<Turn>, k: nat) {
    k < |turns| && IsLast(turns[k]) && forall i :: 0 <= i <= k ==> Good(turns[i])
  }

  /** The rounds determine the answers. */
  lemma OutcomeIsUnique(turns: seq<Turn>, a: seq<Msg>, b: seq<Msg>)
    requires Outcome(turns, a) && Outcome(turns, b)
    ensures a == b
  {}

  /** The setup is entered exactly when some completion request was answered with every request
      before it. */
  lemma EntersExactly(turns: seq<Turn>, answers: seq<Msg>)
    requires Outcome(turns, answers)
    ensures Completes(turns, answers) <==> exists k: nat :: AllServed(turns, k)
  {
    if Completes(turns, answers) {
      assert AllServed(turns, |answers| - 1);
    }
    if k: nat :| AllServed(turns, k) {
      if |answers| <= k {
        assert Good(turns[|answers|]);
      } else if k < |answers| - 1 {
        assert !IsLast(turns[k]);
      }
    }
  }

  /** A round's request is a command the child knows and can carry out. */
  predicate Doable(t: Turn) {
    && t.request.Some?
    && (Spells(t.request.value, "ping") || Spells(t.request.value, "complete")
        || (Spells(t.request.value, "proxy-listener") && t.listen.Some?))
  }

  /** In words: every round up to the end is answered, "ping" with "pong", a listener request with the
      listener under its name, "complete" with "completed"; the round that ends the loop is one that
      has no such command or whose reply was not accepted, or the one that completes. */
  lemma AnswersSpell(turns: seq<Turn>, answers: seq<Msg>, i: nat)
    requires Outcome(turns, answers)
    ensures i < |answers| ==>
              && Doable(turns[i]) && turns[i].ok
              && var cmd, r := turns[i].request.value, answers[i];
              && (Spells(cmd, "ping") ==> r == Msg(r.data, [], []) && Spells(r.data, "pong"))
              && (Spells(cmd, "complete") ==> r == Msg(r.data, [], []) && Spells(r.data, "completed") && i == |answers| - 1)
              && (Spells(cmd, "proxy-listener") ==>
                    && Spells(r.data, "proxy-listener-fd")
                    && r == Msg(r.data, [turns[i].listen.value], [Annotation("proxy-listener", "tcp listener")]))
    ensures |answers| < |turns| && !Completes(turns, answers) ==> !(Doable(turns[|answers|]) && turns[|answers|].ok)
  {
    CommandsSpell();
    if i < |answers| {
      ReplySpells(turns[i].request.value, turns[i].listen);
      OneCommand(turns[i].request.value);
    }
    if |answers| < |turns| && turns[|answers|].request.Some? {
      ReplySpells(turns[|answers|].request.value, turns[|answers|].listen);
    }
  }

  lemma OneCommand(cmd: seq<Byte>)
    ensures Spells(cmd, "complete") ==> cmd == COMPLETE
    ensures Spells(cmd, "ping") ==> !Spells(cmd, "complete") && !Spells(cmd, "proxy-listener")
    ensures Spells(cmd, "complete") ==> !Spells(cmd, "proxy-listener")
  {
    CommandsSpell();
    if Spells(cmd, "complete") {
      OneSpelling(cmd, COMPLETE, "complete");
    }
  }
}
