/** What one call of the client does with the answers to its requests, in any
    interleaving with the others. */
module BudgetRetries {
  import opened Sums
  import opened Budgets
  import opened BudgetTheorems

  // The answers call i got, in order.
  function Answers(moves: seq<Move>, i: nat): seq<Sent> {
    if moves == [] then [] else
      (if moves[0].i == i && moves[0].e.Send? then [moves[0].e.r] else []) + Answers(moves[1..], i)
  }

  // Worth another attempt: the target asks to slow down, or the transport
  // failed while the caller still waits.
  predicate Temporary(r: Sent) {
    r == TransportError(false) || r == Status(429) || r == Status(503)
  }

  function Limit(c: Config, verb: string): int {
    if verb == "" || verb == "GET" || verb == "HEAD" || verb == "OPTIONS" then 1 + c.maxRetries else 1
  }

  // The caller keeps waiting: no error comes from a done context, no pause is cut short.
  predicate Patient(moves: seq<Move>, i: nat) {
    forall m | m in moves && m.i == i :: m.e != Send(TransportError(true)) && m.e != Sleep(false)
  }

  // ---------- what the call remembers of its answers ----------

  // All but the last answer were temporary, and so is the last one while the
  // call is on its way to another attempt.
  predicate Follows(call: Call, answers: seq<Sent>) {
    && call.sent == |answers|
    && (forall k | 0 <= k < |answers| - 1 :: Temporary(answers[k]))
    && match call.pc
       case Pausing(last) => answers != [] && last == answers[|answers| - 1] && Temporary(last)
       case Rewinding(last) => answers != [] && last == answers[|answers| - 1] && Temporary(last)
       case Done(Response(code, open)) => answers != [] && answers[|answers| - 1] == Status(code)
       case Done(Failed) => answers != [] && (answers[|answers| - 1].Status? ==> Temporary(answers[|answers| - 1]))
       case Done(NothingSent) => answers == []
       case _ => answers == [] || Temporary(answers[|answers| - 1])
  }

  // A patient call that can send its body again ends early on a lasting answer
  // only, or when it gets no slot.
  predicate Persists(call: Call, answers: seq<Sent>, limit: int) {
    match call.pc
    case Done(Response(code, open)) => open && (Temporary(Status(code)) ==> |answers| == limit)
    case Done(Failed) => answers != [] && answers[|answers| - 1] == TransportError(false) && |answers| == limit
    case _ => true
  }

  lemma AnswerFollows(c: Config, call: Call, used: nat, e: Event, answers: seq<Sent>)
    requires CallOk(c, call, used) && Enabled(call, e) && Follows(call, answers)
    ensures Follows(CallAfter(c, call, used, e), answers + if e.Send? then [e.r] else [])
  {
  }

  lemma PersistsOn(c: Config, call: Call, used: nat, e: Event, answers: seq<Sent>)
    requires CallOk(c, call, used) && Enabled(call, e) && Follows(call, answers)
    requires Persists(call, answers, Attempts(c, call)) && (call.hasBody ==> call.canRewind)
    requires e != Send(TransportError(true)) && e != Sleep(false)
    ensures Persists(CallAfter(c, call, used, e), answers + (if e.Send? then [e.r] else []), Attempts(c, call))
  {
  }

  // ---------- over whole runs ----------

  lemma SameKind(c: Config, call: Call, used: nat, e: Event)
    requires Enabled(call, e)
    ensures var r := CallAfter(c, call, used, e);
            && r.hasBody == call.hasBody && r.canRewind == call.canRewind && Attempts(c, r) == Attempts(c, call)
  {
  }

  lemma OkOf(c: Config, s: State, i: nat)
    requires Inv(c, s) && i < |s.calls|
    ensures CallOk(c, s.calls[i], s.used)
  {
    hide CallOk;
  }

  lemma {:induction false} RunFollows(
    c: Config, s: State, moves: seq<Move>, t: State, i: nat, answers: seq<Sent>)
    requires Inv(c, s) && Run(c, s, moves, t) && i < |s.calls| && Follows(s.calls[i], answers)
    ensures i < |t.calls| && Follows(t.calls[i], answers + Answers(moves, i))
    decreases |moves|
  {
    hide Inv, CallAfter, Follows;
    if moves == [] {
      assert answers + [] == answers;
    } else {
      var m, next := moves[0], After(c, s, moves[0]);
      var more := answers + if m.i == i && m.e.Send? then [m.e.r] else [];
      StepKeeps(c, s, m);
      OkOf(c, s, i);
      if m.i == i { AnswerFollows(c, s.calls[i], s.used, m.e, answers); } else { assert more == answers; }
      RunFollows(c, next, moves[1..], t, i, more);
      assert answers + Answers(moves, i) == more + Answers(moves[1..], i);
    }
  }

  ghost predicate Tracked(c: Config, call: Call, answers: seq<Sent>) {
    Follows(call, answers) && Persists(call, answers, Attempts(c, call)) && (call.hasBody ==> call.canRewind)
  }

  lemma StepTracked(c: Config, s: State, m: Move, i: nat, answers: seq<Sent>)
    requires Inv(c, s) && Can(s, m) && i < |s.calls| && Tracked(c, s.calls[i], answers)
    requires m.i == i ==> m.e != Send(TransportError(true)) && m.e != Sleep(false)
    ensures Tracked(c, After(c, s, m).calls[i], answers + if m.i == i && m.e.Send? then [m.e.r] else [])
  {
    hide CallAfter, Follows, Persists, Attempts, CallOk;
    OkOf(c, s, i);
    if m.i == i {
      AnswerFollows(c, s.calls[i], s.used, m.e, answers);
      PersistsOn(c, s.calls[i], s.used, m.e, answers);
      SameKind(c, s.calls[i], s.used, m.e);
    } else {
      assert answers + [] == answers;
    }
  }

  lemma {:induction false} RunTracked(
    c: Config, s: State, moves: seq<Move>, t: State, i: nat, answers: seq<Sent>)
    requires Inv(c, s) && Run(c, s, moves, t) && i < |s.calls| && Patient(moves, i)
    requires Tracked(c, s.calls[i], answers)
    ensures i < |t.calls| && Tracked(c, t.calls[i], answers + Answers(moves, i))
    decreases |moves|
  {
    hide Inv, CallAfter, Tracked;
    if moves == [] {
      assert answers + [] == answers;
    } else {
      var m := moves[0];
      var more := answers + if m.i == i && m.e.Send? then [m.e.r] else [];
      StepKeeps(c, s, m);
      assert m in moves;
      StepTracked(c, s, m, i, answers);
      RunTracked(c, After(c, s, m), moves[1..], t, i, more);
      assert answers + Answers(moves, i) == more + Answers(moves[1..], i);
    }
  }

  lemma NewCallTracked(c: Config, verb: string, hasBody: bool, canRewind: bool)
    ensures var call := NewCall(c, verb, hasBody, canRewind);
            && call.hasBody == hasBody && call.canRewind == canRewind
            && Follows(call, []) && ((hasBody ==> canRewind) ==> Tracked(c, call, []))
  {
  }

  lemma AttemptsAre(
    c: Config, s: State, moves: seq<Move>, t: State, i: nat, verb: string, hasBody: bool, canRewind: bool)
    requires Initial(c, s) && Run(c, s, moves, t)
    requires i < |s.calls| && s.calls[i] == NewCall(c, verb, hasBody, canRewind)
    ensures i < |t.calls| && Attempts(c, t.calls[i]) == Attempts(c, s.calls[i]) == Limit(c, verb)
    ensures t.calls[i].sent > 0 ==> t.calls[i].sent <= Limit(c, verb)
  {
    InitKeeps(c, s);
    RunKeeps(c, s, moves, t);
    CallKeepsKind(c, s, moves, t);
    OkOf(c, t, i);
  }

  // Whatever the others do: a call sends one request per answer, never again
  // after an answer that is not temporary, and returns the last response.
  lemma AnswersDecide(
    c: Config, s: State, moves: seq<Move>, t: State, i: nat, verb: string, hasBody: bool, canRewind: bool)
    requires Initial(c, s) && Run(c, s, moves, t)
    requires i < |s.calls| && s.calls[i] == NewCall(c, verb, hasBody, canRewind)
    ensures i < |t.calls| && t.calls[i].sent == |Answers(moves, i)|
    ensures forall k | 0 <= k < |Answers(moves, i)| - 1 :: Temporary(Answers(moves, i)[k])
    ensures |Answers(moves, i)| <= if Limit(c, verb) > 0 then Limit(c, verb) else 0
    ensures t.calls[i].pc.Done? && t.calls[i].pc.result.Response? ==>
              && Answers(moves, i) != []
              && Answers(moves, i)[|Answers(moves, i)| - 1] == Status(t.calls[i].pc.result.code)
  {
    hide Run, Initial, NewCall, Inv, Limit, Answers;
    InitKeeps(c, s);
    NewCallTracked(c, verb, hasBody, canRewind);
    RunFollows(c, s, moves, t, i, []);
    assert [] + Answers(moves, i) == Answers(moves, i);
    AttemptsAre(c, s, moves, t, i, verb, hasBody, canRewind);
  }

  // A failed attempt is tried again: while the caller waits and the body, if
  // any, can be sent again, a call ends in a failure or with a 429 or 503 only
  // when it has used every attempt its method is allowed.
  lemma RetriesAreUsed(
    c: Config, s: State, moves: seq<Move>, t: State, i: nat, verb: string, hasBody: bool, canRewind: bool)
    requires Initial(c, s) && Run(c, s, moves, t) && Patient(moves, i) && (hasBody ==> canRewind)
    requires i < |s.calls| && s.calls[i] == NewCall(c, verb, hasBody, canRewind)
    ensures i < |t.calls|
    ensures t.calls[i].pc == Done(Failed) ==>
              && t.calls[i].sent == Limit(c, verb) && Answers(moves, i) != []
              && Answers(moves, i)[|Answers(moves, i)| - 1] == TransportError(false)
    ensures t.calls[i].pc.Done? && t.calls[i].pc.result.Response? ==>
              && t.calls[i].pc.result.open
              && (t.calls[i].pc.result.code == 429 || t.calls[i].pc.result.code == 503 ==>
                    t.calls[i].sent == Limit(c, verb))
  {
    hide Run, Initial, NewCall, Inv, Limit, Answers, Patient;
    InitKeeps(c, s);
    NewCallTracked(c, verb, hasBody, canRewind);
    RunTracked(c, s, moves, t, i, []);
    assert [] + Answers(moves, i) == Answers(moves, i);
    AnswersDecide(c, s, moves, t, i, verb, hasBody, canRewind);
    AttemptsAre(c, s, moves, t, i, verb, hasBody, canRewind);
    hide Follows, Attempts;
    assert Persists(t.calls[i], Answers(moves, i), Limit(c, verb));
  }

  // ---------- the other endings ----------

  predicate EndsWith(call: Call, outcome: Outcome) { call.pc == Done(outcome) }

  lemma {:induction false} RefusalsComeFromLimiters(c: Config, s: State, moves: seq<Move>, t: State, i: nat)
    requires Run(c, s, moves, t) && i < |s.calls|
    ensures i < |t.calls|
    ensures EndsWith(t.calls[i], RateRefused) ==>
              EndsWith(s.calls[i], RateRefused) || Move(i, RateWait(false)) in moves
    ensures EndsWith(t.calls[i], HostRefused) ==>
              EndsWith(s.calls[i], HostRefused) || Move(i, HostWait(false)) in moves
    ensures EndsWith(t.calls[i], NothingSent) ==> EndsWith(s.calls[i], NothingSent)
    decreases |moves|
  {
    hide Run;
    if moves != [] {
      assert Can(s, moves[0]) && Run(c, After(c, s, moves[0]), moves[1..], t) by { RunFirst(c, s, moves, t); }
      RefusalsComeFromLimiters(c, After(c, s, moves[0]), moves[1..], t, i);
    } else {
      RunFirst(c, s, moves, t);
    }
  }

  lemma RunFirst(c: Config, s: State, moves: seq<Move>, t: State)
    requires Run(c, s, moves, t)
    ensures if moves == [] then s == t else Can(s, moves[0]) && Run(c, After(c, s, moves[0]), moves[1..], t)
  {
  }

  // A call that ends without an answer of its own has a reason outside itself:
  // a limiter turned it away, every slot is taken, or it may send nothing.
  lemma EndingsHaveReasons(
    c: Config, s: State, moves: seq<Move>, t: State, i: nat, verb: string, hasBody: bool, canRewind: bool)
    requires Initial(c, s) && Run(c, s, moves, t)
    requires i < |s.calls| && s.calls[i] == NewCall(c, verb, hasBody, canRewind)
    ensures i < |t.calls|
    ensures EndsWith(t.calls[i], RateRefused) ==> Move(i, RateWait(false)) in moves
    ensures EndsWith(t.calls[i], HostRefused) ==> Move(i, HostWait(false)) in moves
    ensures EndsWith(t.calls[i], Exhausted) ==> c.max > 0 && t.used == c.max
    ensures EndsWith(t.calls[i], NothingSent) <==> Limit(c, verb) <= 0
  {
    RefusalsComeFromLimiters(c, s, moves, t, i);
    BudgetHolds(c, s, moves, t);
    AttemptsAre(c, s, moves, t, i, verb, hasBody, canRewind);
    EndedStays(c, s, moves, t, i);
  }

  lemma {:induction false} EndedStays(c: Config, s: State, moves: seq<Move>, t: State, i: nat)
    requires Run(c, s, moves, t) && i < |s.calls|
    ensures i < |t.calls| && (s.calls[i].pc.Done? ==> t.calls[i] == s.calls[i])
    decreases |moves|
  {
    hide CallAfter;
    if moves != [] { EndedStays(c, After(c, s, moves[0]), moves[1..], t, i); }
  }

  // ---------- pacing ----------

  function Passed(call: Call): int { call.granted + if call.pc.AtLoop? || call.pc.AtSwap? then 1 else 0 }

  function Paced(call: Call): int { call.sent + if call.pc.AtSend? then 1 else 0 }

  lemma {:induction false} RunPaces(c: Config, s: State, moves: seq<Move>, t: State, i: nat)
    requires Run(c, s, moves, t) && i < |s.calls|
    ensures i < |t.calls|
    ensures Paced(t.calls[i]) - Paced(s.calls[i]) <= multiset(moves)[Move(i, HostWait(true))]
    ensures c.rated ==> Passed(t.calls[i]) - Passed(s.calls[i]) <= multiset(moves)[Move(i, RateWait(true))]
    decreases |moves|
  {
    hide Run;
    RunFirst(c, s, moves, t);
    if moves != [] {
      var next := After(c, s, moves[0]);
      RunPaces(c, next, moves[1..], t, i);
      hide After;
      assert moves == [moves[0]] + moves[1..];
      StepPaces(c, s, moves[0], i);
    }
  }

  lemma StepPaces(c: Config, s: State, m: Move, i: nat)
    requires Can(s, m) && i < |s.calls|
    ensures var r := After(c, s, m).calls[i];
            && Paced(r) <= Paced(s.calls[i]) + (if m == Move(i, HostWait(true)) then 1 else 0)
            && (c.rated ==> Passed(r) <= Passed(s.calls[i]) + if m == Move(i, RateWait(true)) then 1 else 0)
  {
  }

  // Every request on the wire, retries included, has waited its turn with the
  // host limiter, and with the global one if there is one.
  lemma EverySendWaited(c: Config, s: State, moves: seq<Move>, t: State, i: nat)
    requires Initial(c, s) && Run(c, s, moves, t) && i < |s.calls|
    ensures i < |t.calls| && t.calls[i].sent <= multiset(moves)[Move(i, HostWait(true))]
    ensures c.rated ==> t.calls[i].sent <= multiset(moves)[Move(i, RateWait(true))]
  {
    RunPaces(c, s, moves, t, i);
    InitKeeps(c, s);
    RunKeeps(c, s, moves, t);
    OkOf(c, t, i);
    var verb, hasBody, canRewind :| s.calls[i] == NewCall(c, verb, hasBody, canRewind);
  }
}
