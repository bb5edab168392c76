/** What the budget and the retry loop guarantee over every interleaving. */
module BudgetTheorems {
  import opened Sums
  import opened Budgets

  // ---------- results ----------

  lemma {:induction false} SumSplit(calls: seq<Call>)
    requires forall i | 0 <= i < |calls| :: calls[i].granted == calls[i].sent + Unused(calls[i])
    ensures Sum(calls, GrantedBy()) == Sum(calls, SentBy()) + Sum(calls, UnusedBy())
    ensures Sum(calls, SentBy()) >= 0 && Sum(calls, UnusedBy()) >= 0
  {
    if calls != [] {
      forall i | 0 <= i < |calls[1..]| ensures calls[1..][i].granted == calls[1..][i].sent + Unused(calls[1..][i]) {
        assert calls[1..][i] == calls[i + 1];
      }
      SumSplit(calls[1..]);
    }
  }

  // For every interleaving: the counter is the number of slots handed out and
  // never passes the cap, requests on the wire never outnumber slots, and a
  // call is told the budget is exhausted only when every slot is taken.
  lemma BudgetHolds(c: Config, s: State, moves: seq<Move>, t: State)
    requires Initial(c, s) && Run(c, s, moves, t)
    ensures t.used == Sum(t.calls, GrantedBy())
    ensures Sum(t.calls, SentBy()) + Sum(t.calls, UnusedBy()) == t.used && Sum(t.calls, UnusedBy()) >= 0
    ensures c.max > 0 ==> t.used <= c.max && Sum(t.calls, SentBy()) <= c.max
    ensures t.exhausted ==> c.max > 0 && t.used == c.max
    ensures forall i | 0 <= i < |t.calls| && t.calls[i].pc == Done(Exhausted) :: c.max > 0 && t.used == c.max
  {
    hide Run;
    InitKeeps(c, s);
    RunKeeps(c, s, moves, t);
    forall i | 0 <= i < |t.calls| ensures t.calls[i].granted == t.calls[i].sent + Unused(t.calls[i]) {
      assert CallOk(c, t.calls[i], t.used);
    }
    SumSplit(t.calls);
  }

  // Once it was reported exhausted it stays so: no later slot is handed out. A
  // call that already holds one may still send.
  lemma ExhaustionIsFinal(c: Config, s: State, first: seq<Move>, mid: State, later: seq<Move>, t: State)
    requires Initial(c, s) && Run(c, s, first, mid) && mid.exhausted && Run(c, mid, later, t)
    ensures t.used == mid.used == c.max
  {
    hide Run;
    InitKeeps(c, s);
    RunKeeps(c, s, first, mid);
    RunKeeps(c, mid, later, t);
  }

  // One call sends at most 1 + maxRetries requests, a method that may not be
  // retried at most one.
  lemma {:induction false} CallKeepsKind(c: Config, s: State, moves: seq<Move>, t: State)
    requires Run(c, s, moves, t)
    ensures |t.calls| == |s.calls|
    ensures forall i | 0 <= i < |s.calls| ::
              && t.calls[i].idempotent == s.calls[i].idempotent
              && t.calls[i].hasBody == s.calls[i].hasBody && t.calls[i].canRewind == s.calls[i].canRewind
    decreases |moves|
  {
    if moves != [] {
      hide CallAfter;
      var next := After(c, s, moves[0]);
      CallKeepsKind(c, next, moves[1..], t);
    }
  }

  lemma SendsPerCall(
    c: Config, s: State, moves: seq<Move>, t: State, i: nat, verb: string, hasBody: bool, canRewind: bool)
    requires Initial(c, s) && Run(c, s, moves, t)
    requires i < |s.calls| && s.calls[i] == NewCall(c, verb, hasBody, canRewind)
    ensures i < |t.calls| && (t.calls[i].sent == 0 || t.calls[i].sent <= if CanRetry(verb) then 1 + c.maxRetries else 1)
  {
    InitKeeps(c, s);
    RunKeeps(c, s, moves, t);
    CallKeepsKind(c, s, moves, t);
    assert CallOk(c, t.calls[i], t.used);
  }

  // What a finished call returns. A response with a status that asks for a
  // retry is the last allowed attempt's, or was given up on because its body
  // could not be sent again; then its own body has been closed.
  lemma ResponsesAreFinal(c: Config, s: State, moves: seq<Move>, t: State, i: nat)
    requires Initial(c, s) && Run(c, s, moves, t) && i < |t.calls| && t.calls[i].pc.Done?
    ensures match t.calls[i].pc.result
            case Response(code, open) =>
              && t.calls[i].sent >= 1
              && (open ==> !ShouldRetryStatus(code) || t.calls[i].sent == Attempts(c, t.calls[i]))
              && (!open ==> ShouldRetryStatus(code) && t.calls[i].hasBody && !t.calls[i].canRewind
                            && t.calls[i].sent < Attempts(c, t.calls[i]))
            case Failed => t.calls[i].sent >= 1
            case NothingSent => t.calls[i].sent == 0 && Attempts(c, t.calls[i]) <= 0
            case _ => true
  {
    InitKeeps(c, s);
    RunKeeps(c, s, moves, t);
    assert CallOk(c, t.calls[i], t.used);
  }

  // ---------- the closed response ----------

  // The caller gets a response whose body has been drained and closed.
  predicate ReturnsClosed(call: Call) {
    call.pc.Done? && call.pc.result.Response? && !call.pc.result.open
  }

  lemma {:induction false} RunThen(c: Config, s: State, first: seq<Move>, mid: State, m: Move)
    requires Run(c, s, first, mid) && Can(mid, m)
    ensures Run(c, s, first + [m], After(c, mid, m))
    decreases |first|
  {
    hide Can, After;
    if first == [] {
      assert [] + [m] == [m] && [m][1..] == [];
      assert Run(c, After(c, s, m), [], After(c, s, m));
    } else {
      RunThen(c, After(c, s, first[0]), first[1..], mid, m);
      assert (first + [m])[1..] == first[1..] + [m];
    }
  }

  // One more step of a run.
  lemma Then(c: Config, s: State, first: seq<Move>, mid: State, m: Move) returns (moves: seq<Move>, t: State)
    requires Run(c, s, first, mid) && Can(mid, m)
    ensures Run(c, s, moves, t) && t == After(c, mid, m)
  {
    RunThen(c, s, first, mid, m);
    moves, t := first + [m], After(c, mid, m);
  }

  lemma ReachesLoop(c: Config, s: State, i: nat) returns (moves: seq<Move>, t: State)
    requires i < |s.calls| && s.calls[i].pc.AtCheck? && (c.max > 0 ==> s.used < c.max)
    ensures Run(c, s, moves, t) && t == s.(calls := s.calls[i := s.calls[i].(pc := AtLoop)])
  {
    moves, t := [], s;
    assert Run(c, s, moves, t);
    hide Run;
    moves, t := Then(c, s, moves, t, Move(i, Look));
    if c.rated { moves, t := Then(c, s, moves, t, Move(i, RateWait(true))); }
  }

  // With a slot free, a call that is first in line gets it.
  lemma TakesSlot(c: Config, s: State, i: nat) returns (moves: seq<Move>, t: State)
    requires i < |s.calls| && s.calls[i].pc.AtCheck? && (c.max > 0 ==> s.used < c.max)
    ensures Run(c, s, moves, t) && |t.calls| == |s.calls| && t.calls[i] == Granted(s.calls[i])
  {
    moves, t := ReachesLoop(c, s, i);
    hide Run;
    moves, t := Then(c, s, moves, t, Move(i, Load));
    if c.max > 0 { moves, t := Then(c, s, moves, t, Move(i, Swap)); }
  }

  // The target asks to slow down, and the body cannot be sent again.
  lemma GivesUpOnBody(c: Config, s: State, first: seq<Move>, mid: State, i: nat) returns (moves: seq<Move>, t: State)
    requires Run(c, s, first, mid) && i < |mid.calls| && mid.calls[i].pc.AtHost?
    requires mid.calls[i].attempt < Attempts(c, mid.calls[i]) - 1 && mid.calls[i].hasBody && !mid.calls[i].canRewind
    ensures Run(c, s, moves, t) && |t.calls| == |mid.calls| && ReturnsClosed(t.calls[i])
  {
    hide Run;
    moves, t := Then(c, s, first, mid, Move(i, HostWait(true)));
    moves, t := Then(c, s, moves, t, Move(i, Send(Status(429))));
    moves, t := Then(c, s, moves, t, Move(i, Sleep(true)));
    moves, t := Then(c, s, moves, t, Move(i, Rewind));
  }

  // Some run hands a call a closed response exactly when the call may be
  // retried, retries are configured, and it has a body that cannot be rewound.
  lemma ClosedResponseCondition(c: Config, s: State, i: nat)
    requires Initial(c, s) && i < |s.calls|
    ensures (exists moves, t :: Run(c, s, moves, t) && i < |t.calls| && ReturnsClosed(t.calls[i]))
       <==> s.calls[i].idempotent && s.calls[i].hasBody && !s.calls[i].canRewind && c.maxRetries > 0
  {
    if moves, t :| Run(c, s, moves, t) && i < |t.calls| && ReturnsClosed(t.calls[i]) {
      CallKeepsKind(c, s, moves, t);
      ResponsesAreFinal(c, s, moves, t, i);
    }
    if s.calls[i].idempotent && s.calls[i].hasBody && !s.calls[i].canRewind && c.maxRetries > 0 {
      var verb, hasBody, canRewind :| s.calls[i] == NewCall(c, verb, hasBody, canRewind);
      var moves, t := TakesSlot(c, s, i);
      moves, t := GivesUpOnBody(c, s, moves, t, i);
    }
  }

  // ---------- every call ends ----------

  // A swap that will fail because the counter moved on.
  predicate Stale(call: Call, used: nat) { call.pc.AtSwap? && call.pc.cur != used }

  // Steps left in the attempt, for n concurrent calls. A slot handed out makes
  // other calls' swaps stale; its own call drops by more than that costs.
  function PcRank(call: Call, used: nat, n: nat): nat {
    match call.pc
    case AtCheck => 2 * n + 10
    case AtRate => 2 * n + 9
    case AtLoop => 2 * n + 8
    case AtSwap(_) => if Stale(call, used) then 2 * n + 9 else 2 * n + 7
    case AtHost => 4
    case AtSend => 3
    case Pausing(_) => 2
    case Rewinding(_) => 1
    case Marking => 1
    case Done(_) => 0
  }

  // More than any attempt's steps, for each attempt left.
  function Blocks(k: int, n: nat): nat { if k <= 0 then 0 else 2 * n + 11 + Blocks(k - 1, n) }

  function CallRank(c: Config, call: Call, used: nat, n: nat): int {
    if call.pc.Done? then 0 else Blocks(Attempts(c, call) - call.attempt, n) + PcRank(call, used, n)
  }

  function RankBy(c: Config, used: nat, n: nat): Call -> int { (call: Call) => CallRank(c, call, used, n) }

  ghost function Rank(c: Config, s: State): int { Sum(s.calls, RankBy(c, s.used, |s.calls|)) }

  lemma CallRankDrops(c: Config, call: Call, used: nat, e: Event, n: nat)
    requires CallOk(c, call, used) && Enabled(call, e)
    ensures var r := CallAfter(c, call, used, e);
            && (r.granted == call.granted ==> CallRank(c, r, used, n) < CallRank(c, call, used, n))
            && (r.granted > call.granted ==> CallRank(c, r, used, n) + 2 * n < CallRank(c, call, used, n))
  {
    var k := Attempts(c, call) - call.attempt;
    var r := CallAfter(c, call, used, e);
    assert Attempts(c, r) == Attempts(c, call);
    assert Blocks(k, n) == 2 * n + 11 + Blocks(k - 1, n);
    if !r.pc.Done? {
      assert CallRank(c, r, used, n) == Blocks(if r.attempt == call.attempt then k else k - 1, n) + PcRank(r, used, n);
    }
  }

  // A slot handed out costs every other call at most two steps.
  lemma {:induction false} StaleCost(c: Config, calls: seq<Call>, used: nat, n: nat)
    ensures Sum(calls, RankBy(c, used + 1, n)) <= Sum(calls, RankBy(c, used, n)) + 2 * |calls|
  {
    if calls != [] {
      StaleCost(c, calls[1..], used, n);
      var f, g := RankBy(c, used, n), RankBy(c, used + 1, n);
      assert g(calls[0]) <= f(calls[0]) + 2;
    }
  }

  lemma StepDropsRank(c: Config, s: State, m: Move)
    requires Inv(c, s) && Can(s, m)
    ensures Rank(c, After(c, s, m)) < Rank(c, s)
  {
    hide CallAfter, CallRank, CallOk;
    var n := |s.calls|;
    var t := After(c, s, m);
    CallRankDrops(c, s.calls[m.i], s.used, m.e, n);
    CallKeeps(c, s.calls[m.i], s.used, m.e);
    SumUpdate(s.calls, m.i, t.calls[m.i], RankBy(c, s.used, n));
    StaleCost(c, t.calls, s.used, n);
  }

  lemma {:induction false} RankNonNegative(c: Config, s: State)
    requires Inv(c, s)
    ensures Rank(c, s) >= 0
  {
    forall i | 0 <= i < |s.calls| ensures 0 <= RankBy(c, s.used, |s.calls|)(s.calls[i]) {
      assert CallOk(c, s.calls[i], s.used);
    }
    SumDominates(s.calls, RankBy(c, s.used, |s.calls|));
  }

  // No interleaving makes the swap loop or the retry loop run for ever: a run
  // has no more steps than the rank it starts with.
  lemma {:induction false} RunsAreBounded(c: Config, s: State, moves: seq<Move>, t: State)
    requires Inv(c, s) && Run(c, s, moves, t)
    ensures |moves| <= Rank(c, s)
    decreases |moves|
  {
    hide Inv, After, Rank;
    if moves == [] {
      RankNonNegative(c, s);
    } else {
      StepKeeps(c, s, moves[0]);
      StepDropsRank(c, s, moves[0]);
      RunsAreBounded(c, After(c, s, moves[0]), moves[1..], t);
    }
  }

  // A call that has not finished can always move.
  lemma UnfinishedCanMove(s: State, i: nat)
    requires i < |s.calls| && !s.calls[i].pc.Done?
    ensures exists e :: Can(s, Move(i, e))
  {
    var e := match s.calls[i].pc
      case AtCheck => Look
      case AtRate => RateWait(true)
      case AtLoop => Load
      case AtSwap(_) => Swap
      case Marking => Mark
      case AtHost => HostWait(true)
      case AtSend => Send(TransportError(true))
      case Pausing(_) => Sleep(true)
      case _ => Rewind;
    assert Can(s, Move(i, e));
  }

  // Since call i loaded u with g slots behind it: no slot since, or a newer load.
  ghost predicate NotGrantedSince(s: State, i: nat, u: nat, g: nat) {
    && i < |s.calls| && u <= s.used && g <= s.calls[i].granted
    && (s.calls[i].granted == g || (s.used > u && (s.calls[i].pc.AtSwap? ==> s.calls[i].pc.cur > u)))
  }

  lemma {:induction false} NotGrantedKept(c: Config, s: State, moves: seq<Move>, t: State, i: nat, u: nat, g: nat)
    requires Inv(c, s) && Run(c, s, moves, t) && NotGrantedSince(s, i, u, g)
    ensures NotGrantedSince(t, i, u, g)
    decreases |moves|
  {
    hide Inv;
    if moves != [] {
      var next := After(c, s, moves[0]);
      StepKeeps(c, s, moves[0]);
      NotGrantedStep(c, s, moves[0], i, u, g);
      NotGrantedKept(c, next, moves[1..], t, i, u, g);
    }
  }

  lemma NotGrantedStep(c: Config, s: State, m: Move, i: nat, u: nat, g: nat)
    requires Inv(c, s) && Can(s, m) && NotGrantedSince(s, i, u, g)
    ensures NotGrantedSince(After(c, s, m), i, u, g)
  {
    StepKeeps(c, s, m);
    CallKeeps(c, s.calls[m.i], s.used, m.e);
  }

  // A larger sum has a larger term.
  lemma {:induction false} SomeoneGotMore(a: seq<Call>, b: seq<Call>) returns (j: nat)
    requires |a| == |b| && Sum(b, GrantedBy()) > Sum(a, GrantedBy())
    ensures j < |a| && b[j].granted > a[j].granted
  {
    if b[0].granted > a[0].granted {
      j := 0;
    } else {
      var k := SomeoneGotMore(a[1..], b[1..]);
      j := k + 1;
    }
  }

  // A failed swap means another call was granted a slot in between.
  lemma FailedSwapMeansProgress(
    c: Config, s: State, first: seq<Move>, mid: State, i: nat, later: seq<Move>, t: State)
    returns (j: nat)
    requires Initial(c, s) && Run(c, s, first, mid)
    requires Can(mid, Move(i, Load)) && Run(c, After(c, mid, Move(i, Load)), later, t)
    requires i < |t.calls| && t.calls[i].pc == AtSwap(mid.used) && Stale(t.calls[i], t.used)
    ensures t.used > mid.used && t.calls[i].granted == mid.calls[i].granted
    ensures j < |mid.calls| == |t.calls| && j != i && t.calls[j].granted > mid.calls[j].granted
  {
    InitKeeps(c, s);
    RunKeeps(c, s, first, mid);
    StepKeeps(c, mid, Move(i, Load));
    var loaded := After(c, mid, Move(i, Load));
    RunKeeps(c, loaded, later, t);
    CallKeepsKind(c, loaded, later, t);
    NotGrantedKept(c, loaded, later, t, i, mid.used, mid.calls[i].granted);
    j := SomeoneGotMore(mid.calls, t.calls);
  }

  // When all calls are over, slots and requests differ by the calls the host
  // limiter turned away.
  lemma FinishedAccounts(c: Config, s: State, moves: seq<Move>, t: State)
    requires Initial(c, s) && Run(c, s, moves, t) && forall i | 0 <= i < |t.calls| :: t.calls[i].pc.Done?
    ensures t.used == Sum(t.calls, SentBy()) + Sum(t.calls, TurnedAwayBy())
  {
    BudgetHolds(c, s, moves, t);
    SumSame(t.calls);
  }

  function TurnedAwayBy(): Call -> int { (call: Call) => if call.pc == Done(HostRefused) then 1 else 0 }

  lemma {:induction false} SumSame(calls: seq<Call>)
    requires forall i | 0 <= i < |calls| :: calls[i].pc.Done?
    ensures Sum(calls, UnusedBy()) == Sum(calls, TurnedAwayBy())
  {
    if calls != [] {
      forall i | 0 <= i < |calls[1..]| ensures calls[1..][i].pc.Done? { assert calls[1..][i] == calls[i + 1]; }
      SumSame(calls[1..]);
    }
  }
}
