/** The request budget under concurrent callers, composed with the retry loop
    (internal/httpclient/budget.go Wait, internal/httpclient/client.go doWith).
    Every atomic operation of the source is one step. What the rate limiters,
    the network, the sleep and the body's rewinding answer is part of the step. */
module Budgets {
  import opened Sums

  /** max == 0: no count cap. rated: a global rate limiter is set. */
  datatype Config = Config(max: nat, rated: bool, maxRetries: int)

  /** cancelled: the context was done when the error came back. */
  datatype Sent = TransportError(cancelled: bool) | Status(code: int)

  /** open: the body of the response can still be read. */
  datatype Outcome = Response(code: int, open: bool) | Failed | Exhausted | RateRefused | HostRefused | NothingSent

  /** Where a call of doWith is. */
  datatype Pc =
    | AtCheck                // Wait's first look at the counter
    | AtRate                 // waiting for the global limiter
    | AtLoop                 // about to load the counter
    | AtSwap(cur: nat)       // about to compare and swap
    | Marking                // saw the cap reached
    | AtHost                 // granted, waiting for the host limiter
    | AtSend
    | Pausing(last: Sent)    // sleeping before another attempt
    | Rewinding(last: Sent)
    | Done(result: Outcome)

  /** canRewind: the request has a GetBody and it succeeds. attempt is the loop
      counter; sent and granted record history. */
  datatype Call = Call(
    pc: Pc, idempotent: bool, hasBody: bool, canRewind: bool, attempt: nat, sent: nat, granted: nat)

  datatype State = State(used: nat, exhausted: bool, calls: seq<Call>)

  predicate CanRetry(verb: string) { verb == "" || verb == "GET" || verb == "HEAD" || verb == "OPTIONS" }

  predicate ShouldRetryStatus(code: int) { code == 429 || code == 503 }

  function Attempts(c: Config, call: Call): int { if call.idempotent then 1 + c.maxRetries else 1 }

  function NewCall(c: Config, verb: string, hasBody: bool, canRewind: bool): Call {
    var call := Call(AtCheck, CanRetry(verb), hasBody, canRewind, 0, 0, 0);
    if Attempts(c, call) > 0 then call else call.(pc := Done(NothingSent))
  }

  datatype Event =
    | Look | RateWait(ok: bool) | Load | Swap | Mark | HostWait(ok: bool)
    | Send(r: Sent) | Sleep(ok: bool) | Rewind

  predicate Enabled(call: Call, e: Event) {
    match e
    case Look => call.pc.AtCheck?
    case RateWait(_) => call.pc.AtRate?
    case Load => call.pc.AtLoop?
    case Swap => call.pc.AtSwap?
    case Mark => call.pc.Marking?
    case HostWait(_) => call.pc.AtHost?
    case Send(_) => call.pc.AtSend?
    case Sleep(_) => call.pc.Pausing?
    case Rewind => call.pc.Rewinding?
  }

  function Granted(call: Call): Call { call.(pc := AtHost, granted := call.granted + 1) }

  function NextAttempt(call: Call): Call { call.(pc := AtCheck, attempt := call.attempt + 1) }

  function AfterSend(c: Config, call: Call, r: Sent): Call {
    var sent := call.(sent := call.sent + 1);
    var last := call.attempt == Attempts(c, call) - 1;
    match r
    case TransportError(cancelled) => sent.(pc := if cancelled || last then Done(Failed) else Pausing(r))
    case Status(code) =>
      sent.(pc := if !ShouldRetryStatus(code) || last then Done(Response(code, true)) else Pausing(r))
  }

  // What one step does to the call.
  function CallAfter(c: Config, call: Call, used: nat, e: Event): Call
    requires Enabled(call, e)
  {
    match e
    case Look =>
      call.(pc := if c.max > 0 && used >= c.max then Marking else if c.rated then AtRate else AtLoop)
    case RateWait(ok) => call.(pc := if ok then AtLoop else Done(RateRefused))
    case Load =>
      if c.max == 0 then Granted(call)
      else call.(pc := if used >= c.max then Marking else AtSwap(used))
    case Swap => if call.pc.cur == used then Granted(call) else call.(pc := AtLoop)
    case Mark => call.(pc := Done(Exhausted))
    case HostWait(ok) => call.(pc := if ok then AtSend else Done(HostRefused))
    case Send(r) => AfterSend(c, call, r)
    case Sleep(ok) =>
      if !ok then call.(pc := Done(Failed))
      else if call.hasBody then call.(pc := Rewinding(call.pc.last))
      else NextAttempt(call)
    case Rewind =>
      if call.canRewind then NextAttempt(call)
      else
        call.(pc := Done(
          match call.pc.last case TransportError(_) => Failed case Status(code) => Response(code, false)))
  }

  datatype Move = Move(i: nat, e: Event)

  predicate Can(s: State, m: Move) { m.i < |s.calls| && Enabled(s.calls[m.i], m.e) }

  // With no cap the counter is added to without a look; with one, only a swap
  // that finds the loaded value changes it.
  function After(c: Config, s: State, m: Move): State
    requires Can(s, m)
  {
    var call := CallAfter(c, s.calls[m.i], s.used, m.e);
    State(s.used + call.granted - s.calls[m.i].granted, s.exhausted || m.e.Mark?, s.calls[m.i := call])
  }

  ghost predicate Initial(c: Config, s: State) {
    s.used == 0 && !s.exhausted && forall i | 0 <= i < |s.calls| ::
      exists verb, hasBody, canRewind :: s.calls[i] == NewCall(c, verb, hasBody, canRewind)
  }

  ghost predicate Run(c: Config, s: State, moves: seq<Move>, t: State)
    decreases |moves|
  {
    if moves == [] then s == t else Can(s, moves[0]) && Run(c, After(c, s, moves[0]), moves[1..], t)
  }

  // ---------- what every step keeps ----------

  // The slot taken but not yet used for a send.
  function Unused(call: Call): nat {
    if call.pc.AtHost? || call.pc.AtSend? || call.pc == Done(HostRefused) then 1 else 0
  }

  // One call, against the shared counter.
  predicate CallInv(c: Config, call: Call) {
    && call.granted == call.sent + Unused(call)
    && (!call.pc.Done? ==> call.attempt < Attempts(c, call))
    && (call.sent <= Attempts(c, call) || call.sent == 0)
  }

  // sent against the loop counter.
  predicate Paced(c: Config, call: Call) {
    match call.pc
    case Done(Response(code, open)) =>
      call.sent == call.attempt + 1
      && (open ==> !ShouldRetryStatus(code) || call.sent == Attempts(c, call))
      && (!open ==> ShouldRetryStatus(code) && call.hasBody && !call.canRewind && call.sent < Attempts(c, call))
    case Done(Failed) => call.sent == call.attempt + 1
    case Done(NothingSent) => call.sent == 0 && Attempts(c, call) <= 0
    case Done(_) => call.sent == call.attempt
    case Pausing(last) => call.sent == call.attempt + 1 && call.sent < Attempts(c, call)
                          && (last.Status? ==> ShouldRetryStatus(last.code))
    case Rewinding(last) => call.sent == call.attempt + 1 && call.sent < Attempts(c, call) && call.hasBody
                            && (last.Status? ==> ShouldRetryStatus(last.code))
    case _ => call.sent == call.attempt
  }

  // What the call has seen of the counter.
  predicate SeesCounter(c: Config, call: Call, used: nat) {
    && (call.pc.AtSwap? ==> call.pc.cur <= used && call.pc.cur < c.max)
    && (call.pc.Marking? || call.pc == Done(Exhausted) ==> c.max > 0 && used >= c.max)
  }

  ghost predicate CallOk(c: Config, call: Call, used: nat) {
    CallInv(c, call) && Paced(c, call) && SeesCounter(c, call, used)
  }

  lemma CallKeeps(c: Config, call: Call, used: nat, e: Event)
    requires CallOk(c, call, used) && Enabled(call, e) && (c.max > 0 ==> used <= c.max)
    ensures var r := CallAfter(c, call, used, e);
            && call.granted <= r.granted <= call.granted + 1
            && CallOk(c, r, used + r.granted - call.granted)
            && (c.max > 0 && r.granted > call.granted ==> used < c.max)
  {
  }

  lemma CallFrame(c: Config, call: Call, used: nat, more: nat)
    requires CallOk(c, call, used) && used <= more
    ensures CallOk(c, call, more)
  {
  }

  function GrantedBy(): Call -> int { (call: Call) => call.granted }

  function SentBy(): Call -> int { (call: Call) => call.sent }

  function UnusedBy(): Call -> int { (call: Call) => Unused(call) }

  ghost predicate Inv(c: Config, s: State) {
    && s.used == Sum(s.calls, GrantedBy())
    && (c.max > 0 ==> s.used <= c.max)
    && (s.exhausted ==> c.max > 0 && s.used >= c.max)
    && forall i | 0 <= i < |s.calls| :: CallOk(c, s.calls[i], s.used)
  }

  lemma InitKeeps(c: Config, s: State)
    requires Initial(c, s)
    ensures Inv(c, s)
  {
    forall i | 0 <= i < |s.calls| ensures s.calls[i].granted == 0 && CallOk(c, s.calls[i], 0) {
      var verb, hasBody, canRewind :| s.calls[i] == NewCall(c, verb, hasBody, canRewind);
    }
    SumOfZeros(s.calls, GrantedBy());
  }

  lemma StepKeeps(c: Config, s: State, m: Move)
    requires Inv(c, s) && Can(s, m)
    ensures Inv(c, After(c, s, m)) && s.used <= After(c, s, m).used
  {
    hide CallOk, CallAfter;
    var t := After(c, s, m);
    CallKeeps(c, s.calls[m.i], s.used, m.e);
    SumUpdate(s.calls, m.i, t.calls[m.i], GrantedBy());
    forall i | 0 <= i < |t.calls| ensures CallOk(c, t.calls[i], t.used) {
      if i != m.i { CallFrame(c, s.calls[i], s.used, t.used); }
    }
    if m.e.Mark? { MarkSees(c, s.calls[m.i], s.used); }
  }

  lemma MarkSees(c: Config, call: Call, used: nat)
    requires CallOk(c, call, used) && call.pc.Marking?
    ensures c.max > 0 && used >= c.max
  {
  }

  lemma {:induction false} RunKeeps(c: Config, s: State, moves: seq<Move>, t: State)
    requires Inv(c, s) && Run(c, s, moves, t)
    ensures Inv(c, t) && s.used <= t.used
    decreases |moves|
  {
    hide Inv, After;
    if moves != [] {
      StepKeeps(c, s, moves[0]);
      RunKeeps(c, After(c, s, moves[0]), moves[1..], t);
    }
  }
}
