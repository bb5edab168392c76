/** The tiered dispatch queue (internal/scanner/worklist.go).

    `Queue` is the value the fields of the queue hold; the relations below say
    what each operation does to it. `Worklist` is the mutable queue itself, each
    method one mutex-protected section, proved against those relations. */
module Worklists {
  import opened Decimal
  import opened MapTotals
  import opened Options

  /** A target as the queue sees it: the results of CanonicalKey() and Host(),
      and the URL that scope looks at. */
  datatype Target = Target(key: string, host: string, url: string)

  /** `scope` is None for a nil scope; otherwise it tells whether a URL parses,
      has a host and is allowed. `budget` <= 0 means no per-host cap. */
  datatype Config = Config(scope: Option<string -> bool>, budget: int)

  datatype Queue = Queue(
    items: map<int, seq<Target>>,
    seen: set<string>,
    pending: map<int, int>,
    hostCount: map<string, int>,
    sourceDone: bool,
    closed: bool)

  const FINGERPRINT := 1
  const PASSIVE := 2
  const DISCOVERY := 3
  const ACTIVE := 4
  const DEFERRED := 5

  const TIER_BANDS: seq<int> := [FINGERPRINT, PASSIVE, DISCOVERY, ACTIVE, DEFERRED]

  predicate InBands(tier: int) { FINGERPRINT <= tier <= DEFERRED }

  /** Whom a mutex-protected section wakes through the condition variable. */
  datatype Wake = NoWake | Signal | Broadcast

  // ---------- reading the maps, with Go's zero value for a missing key ----------

  function Get<K, V>(m: map<K, V>, k: K, zero: V): V {
    if k in m then m[k] else zero
  }

  function Items(q: Queue, tier: int): seq<Target> { Get(q.items, tier, []) }

  function Pending(q: Queue, tier: int): int { Get(q.pending, tier, 0) }

  function HostCount(q: Queue, host: string): int { Get(q.hostCount, host, 0) }

  const EMPTY: Queue := Queue(map[], {}, map[], map[], false, false)

  // ---------- the (key, tier) encoding ----------

  function TierLabel(tier: int): (s: string)
    ensures ':' !in s
  {
    if tier == FINGERPRINT then "fingerprint"
    else if tier == PASSIVE then "passive"
    else if tier == DISCOVERY then "discovery"
    else if tier == ACTIVE then "active"
    else if tier == DEFERRED then "deferred"
    else "tier(" + Int(tier) + ")"
  }

  function SeenKey(key: string, tier: int): string { key + ":" + TierLabel(tier) }

  lemma TierLabelInjective(t1: int, t2: int)
    requires TierLabel(t1) == TierLabel(t2)
    ensures t1 == t2
  {
    forall t: int | !InBands(t) ensures TierLabel(t)[4] == '(' && Int(t) == TierLabel(t)[5..|TierLabel(t)| - 1] {
      assert TierLabel(t) == "tier(" + Int(t) + ")";
    }
    if InBands(t1) {
      assert |TierLabel(t1)| > 4 && TierLabel(t1)[4] != '(';
    } else {
      assert !InBands(t2);
      IntInjective(t1, t2);
    }
  }

  lemma LastColon(key: string, tier: int)
    ensures SeenKey(key, tier)[|key|] == ':'
    ensures forall i | |key| < i < |SeenKey(key, tier)| :: SeenKey(key, tier)[i] != ':'
  {
    forall i | |key| < i < |SeenKey(key, tier)| ensures SeenKey(key, tier)[i] != ':' {
      assert SeenKey(key, tier)[i] == TierLabel(tier)[i - |key| - 1];
    }
  }

  // Two different (key, tier) pairs never share a dedupe entry, whatever
  // colons the keys contain.
  lemma SeenKeyInjective(k1: string, t1: int, k2: string, t2: int)
    requires SeenKey(k1, t1) == SeenKey(k2, t2)
    ensures k1 == k2 && t1 == t2
  {
    LastColon(k1, t1);
    LastColon(k2, t2);
    var s := SeenKey(k1, t1);
    assert k1 == s[..|k1|] == k2;
    assert TierLabel(t1) == s[|k1| + 1..] == TierLabel(t2);
    TierLabelInjective(t1, t2);
  }

  // ---------- Push ----------

  predicate ScopeAllows(c: Config, t: Target) {
    c.scope.None? || (t.url != "" && c.scope.value(t.url))
  }

  // Some band already holds the key.
  predicate SeenAnyTier(q: Queue, key: string) {
    exists tier | FINGERPRINT <= tier <= DEFERRED :: SeenKey(key, tier) in q.seen
  }

  predicate Admits(c: Config, q: Queue, cancelled: bool, t: Target, tier: int) {
    && !cancelled
    && ScopeAllows(c, t)
    && t.key != ""
    && !q.closed
    && SeenKey(t.key, tier) !in q.seen
    && !(!SeenAnyTier(q, t.key) && c.budget > 0 && t.host != "" && HostCount(q, t.host) >= c.budget)
  }

  function Accept(q: Queue, t: Target, tier: int): Queue {
    Enqueued(q, t, tier, !SeenAnyTier(q, t.key))
  }

  function Enqueued(q: Queue, t: Target, tier: int, firstTimeForKey: bool): Queue {
    q.(seen := q.seen + {SeenKey(t.key, tier)},
       hostCount := if firstTimeForKey && t.host != ""
                    then q.hostCount[t.host := HostCount(q, t.host) + 1] else q.hostCount,
       items := q.items[tier := Items(q, tier) + [t]],
       pending := q.pending[tier := Pending(q, tier) + 1])
  }

  // ---------- Pop ----------

  /** One pass of Pop's loop body under the mutex. */
  datatype Attempt = Took(t: Target, tier: int) | Exit | Blocked

  /** The barrier: the tier has an item and nothing is outstanding, queued or in
      flight, at any lower tier. */
  predicate Eligible(q: Queue, tier: int) {
    InBands(tier) && Items(q, tier) != [] && forall lower | FINGERPRINT <= lower < tier :: Pending(q, lower) == 0
  }

  ghost predicate Drained(q: Queue) {
    q.sourceDone && forall tier: int :: Pending(q, tier) == 0
  }

  function Take(q: Queue, tier: int): Queue
    requires Items(q, tier) != []
  {
    q.(items := q.items[tier := Items(q, tier)[1..]])
  }

  ghost predicate PopMeets(q: Queue, cancelled: bool, a: Attempt, q': Queue) {
    var stopped := q.closed || cancelled;
    match a
    case Took(t, tier) => !stopped && Eligible(q, tier) && t == Items(q, tier)[0] && q' == Take(q, tier)
    case Exit => q' == q && (stopped || ((forall tier :: !Eligible(q, tier)) && Drained(q)))
    case Blocked => q' == q && !stopped && (forall tier :: !Eligible(q, tier)) && !Drained(q)
  }

  // ---------- Done, SourceDone ----------

  function Release(q: Queue, tier: int): Queue {
    q.(pending := q.pending[tier := Pending(q, tier) - 1])
  }

  // Outstanding work at a tier is what is queued plus what is in flight.
  ghost predicate Balanced(q: Queue) {
    forall tier: int :: |Items(q, tier)| <= Pending(q, tier)
  }

  // What Pop may hand out is determined: at most one tier is eligible.
  lemma EligibleTierIsUnique(q: Queue, t1: int, t2: int)
    requires Balanced(q) && Eligible(q, t1) && Eligible(q, t2)
    ensures t1 == t2
  {
    assert |Items(q, t1)| <= Pending(q, t1) && |Items(q, t2)| <= Pending(q, t2);
  }

  class Worklist {
    const scope: Option<string -> bool>
    var budgetPerHost: int
    var items: map<int, seq<Target>>
    var seen: set<string>
    var pendingByTier: map<int, int>
    var hostCount: map<string, int>
    var sourceDone: bool
    var closed: bool

    ghost function State(): Queue
      reads this
    {
      Queue(items, seen, pendingByTier, hostCount, sourceDone, closed)
    }

    ghost function Configuration(): Config
      reads this
    {
      Config(scope, budgetPerHost)
    }

    ghost predicate Valid()
      reads this
    {
      Balanced(State())
    }

    constructor (scope: Option<string -> bool>)
      ensures Valid() && State() == EMPTY && Configuration() == Config(scope, 0)
    {
      this.scope := scope;
      budgetPerHost := 0;
      items, seen, pendingByTier, hostCount := map[], {}, map[], map[];
      sourceDone, closed := false, false;
    }

    method WithHostBudget(n: int)
      modifies this`budgetPerHost
      ensures budgetPerHost == if n > 0 then n else old(budgetPerHost)
    {
      if n > 0 { budgetPerHost := n; }
    }

    method AnyTierSeen(key: string) returns (found: bool)
      ensures found == SeenAnyTier(State(), key)
    {
      for i := 0 to |TIER_BANDS|
        invariant forall tier | FINGERPRINT <= tier <= i :: SeenKey(key, tier) !in seen
      {
        if SeenKey(key, TIER_BANDS[i]) in seen { return true; }
      }
      return false;
    }

    method Push(cancelled: bool, t: Target, tier: int) returns (ok: bool, wake: Wake)
      requires Valid()
      modifies this
      ensures Valid() && budgetPerHost == old(budgetPerHost)
      ensures ok == Admits(old(Configuration()), old(State()), cancelled, t, tier)
      ensures ok <==>
        && !cancelled && (scope.None? || (t.url != "" && scope.value(t.url))) && t.key != "" && !old(closed)
        && SeenKey(t.key, tier) !in old(seen)
        && (budgetPerHost <= 0 || t.host == "" || Get(old(hostCount), t.host, 0) < budgetPerHost
            || exists band | InBands(band) :: SeenKey(t.key, band) in old(seen))
      ensures State() == if ok then Accept(old(State()), t, tier) else old(State())
      ensures wake == if ok then Signal else NoWake
    {
      if cancelled { return false, NoWake; }
      if scope.Some? && !(t.url != "" && scope.value(t.url)) { return false, NoWake; }
      if t.key == "" { return false, NoWake; }
      var seenKey := SeenKey(t.key, tier);
      if closed || seenKey in seen { return false, NoWake; }
      var already := AnyTierSeen(t.key);
      var firstTimeForKey := !already;
      if firstTimeForKey && budgetPerHost > 0 && t.host != "" {
        var used := Get(hostCount, t.host, 0);
        if used >= budgetPerHost { return false, NoWake; }
      }
      Enqueue(t, tier, firstTimeForKey);
      return true, Signal;
    }

    // The accepting tail of Push.
    method Enqueue(t: Target, tier: int, firstTimeForKey: bool)
      requires Valid()
      modifies this
      ensures Valid() && budgetPerHost == old(budgetPerHost)
      ensures State() == Enqueued(old(State()), t, tier, firstTimeForKey)
    {
      hide Balanced;
      EnqueuedKeepsBalance(State(), t, tier, firstTimeForKey);
      if firstTimeForKey && t.host != "" {
        hostCount := hostCount[t.host := Get(hostCount, t.host, 0) + 1];
      }
      seen, items, pendingByTier :=
        seen + {SeenKey(t.key, tier)},
        items[tier := Get(items, tier, []) + [t]],
        pendingByTier[tier := Get(pendingByTier, tier, 0) + 1];
    }

    method TotalPending() returns (total: int)
      ensures total == Total(pendingByTier)
    {
      total := SumOf(pendingByTier);
    }

    // One pass of Pop's loop; Blocked is where the source calls cond.Wait.
    method PopAttempt(cancelled: bool) returns (a: Attempt)
      requires Valid()
      modifies this
      ensures Valid() && budgetPerHost == old(budgetPerHost)
      ensures PopMeets(old(State()), cancelled, a, State())
    {
      ghost var q := State();
      if closed || cancelled { return Exit; }
      var lowerPending := 0;
      for i := 0 to |TIER_BANDS|
        invariant State() == q && budgetPerHost == old(budgetPerHost)
        invariant 0 <= lowerPending
        invariant lowerPending == 0 <==> forall lower | FINGERPRINT <= lower <= i :: Pending(q, lower) == 0
        invariant forall tier | FINGERPRINT <= tier <= i :: !Eligible(q, tier)
      {
        var tier := TIER_BANDS[i];
        if lowerPending == 0 && |Get(items, tier, [])| > 0 {
          var t := items[tier][0];
          items := items[tier := items[tier][1..]];
          TakeKeepsBalance(q, tier);
          return Took(t, tier);
        }
        assert |Items(q, tier)| <= Pending(q, tier);
        lowerPending := lowerPending + Get(pendingByTier, tier, 0);
      }
      var total := TotalPending();
      DrainedIsTotalZero(q);
      return if sourceDone && total == 0 then Exit else Blocked;
    }

    // The caller must hold a dispatch at this tier.
    method Done(tier: int) returns (wake: Wake)
      requires Valid() && |Items(State(), tier)| < Pending(State(), tier)
      modifies this
      ensures Valid() && budgetPerHost == old(budgetPerHost)
      ensures State() == Release(old(State()), tier) && wake == Broadcast
    {
      ghost var q := State();
      pendingByTier := pendingByTier[tier := Get(pendingByTier, tier, 0) - 1];
      ReleaseKeepsBalance(q, tier);
      return Broadcast;
    }

    method SourceDone() returns (wake: Wake)
      requires Valid()
      modifies this
      ensures Valid() && budgetPerHost == old(budgetPerHost)
      ensures State() == old(State()).(sourceDone := true)
      ensures wake == if !old(sourceDone) && Drained(State()) then Broadcast else NoWake
    {
      if sourceDone { return NoWake; }
      sourceDone := true;
      var total := TotalPending();
      assert forall tier: int ::
          && Items(State(), tier) == Items(old(State()), tier)
          && Pending(State(), tier) == Pending(old(State()), tier);
      DrainedIsTotalZero(State());
      return if total == 0 then Broadcast else NoWake;
    }

    method Close() returns (wake: Wake)
      requires Valid()
      modifies this
      ensures Valid() && budgetPerHost == old(budgetPerHost)
      ensures State() == old(State()).(closed := true)
      ensures wake == if old(closed) then NoWake else Broadcast
    {
      if closed { return NoWake; }
      closed := true;
      assert forall tier: int ::
          && Items(State(), tier) == Items(old(State()), tier)
          && Pending(State(), tier) == Pending(old(State()), tier);
      return Broadcast;
    }
  }

  lemma DrainedIsTotalZero(q: Queue)
    requires Balanced(q)
    ensures Drained(q) <==> q.sourceDone && Total(q.pending) == 0
  {
    forall k | k in q.pending ensures 0 <= q.pending[k] {
      assert |Items(q, k)| <= Pending(q, k);
    }
    TotalZero(q.pending);
    if Total(q.pending) == 0 {
      assert forall tier: int :: Pending(q, tier) == 0;
    } else {
      var k :| k in q.pending && q.pending[k] != 0;
      assert Pending(q, k) != 0;
    }
  }

  lemma EnqueuedKeepsBalance(q: Queue, t: Target, tier: int, firstTimeForKey: bool)
    requires Balanced(q)
    ensures Balanced(Enqueued(q, t, tier, firstTimeForKey))
  {
    var q' := Enqueued(q, t, tier, firstTimeForKey);
    forall other: int ensures |Items(q', other)| <= Pending(q', other) {
      assert |Items(q, other)| <= Pending(q, other);
    }
  }

  lemma TakeKeepsBalance(q: Queue, tier: int)
    requires Balanced(q) && Items(q, tier) != []
    ensures Balanced(Take(q, tier))
  {
    var q' := Take(q, tier);
    forall other: int ensures |Items(q', other)| <= Pending(q', other) {
      assert |Items(q, other)| <= Pending(q, other);
    }
  }

  lemma ReleaseKeepsBalance(q: Queue, tier: int)
    requires Balanced(q) && |Items(q, tier)| < Pending(q, tier)
    ensures Balanced(Release(q, tier))
  {
    var q' := Release(q, tier);
    forall other: int ensures |Items(q', other)| <= Pending(q', other) {
      assert |Items(q, other)| <= Pending(q, other);
    }
  }
}
