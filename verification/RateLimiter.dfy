/**
 The token-bucket limiter of internal/middleware/rate_limiter.go.

 A bucket is refilled lazily, clamped to the capacity and then spent.  The clock is read before the
 lock is taken, so the times of the calls need not be ordered; only the lemmas that say so assume it.
 Floating-point numbers are modelled as reals.
 */
module RateLimiter {
  import opened Options

  datatype Params = Params(rate: real, capacity: real) {
    predicate Valid() { rate > 0.0 && capacity >= 1.0 }
  }

  /** What one bucket holds. */
  datatype Content = Content(tokens: real, lastRefill: real)

  type Table = map<string, Content>

  /** One call, with the clock reading its thread took before the lock. */
  datatype Call = Call(key: string, now: real)

  /** The clamping of the configured numbers. */
  function Configure(rpm: int, burst: int): (p: Params)
    ensures p.Valid()
    ensures rpm > 0 ==> 60.0 * p.rate == rpm as real
    ensures burst > 0 ==> p.capacity == burst as real
    ensures rpm <= 0 ==> p.rate == 0.000001
    ensures burst <= 0 ==> p.capacity == 1.0
  {
    var rps := rpm as real / 60.0;
    Params(if rps <= 0.0 then 0.000001 else rps,
           (if burst <= 0 then 1 else burst) as real)
  }

  /** The tokens that accrue in `dt` seconds; negative when the clock reading is older than the last. */
  function Gain(rate: real, dt: real): real { dt * rate }

  lemma GainAdds(rate: real, a: real, b: real)
    ensures Gain(rate, a + b) == Gain(rate, a) + Gain(rate, b)
  {
  }

  lemma GainZero(rate: real)
    ensures Gain(rate, 0.0) == 0.0
  {
  }

  lemma GainGrows(rate: real, a: real, b: real)
    requires rate >= 0.0 && a <= b
    ensures Gain(rate, a) <= Gain(rate, b)
  {
  }

  lemma GainOver(rate: real, amount: real, dt: real)
    requires rate > 0.0 && dt >= amount / rate
    ensures Gain(rate, dt) >= amount
  {
    GainGrows(rate, amount / rate, dt);
    assert amount / rate * rate == amount;
  }

  function Min(a: real, b: real): real { if a < b then a else b }

  /** The tokens in a bucket once it has been refilled at `now`; a missing bucket starts full. */
  function Refill(p: Params, b: Option<Content>, now: real): real {
    var c := if b.Some? then b.value else Content(p.capacity, now);
    Min(p.capacity, c.tokens + Gain(p.rate, now - c.lastRefill))
  }

  function Spend(level: real, now: real): Content {
    Content(if level >= 1.0 then level - 1.0 else level, now)
  }

  function Lookup(t: Table, key: string): Option<Content> {
    if key in t then Some(t[key]) else None
  }

  /** One call on the whole table of buckets, and its answer. */
  function Step(p: Params, t: Table, c: Call): (Table, bool) {
    var level := Refill(p, Lookup(t, c.key), c.now);
    (t[c.key := Spend(level, c.now)], level >= 1.0)
  }

  // ---------- Runs on one key ----------

  /** The bucket of a key before call number `n`, when its calls carry the readings `times`. */
  function Before(p: Params, times: seq<real>, n: nat): Option<Content>
    requires n <= |times|
    decreases n, 0
  {
    if n == 0 then None else Some(Spend(LevelAt(p, times, n - 1), times[n - 1]))
  }

  /** The tokens call number `n` finds after its refill. */
  function LevelAt(p: Params, times: seq<real>, n: nat): real
    requires n < |times|
    decreases n, 1
  {
    Refill(p, Before(p, times, n), times[n])
  }

  predicate Admitted(p: Params, times: seq<real>, n: nat)
    requires n < |times|
  {
    LevelAt(p, times, n) >= 1.0
  }

  /** How many of the calls `i..j` are admitted. */
  function Admissions(p: Params, times: seq<real>, i: nat, j: nat): nat
    requires i <= j <= |times|
    decreases j
  {
    if i == j then 0
    else Admissions(p, times, i, j - 1) + if Admitted(p, times, j - 1) then 1 else 0
  }

  /** What the refills since call `i` allow at call `n`, less what was admitted in between. */
  function Budget(p: Params, times: seq<real>, i: nat, n: nat): real
    requires i <= n < |times|
  {
    p.capacity + Gain(p.rate, times[n] - times[i]) - Admissions(p, times, i, n) as real
  }

  lemma BudgetStep(p: Params, times: seq<real>, i: nat, n: nat)
    requires i < n < |times|
    ensures Budget(p, times, i, n)
         == Budget(p, times, i, n - 1) - (if Admitted(p, times, n - 1) then 1.0 else 0.0)
          + Gain(p.rate, times[n] - times[n - 1])
  {
    hide Gain;
    GainAdds(p.rate, times[n] - times[n - 1], times[n - 1] - times[i]);
    assert times[n] - times[n - 1] + (times[n - 1] - times[i]) == times[n] - times[i];
  }

  lemma LevelStep(p: Params, times: seq<real>, n: nat)
    requires 0 < n < |times|
    ensures LevelAt(p, times, n)
         == Min(p.capacity, LevelAt(p, times, n - 1) - (if Admitted(p, times, n - 1) then 1.0 else 0.0)
                            + Gain(p.rate, times[n] - times[n - 1]))
  {
    hide Gain;
  }

  /** The level is the least of the budgets: no budget is below it ... */
  lemma {:induction false} LevelBelowBudgets(p: Params, times: seq<real>, i: nat, n: nat)
    requires i <= n < |times|
    ensures LevelAt(p, times, n) <= Budget(p, times, i, n)
    decreases n
  {
    hide Gain;
    GainZero(p.rate);
    if i < n {
      LevelBelowBudgets(p, times, i, n - 1);
      LevelStep(p, times, n);
      BudgetStep(p, times, i, n);
    }
  }

  /** ... and one of them attains it. */
  lemma {:induction false} LevelIsABudget(p: Params, times: seq<real>, n: nat) returns (i: nat)
    requires n < |times|
    ensures i <= n && LevelAt(p, times, n) == Budget(p, times, i, n)
    decreases n
  {
    hide Gain;
    GainZero(p.rate);
    i := n;
    if n > 0 {
      LevelStep(p, times, n);
      if LevelAt(p, times, n) != p.capacity {
        i := LevelIsABudget(p, times, n - 1);
        BudgetStep(p, times, i, n);
      }
    }
  }

  /** The calls from `i` on, with one more at `n`, fit the burst and what is refilled between the two. */
  predicate FitsSince(p: Params, times: seq<real>, i: nat, n: nat)
    requires i <= n < |times|
  {
    Admissions(p, times, i, n) as real + 1.0 <= p.capacity + Gain(p.rate, times[n] - times[i])
  }

  /** Admission, exactly, in terms of the earlier admissions: no order on the times is assumed. */
  lemma AdmittedIff(p: Params, times: seq<real>, n: nat)
    requires n < |times|
    ensures Admitted(p, times, n) <==>
            forall i: nat | i <= n :: FitsSince(p, times, i, n)
  {
    hide Gain;
    GainZero(p.rate);
    forall i: nat | i <= n
      ensures Admitted(p, times, n) ==> FitsSince(p, times, i, n)
    {
      LevelBelowBudgets(p, times, i, n);
    }
    var k := LevelIsABudget(p, times, n);
    assert FitsSince(p, times, k, n) ==> Admitted(p, times, n);
  }

  // ---------- Admissions in an interval of clock readings ----------

  predicate AdmittedWithin(p: Params, times: seq<real>, s: real, e: real, n: nat)
    requires n < |times|
  {
    Admitted(p, times, n) && s <= times[n] <= e
  }

  /** How many of the first `n` calls are admitted and carry a reading in [s, e]. */
  function AdmissionsWithin(p: Params, times: seq<real>, s: real, e: real, n: nat): nat
    requires n <= |times|
  {
    if n == 0 then 0
    else AdmissionsWithin(p, times, s, e, n - 1) + if AdmittedWithin(p, times, s, e, n - 1) then 1 else 0
  }

  lemma {:induction false} AdmissionsGrow(p: Params, times: seq<real>, i: nat, j: nat, k: nat)
    requires i <= j <= k <= |times|
    ensures Admissions(p, times, i, j) <= Admissions(p, times, i, k)
    decreases k
  {
    hide Gain;
    if j < k {
      AdmissionsGrow(p, times, i, j, k - 1);
    }
  }

  /** The first and last counted calls enclose all the others. */
  lemma {:induction false} Enclosing(p: Params, times: seq<real>, s: real, e: real, n: nat) returns (i: nat, j: nat)
    requires n <= |times| && AdmissionsWithin(p, times, s, e, n) > 0
    ensures i <= j < n
    ensures AdmittedWithin(p, times, s, e, i) && AdmittedWithin(p, times, s, e, j)
    ensures AdmissionsWithin(p, times, s, e, n) <= Admissions(p, times, i, j) + 1
    decreases n
  {
    hide Gain;
    var m := n - 1;
    if AdmissionsWithin(p, times, s, e, m) == 0 {
      i, j := m, m;
    } else {
      i, j := Enclosing(p, times, s, e, m);
      if AdmittedWithin(p, times, s, e, m) {
        AdmissionsGrow(p, times, i, j + 1, m);
        j := m;
      }
    }
  }

  /**
   However the threads that read the clock are then ordered by the lock, the admissions whose readings
   lie in [s, e] never exceed the burst plus what is refilled in that time.
   */
  lemma {:induction false} IntervalBound(p: Params, times: seq<real>, s: real, e: real)
    requires p.Valid() && s <= e
    ensures AdmissionsWithin(p, times, s, e, |times|) as real <= p.capacity + Gain(p.rate, e - s)
  {
    hide Gain;
    GainZero(p.rate);
    if AdmissionsWithin(p, times, s, e, |times|) > 0 {
      var i, j := Enclosing(p, times, s, e, |times|);
      AdmittedIff(p, times, j);
      assert FitsSince(p, times, i, j);
      GainGrows(p.rate, times[j] - times[i], e - s);
    } else {
      GainGrows(p.rate, 0.0, e - s);
    }
  }

  // ---------- Denied calls leave no trace ----------

  /** The readings that remain of the first `n` calls when those not marked in `keep` are deleted. */
  function Kept(times: seq<real>, keep: seq<bool>, n: nat): (k: seq<real>)
    requires n <= |times| == |keep|
    ensures |k| <= n
  {
    if n == 0 then [] else Kept(times, keep, n - 1) + if keep[n - 1] then [times[n - 1]] else []
  }

  /** Two buckets that refill to the same level at every later instant. */
  predicate SameLine(p: Params, a: Option<Content>, b: Option<Content>) {
    a.Some? == b.Some? &&
    (a.Some? ==> a.value.tokens - b.value.tokens == Gain(p.rate, a.value.lastRefill - b.value.lastRefill))
  }

  lemma SameLineSameLevel(p: Params, a: Option<Content>, b: Option<Content>, now: real)
    requires SameLine(p, a, b)
    ensures Refill(p, a, now) == Refill(p, b, now)
  {
    hide Gain;
    GainZero(p.rate);
    if a.Some? {
      var x, y := a.value.lastRefill, b.value.lastRefill;
      GainAdds(p.rate, x - y, now - x);
      assert x - y + (now - x) == now - y;
    }
  }

  lemma DenialKeepsLine(p: Params, b: Option<Content>, now: real)
    requires p.Valid() && Refill(p, b, now) < 1.0
    ensures SameLine(p, Some(Spend(Refill(p, b, now), now)), b)
  {
    hide Gain;
    GainZero(p.rate);
  }

  lemma {:induction false} PrefixSuffices(p: Params, a: seq<real>, b: seq<real>, n: nat)
    requires n < |a| && n < |b| && a[..n + 1] == b[..n + 1]
    ensures LevelAt(p, a, n) == LevelAt(p, b, n)
    decreases n
  {
    hide Gain;
    assert a[n] == a[..n + 1][n] == b[n];
    if n > 0 {
      assert a[..n] == a[..n + 1][..n] == b[..n];
      assert a[n - 1] == a[..n + 1][n - 1] == b[n - 1];
      PrefixSuffices(p, a, b, n - 1);
    }
  }

  lemma SameLineTransitive(p: Params, a: Option<Content>, b: Option<Content>, c: Option<Content>)
    requires SameLine(p, a, b) && SameLine(p, b, c)
    ensures SameLine(p, a, c)
  {
    if a.Some? {
      var x, y, z := a.value.lastRefill, b.value.lastRefill, c.value.lastRefill;
      GainAdds(p.rate, x - y, y - z);
      assert x - y + (y - z) == x - z;
    }
  }

  lemma {:induction false} LevelAppend(p: Params, past: seq<real>, now: real)
    ensures LevelAt(p, past + [now], |past|) == Refill(p, Before(p, past, |past|), now)
  {
    hide Gain;
    if past != [] {
      PrefixSuffices(p, past, past + [now], |past| - 1);
    }
  }

  lemma {:induction false} KeptBefore(p: Params, times: seq<real>, keep: seq<bool>, n: nat)
    requires p.Valid() && n <= |times| == |keep|
    requires forall i: nat | i < n :: !keep[i] ==> !Admitted(p, times, i)
    ensures var k := Kept(times, keep, n); SameLine(p, Before(p, times, n), Before(p, k, |k|))
    decreases n
  {
    hide Gain;
    GainZero(p.rate);
    if n > 0 {
      var m := n - 1;
      var k, k' := Kept(times, keep, m), Kept(times, keep, n);
      KeptBefore(p, times, keep, m);
      if keep[m] {
        assert k' == k + [times[m]];
        SameLineSameLevel(p, Before(p, times, m), Before(p, k, |k|), times[m]);
        LevelAppend(p, k, times[m]);
      } else {
        assert k' == k;
        DenialKeepsLine(p, Before(p, times, m), times[m]);
        SameLineTransitive(p, Before(p, times, n), Before(p, times, m), Before(p, k, |k|));
      }
    }
  }

  lemma {:induction false} KeptPrefix(times: seq<real>, keep: seq<bool>, m: nat, n: nat)
    requires m <= n <= |times| == |keep|
    ensures Kept(times, keep, m) <= Kept(times, keep, n)
    decreases n
  {
    if m < n {
      KeptPrefix(times, keep, m, n - 1);
    }
  }

  /** Deleting any denied calls from a run changes the answer of no remaining call. */
  lemma {:induction false} DeniedCallsAreInvisible(p: Params, times: seq<real>, keep: seq<bool>, n: nat)
    requires p.Valid() && n < |times| == |keep| && keep[n]
    requires forall i: nat | i < |times| :: !keep[i] ==> !Admitted(p, times, i)
    ensures var all, at := Kept(times, keep, |times|), |Kept(times, keep, n)|;
            at < |all| && all[at] == times[n] &&
            (Admitted(p, all, at) <==> Admitted(p, times, n))
  {
    hide Gain;
    var all, k := Kept(times, keep, |times|), Kept(times, keep, n);
    var k' := Kept(times, keep, n + 1);
    assert k' == k + [times[n]];
    KeptPrefix(times, keep, n + 1, |times|);
    assert all[..|k'|] == k';
    KeptBefore(p, times, keep, n);
    SameLineSameLevel(p, Before(p, times, n), Before(p, k, |k|), times[n]);
    assert all[..|k| + 1] == k'[..|k| + 1];
    PrefixSuffices(p, all, k', |k|);
    if |k| > 0 {
      PrefixSuffices(p, k, k', |k| - 1);
    }
  }

  // ---------- Ordered clocks ----------

  predicate Ordered(times: seq<real>) {
    forall i | 0 < i < |times| :: times[i - 1] <= times[i]
  }

  lemma {:induction false} TokensInRange(p: Params, times: seq<real>, n: nat)
    requires p.Valid() && Ordered(times) && n < |times|
    ensures 0.0 <= LevelAt(p, times, n) <= p.capacity
    ensures 0.0 <= Before(p, times, n + 1).value.tokens <= p.capacity
    decreases n
  {
    hide Gain;
    GainZero(p.rate);
    if n > 0 {
      TokensInRange(p, times, n - 1);
      GainGrows(p.rate, 0.0, times[n] - times[n - 1]);
      LevelStep(p, times, n);
    }
  }

  /** A caller that waits 1/rate since its previous call is admitted. */
  lemma SpacedCallAdmitted(p: Params, times: seq<real>, n: nat)
    requires p.Valid() && Ordered(times) && 0 < n < |times|
    requires times[n] - times[n - 1] >= 1.0 / p.rate
    ensures Admitted(p, times, n)
  {
    hide Gain;
    GainZero(p.rate);
    TokensInRange(p, times, n - 1);
    GainOver(p.rate, 1.0, times[n] - times[n - 1]);
    LevelStep(p, times, n);
  }

  /** Both facts need the order: a late lock with an early reading can leave a negative balance. */
  lemma EarlyReadingStarves()
    ensures var p, times := Params(1.0, 1.0), [10.0, 0.0, 1.0];
            p.Valid() && Before(p, times, 2).value.tokens == -10.0 &&
            times[2] - times[1] >= 1.0 / p.rate && !Admitted(p, times, 2)
  {
    var p, times := Params(1.0, 1.0), [10.0, 0.0, 1.0];
    assert LevelAt(p, times, 0) == 1.0;
    assert LevelAt(p, times, 1) == -10.0;
    assert LevelAt(p, times, 2) == -9.0;
  }

  /** A bucket idle for capacity/rate behaves, from then on, exactly like a missing one. */
  lemma {:induction false} IdleIsMissing(p: Params, past: seq<real>, later: seq<real>, n: nat)
    requires p.Valid() && Ordered(past) && past != [] && n < |later|
    requires later[0] - past[|past| - 1] >= p.capacity / p.rate
    ensures LevelAt(p, past + later, |past| + n) == LevelAt(p, later, n)
    ensures Admitted(p, past + later, |past| + n) <==> Admitted(p, later, n)
    decreases n
  {
    hide Gain;
    GainZero(p.rate);
    var all, m := past + later, |past|;
    if n == 0 {
      PrefixSuffices(p, all, past, m - 1);
      TokensInRange(p, past, m - 1);
      GainOver(p.rate, p.capacity, later[0] - past[m - 1]);
      LevelStep(p, all, m);
    } else {
      IdleIsMissing(p, past, later, n - 1);
      LevelStep(p, all, m + n);
      LevelStep(p, later, n);
    }
  }

  // ---------- Many keys ----------

  function RunTable(p: Params, calls: seq<Call>): Table {
    if calls == [] then map[]
    else Step(p, RunTable(p, calls[..|calls| - 1]), calls[|calls| - 1]).0
  }

  lemma {:induction false} RunTableAppend(p: Params, calls: seq<Call>, c: Call)
    ensures RunTable(p, calls + [c]) == Step(p, RunTable(p, calls), c).0
    ensures Answer(p, calls + [c], |calls|) == Step(p, RunTable(p, calls), c).1
  {
    hide Step;
    assert (calls + [c])[..|calls|] == calls;
  }

  function Answer(p: Params, calls: seq<Call>, n: nat): bool
    requires n < |calls|
  {
    Step(p, RunTable(p, calls[..n]), calls[n]).1
  }

  /** The clock readings of the calls on one key, in lock order. */
  function TimesOf(calls: seq<Call>, key: string): seq<real> {
    if calls == [] then []
    else
      var c := calls[|calls| - 1];
      TimesOf(calls[..|calls| - 1], key) + if c.key == key then [c.now] else []
  }

  lemma {:induction false} TableIsSolo(p: Params, calls: seq<Call>, key: string)
    ensures var times := TimesOf(calls, key);
            Lookup(RunTable(p, calls), key) == Before(p, times, |times|)
  {
    hide Gain;
    if calls != [] {
      var rest, c := calls[..|calls| - 1], calls[|calls| - 1];
      TableIsSolo(p, rest, key);
      if c.key == key {
        var past := TimesOf(rest, key);
        LevelAppend(p, past, c.now);
        var times := TimesOf(calls, key);
        assert times == past + [c.now] && |times| - 1 == |past|;
        assert Before(p, times, |times|) == Some(Spend(LevelAt(p, times, |past|), c.now));
      } else {
        assert TimesOf(calls, key) == TimesOf(rest, key);
      }
    }
  }

  /** A run over many keys answers each call as a run on that key alone would. */
  lemma KeysAreIndependent(p: Params, calls: seq<Call>, n: nat)
    requires n < |calls|
    ensures var times := TimesOf(calls[..n + 1], calls[n].key);
            times != [] && times[|times| - 1] == calls[n].now &&
            (Answer(p, calls, n) <==> Admitted(p, times, |times| - 1))
  {
    hide Gain;
    var past := TimesOf(calls[..n], calls[n].key);
    assert calls[..n + 1][..n] == calls[..n];
    TableIsSolo(p, calls[..n], calls[n].key);
    LevelAppend(p, past, calls[n].now);
  }

  /** How many calls on `key` are admitted and carry a reading in [s, e], in a run over any keys. */
  function AdmittedOn(p: Params, calls: seq<Call>, key: string, s: real, e: real): nat {
    if calls == [] then 0
    else
      var n := |calls| - 1;
      AdmittedOn(p, calls[..n], key, s, e)
      + if calls[n].key == key && s <= calls[n].now <= e && Answer(p, calls, n) then 1 else 0
  }

  lemma {:induction false} WithinPrefix(p: Params, a: seq<real>, b: seq<real>, s: real, e: real, n: nat)
    requires n <= |a| && n <= |b| && a[..n] == b[..n]
    ensures AdmissionsWithin(p, a, s, e, n) == AdmissionsWithin(p, b, s, e, n)
    decreases n
  {
    hide Gain;
    if n > 0 {
      assert a[..n - 1] == a[..n][..n - 1] == b[..n - 1];
      assert a[n - 1] == a[..n][n - 1] == b[n - 1];
      PrefixSuffices(p, a, b, n - 1);
      WithinPrefix(p, a, b, s, e, n - 1);
    }
  }

  lemma {:induction false} AdmittedOnIsSolo(p: Params, calls: seq<Call>, key: string, s: real, e: real)
    ensures var times := TimesOf(calls, key);
            AdmittedOn(p, calls, key, s, e) == AdmissionsWithin(p, times, s, e, |times|)
  {
    hide Gain;
    if calls != [] {
      var n := |calls| - 1;
      var past, times := TimesOf(calls[..n], key), TimesOf(calls, key);
      AdmittedOnIsSolo(p, calls[..n], key, s, e);
      assert times == past + if calls[n].key == key then [calls[n].now] else [];
      assert times[..|past|] == past;
      WithinPrefix(p, past, times, s, e, |past|);
      assert calls[..n + 1] == calls;
      KeysAreIndependent(p, calls, n);
    }
  }

  /** The bound for one key in any interleaving of calls, over any keys, with any clock readings. */
  lemma {:induction false} InterleavedBound(p: Params, calls: seq<Call>, key: string, s: real, e: real)
    requires p.Valid() && s <= e
    ensures AdmittedOn(p, calls, key, s, e) as real <= p.capacity + Gain(p.rate, e - s)
  {
    AdmittedOnIsSolo(p, calls, key, s, e);
    IntervalBound(p, TimesOf(calls, key), s, e);
  }

  // ---------- The limiter itself ----------

  class Bucket {
    var tokens: real
    var lastRefill: real
    ghost const key: string  // whose bucket this is; no two keys share one

    constructor (tokens: real, lastRefill: real, ghost key: string)
      ensures this.tokens == tokens && this.lastRefill == lastRefill && this.key == key
    {
      this.tokens, this.lastRefill, this.key := tokens, lastRefill, key;
    }

    ghost function C(): Content
      reads this
    {
      Content(tokens, lastRefill)
    }

    /** The refill and the spending, in place. */
    method Take(rate: real, capacity: real, now: real) returns (ok: bool)
      modifies this`tokens, this`lastRefill
      ensures var level := Refill(Params(rate, capacity), Some(old(C())), now);
              C() == Spend(level, now) && ok == (level >= 1.0)
    {
      var elapsed := now - lastRefill;
      tokens := Min(capacity, tokens + Gain(rate, elapsed));
      lastRefill := now;
      if tokens >= 1.0 {
        tokens := tokens - 1.0;
        ok := true;
      } else {
        ok := false;
      }
    }
  }

  class Limiter {
    var buckets: map<string, Bucket>
    const rate: real
    const capacity: real
    ghost var history: seq<Call>

    ghost function P(): Params { Params(rate, capacity) }

    ghost function Contents(): Table
      reads this`buckets, buckets.Values
    {
      map k | k in buckets :: buckets[k].C()
    }

    ghost predicate Valid()
      reads this, buckets.Values
    {
      && (forall k | k in buckets :: buckets[k].key == k)
      && Contents() == RunTable(P(), history)
    }

    constructor (rps: real, burst: int)
      ensures Valid() && rate == rps && capacity == burst as real && history == [] && buckets == map[]
    {
      buckets := map[];
      rate, capacity := rps, burst as real;
      history := [];
    }

    /** `now` is the reading the caller's thread took before it got the lock. */
    method Allow(key: string, now: real) returns (ok: bool)
      requires Valid()
      modifies this`buckets, this`history, buckets.Values
      ensures Valid() && history == old(history) + [Call(key, now)]
      ensures fresh(buckets.Values - old(buckets.Values))
      ensures Contents() == Step(P(), old(Contents()), Call(key, now)).0
      ensures ok == Step(P(), old(Contents()), Call(key, now)).1
      ensures ok == Answer(P(), history, |history| - 1)
    {
      hide Refill;
      hide Spend;
      hide RunTable;
      hide Answer;
      ghost var before, call := Contents(), Call(key, now);
      NewBucketIsFull(P(), now);
      if key !in buckets {
        var full := new Bucket(capacity, now, key);
        buckets := buckets[key := full];
      }
      ok := buckets[key].Take(rate, capacity, now);
      assert Contents() == before[key := Spend(Refill(P(), Lookup(before, key), now), now)];
      RunTableAppend(P(), history, call);
      history := history + [call];
    }
  }

  lemma NewBucketIsFull(p: Params, now: real)
    ensures Refill(p, Some(Content(p.capacity, now)), now) == Refill(p, None, now)
  {
  }
}
