/** FairshareCalculator of pkg/scheduler/queue.go, over exact reals. */
module Fairshare {

  function Usage(u: map<string, real>, user: string): real {
    if user in u then u[user] else 0.0
  }

  function Recorded(u: map<string, real>, user: string, units: real): map<string, real> {
    u[user := Usage(u, user) + units]
  }

  function Scaled(units: real, factor: real): real {
    units * factor
  }

  function Decayed(u: map<string, real>, factor: real): map<string, real> {
    map user | user in u :: Scaled(u[user], factor)
  }

  /** Conversion to int truncates toward zero. */
  function Truncated(x: real): int {
    if x >= 0.0 then x.Floor else -((-x).Floor)
  }

  function Penalty(u: map<string, real>, user: string): int {
    if user !in u then 0 else Truncated(u[user] / 100.0)
  }

  class FairshareCalculator {
    var userUsage: map<string, real>

    constructor ()
      ensures userUsage == map[]
    {
      userUsage := map[];
    }

    method RecordUsage(user: string, units: real)
      modifies this
      ensures userUsage == Recorded(old(userUsage), user, units)
    {
      userUsage := userUsage[user := Usage(userUsage, user) + units];
    }

    method CalculatePenalty(user: string) returns (penalty: int)
      ensures penalty == Penalty(userUsage, user)
    {
      if user !in userUsage {
        return 0;
      }
      penalty := Truncated(userUsage[user] / 100.0);
    }

    method DecayUsage(factor: real)
      modifies this
      ensures userUsage == Decayed(old(userUsage), factor)
    {
      ghost var target := Decayed(userUsage, factor);
      var rest := userUsage.Keys;
      while rest != {}
        invariant rest <= userUsage.Keys && userUsage.Keys == target.Keys == old(userUsage).Keys
        invariant forall user | user in rest :: userUsage[user] == old(userUsage)[user]
        invariant forall user | user in userUsage && user !in rest :: userUsage[user] == target[user]
        decreases rest
      {
        var user :| user in rest;
        userUsage := userUsage[user := Scaled(userUsage[user], factor)];
        rest := rest - {user};
      }
    }
  }

  // ---------- runs ----------

  const FACTOR: real := 0.95

  datatype Event = Record(user: string, units: real) | Decay

  function After(start: map<string, real>, h: seq<Event>): map<string, real> {
    if h == [] then start
    else
      var before := After(start, h[..|h| - 1]);
      match h[|h| - 1]
      case Record(user, units) => Recorded(before, user, units)
      case Decay => Decayed(before, FACTOR)
  }

  /** Units recorded for the user since the last decay. */
  function SinceDecay(h: seq<Event>, user: string): real {
    if h == [] then 0.0
    else
      match h[|h| - 1]
      case Record(u, units) => SinceDecay(h[..|h| - 1], user) + (if u == user then units else 0.0)
      case Decay => 0.0
  }

  /** Units are non-negative and at most `cap` is recorded between two decays. */
  ghost predicate Capped(h: seq<Event>, user: string, cap: real) {
    && (forall e | e in h && e.Record? :: e.units >= 0.0)
    && (forall i | 0 <= i <= |h| :: SinceDecay(h[..i], user) <= cap)
  }

  lemma {:induction false} UsageBound(start: map<string, real>, h: seq<Event>, user: string, cap: real)
    requires Capped(h, user, cap) && 0.0 <= Usage(start, user) <= 19.0 * cap
    ensures 0.0 <= SinceDecay(h, user)
    ensures 0.0 <= Usage(After(start, h), user) <= 19.0 * cap + SinceDecay(h, user)
  {
    if h != [] {
      var before := h[..|h| - 1];
      forall i | 0 <= i <= |before| ensures SinceDecay(before[..i], user) <= cap {
        assert before[..i] == h[..i];
      }
      forall e | e in before && e.Record? ensures e.units >= 0.0 {
        assert e in h;
      }
      UsageBound(start, before, user, cap);
      assert h[|h| - 1] in h;
      assert SinceDecay(before, user) <= cap by {
        assert before[..|before|] == before;
      }
    }
  }

  /** From at most nineteen caps, usage never exceeds twenty and the penalty
      never exceeds a fifth of the cap. */
  lemma PenaltyBound(start: map<string, real>, h: seq<Event>, user: string, cap: real)
    requires Capped(h, user, cap) && 0.0 <= Usage(start, user) <= 19.0 * cap
    ensures 0.0 <= Usage(After(start, h), user) <= 20.0 * cap
    ensures 0 <= Penalty(After(start, h), user) <= (cap / 5.0).Floor
  {
    UsageBound(start, h, user, cap);
    assert h[..|h|] == h;
    var u := Usage(After(start, h), user);
    assert u / 100.0 <= cap / 5.0;
  }

  /** A penalty point for every full hundred of usage. */
  lemma PenaltyIsHundredth(u: map<string, real>, user: string)
    requires Usage(u, user) >= 0.0
    ensures 100.0 * Penalty(u, user) as real <= Usage(u, user) < 100.0 * (Penalty(u, user) + 1) as real
  {
    assert user !in u ==> Penalty(u, user) == 0;
  }

  /** What one user owes after a history, from what the user owed before it. */
  function Owed(owed: real, h: seq<Event>, user: string): real {
    if h == [] then owed
    else
      var before := Owed(owed, h[..|h| - 1], user);
      match h[|h| - 1]
      case Record(u, units) => if u == user then before + units else before
      case Decay => before * 0.95
  }

  /** Every user's usage is what that user owes: own units added, each decay taking a
      twentieth, and nobody else's. */
  lemma {:induction false} UsageIsOwed(start: map<string, real>, h: seq<Event>, user: string)
    ensures Usage(After(start, h), user) == Owed(Usage(start, user), h, user)
  {
    if h != [] {
      UsageIsOwed(start, h[..|h| - 1], user);
    }
  }

  function Decays(k: nat): seq<Event> {
    if k == 0 then [] else Decays(k - 1) + [Decay]
  }

  lemma ShrinkStep(v: real, n: real)
    requires v >= 0.0 && n >= 19.0
    ensures (v * 0.95) * (n + 1.0) <= v * n
  {
    assert v * (n - 19.0) >= 0.0;
    assert (v * 0.95) * (n + 1.0) == v * n - 0.05 * (v * (n - 19.0));
  }

  lemma BoundShrinks(v: real, n: real, v': real, n': real, bound: real)
    requires v >= 0.0 && n >= 19.0 && v * n <= bound
    requires v' == v * 0.95 && n' == n + 1.0
    ensures 0.0 <= v' && v' * n' <= bound
  {
    ShrinkStep(v, n);
  }

  lemma OneMoreDecay(start: map<string, real>, user: string, k: nat)
    requires k > 0
    ensures Usage(After(start, Decays(k)), user) == Usage(After(start, Decays(k - 1)), user) * 0.95
  {
    var h := Decays(k);
    assert h[..|h| - 1] == Decays(k - 1) && h[|h| - 1] == Decay;
  }

  /** Bernoulli's inequality for 1/0.95 = 1 + 1/19, kept free of powers. */
  lemma {:induction false} DecayShrinks(start: map<string, real>, user: string, k: nat)
    requires Usage(start, user) >= 0.0
    ensures 0.0 <= Usage(After(start, Decays(k)), user)
    ensures Usage(After(start, Decays(k)), user) * (19 + k) as real <= 19.0 * Usage(start, user)
  {
    if k == 0 {
      assert After(start, Decays(0)) == start;
      hide *;
      assert (19 + k) as real == 19.0;
    } else {
      hide *;
      DecayShrinks(start, user, k - 1);
      OneMoreDecay(start, user, k);
      BoundShrinks(Usage(After(start, Decays(k - 1)), user), (19 + (k - 1)) as real,
                   Usage(After(start, Decays(k)), user), (19 + k) as real, 19.0 * Usage(start, user));
    }
  }

  lemma BelowOneHundred(v: real, n: real, u: real)
    requires 0.0 <= v && n >= 19.0 && v * n <= 19.0 * u && n - 19.0 > 19.0 * u / 100.0
    ensures 0.0 <= v / 100.0 < 1.0
  {
    assert 19.0 * u < 100.0 * n;
    assert v >= 100.0 ==> (v - 100.0) * n >= 0.0;
  }

  /** With no new usage the penalty is gone after more than 19u/100 decays. */
  lemma PenaltyVanishes(start: map<string, real>, user: string, k: nat)
    requires Usage(start, user) >= 0.0
    requires k as real > 19.0 * Usage(start, user) / 100.0
    ensures Penalty(After(start, Decays(k)), user) == 0
  {
    DecayShrinks(start, user, k);
    BelowOneHundred(Usage(After(start, Decays(k)), user), (19 + k) as real, Usage(start, user));
  }
}
