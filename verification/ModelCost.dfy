/** Tiered request cost over exact rationals. */
module ModelCost {

  datatype Rates = Rates(input: real, output: real, cacheRead: real, cacheWrite: real)

  datatype Tier = Tier(above: real, rates: Rates)

  datatype Cost = Cost(input: real, output: real, cacheRead: real, cacheWrite: real, total: real)

  /** Token counts; `longWrite` is the part of `cacheWrite` kept for an hour, zero if absent. */
  datatype Usage = Usage(input: real, output: real, cacheRead: real, cacheWrite: real, longWrite: real)

  function InputTokens(u: Usage): real {
    u.input + u.cacheRead + u.cacheWrite
  }

  /** Strictly exceeded, with a threshold above the initial -1. */
  predicate Eligible(tier: Tier, tokens: real) {
    tokens > tier.above && tier.above > -1.0
  }

  /** The highest eligible tier; of equal thresholds, the first listed. */
  ghost predicate IsChosen(tiers: seq<Tier>, tokens: real, i: nat) {
    && i < |tiers| && Eligible(tiers[i], tokens)
    && (forall k :: 0 <= k < |tiers| && Eligible(tiers[k], tokens) ==> tiers[k].above <= tiers[i].above)
    && (forall k :: 0 <= k < i && Eligible(tiers[k], tokens) ==> tiers[k].above < tiers[i].above)
  }

  ghost predicate NoneEligible(tiers: seq<Tier>, tokens: real) {
    forall k :: 0 <= k < |tiers| ==> !Eligible(tiers[k], tokens)
  }

  /** The rates in force, said without a loop. */
  ghost predicate InForce(base: Rates, tiers: seq<Tier>, tokens: real, rates: Rates) {
    || (NoneEligible(tiers, tokens) && rates == base)
    || (exists i :: 0 <= i < |tiers| && IsChosen(tiers, tokens, i) && rates == tiers[i].rates)
  }

  /** Rates are per million tokens. */
  function Part(rate: real, tokens: real): real {
    rate / 1000000.0 * tokens
  }

  /** Cache writes kept for an hour cost twice the input rate. */
  function WritePart(rates: Rates, short: real, long: real): real {
    (rates.cacheWrite * short + rates.input * 2.0 * long) / 1000000.0
  }

  function CostOf(rates: Rates, u: Usage): Cost {
    var input := Part(rates.input, u.input);
    var output := Part(rates.output, u.output);
    var cacheRead := Part(rates.cacheRead, u.cacheRead);
    var cacheWrite := WritePart(rates, u.cacheWrite - u.longWrite, u.longWrite);
    Cost(input, output, cacheRead, cacheWrite, input + output + cacheRead + cacheWrite)
  }

  class UsageRecord {
    var usage: Usage
    var cost: Cost

    constructor (usage: Usage)
      ensures this.usage == usage
    {
      this.usage := usage;
      cost := Cost(0.0, 0.0, 0.0, 0.0, 0.0);
    }
  }

  /** The tier loop of `calculateCost`. */
  method SelectRates(base: Rates, tiers: seq<Tier>, tokens: real) returns (rates: Rates)
    ensures InForce(base, tiers, tokens, rates)
  {
    rates := base;
    var matchedThreshold := -1.0;
    ghost var chosen := -1;
    for k := 0 to |tiers|
      invariant -1 <= chosen < k
      invariant chosen == -1 ==> rates == base && matchedThreshold == -1.0
      invariant chosen == -1 ==> forall j :: 0 <= j < k ==> !Eligible(tiers[j], tokens)
      invariant chosen >= 0 ==>
                  && rates == tiers[chosen].rates && matchedThreshold == tiers[chosen].above
                      && Eligible(tiers[chosen], tokens)
                  && (forall j :: 0 <= j < k && Eligible(tiers[j], tokens) ==> tiers[j].above <= matchedThreshold)
                  && (forall j :: 0 <= j < chosen && Eligible(tiers[j], tokens) ==> tiers[j].above < matchedThreshold)
    {
      if tokens > tiers[k].above && tiers[k].above > matchedThreshold {
        rates := tiers[k].rates;
        matchedThreshold := tiers[k].above;
        chosen := k;
      }
    }
    if chosen >= 0 {
      assert IsChosen(tiers, tokens, chosen);
    }
  }

  method CalculateCost(base: Rates, tiers: seq<Tier>, record: UsageRecord)
    modifies record`cost
    ensures exists rates ::
              InForce(base, tiers, InputTokens(record.usage), rates) && record.cost == CostOf(rates, record.usage)
    ensures record.cost.total == record.cost.input + record.cost.output + record.cost.cacheRead + record.cost.cacheWrite
  {
    hide Part, WritePart, InForce;
    var u := record.usage;
    var rates := SelectRates(base, tiers, InputTokens(u));
    var shortWrite := u.cacheWrite - u.longWrite;
    record.cost := record.cost.(input := Part(rates.input, u.input));
    record.cost := record.cost.(output := Part(rates.output, u.output));
    record.cost := record.cost.(cacheRead := Part(rates.cacheRead, u.cacheRead));
    record.cost := record.cost.(cacheWrite := WritePart(rates, shortWrite, u.longWrite));
    record.cost := record.cost.(total := record.cost.input + record.cost.output + record.cost.cacheRead
        + record.cost.cacheWrite);
    assert InForce(base, tiers, InputTokens(record.usage), rates) && record.cost == CostOf(rates, record.usage);
  }

  /** The rates in force are determined. */
  lemma InForceIsUnique(base: Rates, tiers: seq<Tier>, tokens: real, r1: Rates, r2: Rates)
    requires InForce(base, tiers, tokens, r1) && InForce(base, tiers, tokens, r2)
    ensures r1 == r2
  {
    if !NoneEligible(tiers, tokens) {
      var i :| 0 <= i < |tiers| && IsChosen(tiers, tokens, i) && r1 == tiers[i].rates;
      var j :| 0 <= j < |tiers| && IsChosen(tiers, tokens, j) && r2 == tiers[j].rates;
      assert tiers[i].above <= tiers[j].above <= tiers[i].above;
      assert i == j;
    }
  }

  ghost predicate DistinctThresholds(tiers: seq<Tier>) {
    forall i, j :: 0 <= i < j < |tiers| ==> tiers[i].above != tiers[j].above
  }

  /** With distinct thresholds, the listing order does not matter. */
  lemma OrderDoesNotMatter(base: Rates, a: seq<Tier>, b: seq<Tier>, tokens: real, ra: Rates, rb: Rates)
    requires multiset(a) == multiset(b) && DistinctThresholds(a)
    requires InForce(base, a, tokens, ra) && InForce(base, b, tokens, rb)
    ensures ra == rb
  {
    forall t: Tier ensures t in a <==> t in b {
      assert t in multiset(a) <==> t in multiset(b);
    }
    if NoneEligible(a, tokens) {
      forall k | 0 <= k < |b| ensures !Eligible(b[k], tokens) {
        assert b[k] in a;
      }
    } else {
      var k :| 0 <= k < |a| && Eligible(a[k], tokens);
      assert a[k] in b;
      var i :| 0 <= i < |a| && IsChosen(a, tokens, i) && ra == a[i].rates;
      var j :| 0 <= j < |b| && IsChosen(b, tokens, j) && rb == b[j].rates;
      assert b[j] in a && a[i] in b;
      var i' :| 0 <= i' < |a| && a[i'] == b[j];
      assert a[i'].above == a[i].above;
      assert i' == i;
    }
  }

  // ---- Adding tokens never lowers the cost -------------------------------------------

  predicate NonNegative(r: Rates) {
    r.input >= 0.0 && r.output >= 0.0 && r.cacheRead >= 0.0 && r.cacheWrite >= 0.0
  }

  predicate NoHigher(a: Rates, b: Rates) {
    a.input <= b.input && a.output <= b.output && a.cacheRead <= b.cacheRead && a.cacheWrite <= b.cacheWrite
  }

  /** Higher tiers never have lower rates. */
  ghost predicate Progressive(base: Rates, tiers: seq<Tier>) {
    && NonNegative(base)
    && (forall i :: 0 <= i < |tiers| ==> NoHigher(base, tiers[i].rates))
    && (forall i, j :: 0 <= i < |tiers| && 0 <= j < |tiers| && tiers[i].above < tiers[j].above ==>
        NoHigher(tiers[i].rates, tiers[j].rates))
  }

  predicate WellFormedUsage(u: Usage) {
    u.input >= 0.0 && u.output >= 0.0 && u.cacheRead >= 0.0 && 0.0 <= u.longWrite <= u.cacheWrite
  }

  /** Every kind of token, short and long cache writes apart, occurs at least as often in `v`. */
  predicate NoFewer(u: Usage, v: Usage) {
    && u.input <= v.input && u.output <= v.output && u.cacheRead <= v.cacheRead
    && u.cacheWrite - u.longWrite <= v.cacheWrite - v.longWrite && u.longWrite <= v.longWrite
  }

  lemma RatesRise(base: Rates, tiers: seq<Tier>, n: real, m: real, rn: Rates, rm: Rates)
    requires Progressive(base, tiers) && n <= m
    requires InForce(base, tiers, n, rn) && InForce(base, tiers, m, rm)
    ensures NoHigher(rn, rm) && NonNegative(rn)
  {
    if !NoneEligible(tiers, n) {
      var i :| 0 <= i < |tiers| && IsChosen(tiers, n, i) && rn == tiers[i].rates;
      assert Eligible(tiers[i], m);
      var j :| 0 <= j < |tiers| && IsChosen(tiers, m, j) && rm == tiers[j].rates;
      assert tiers[i].above <= tiers[j].above;
      if tiers[i].above == tiers[j].above {
        assert Eligible(tiers[j], n);
        assert i == j;
      }
    }
  }

  lemma ProductRises(a: real, b: real, x: real, y: real)
    requires 0.0 <= a <= b && 0.0 <= x <= y
    ensures 0.0 <= a * x <= b * y
  {
    assert a * x <= b * x;
    assert b * x <= b * y;
  }

  lemma CostRises(r1: Rates, r2: Rates, u: Usage, v: Usage)
    requires NoHigher(r1, r2) && NonNegative(r1) && WellFormedUsage(u) && WellFormedUsage(v) && NoFewer(u, v)
    ensures var c, d := CostOf(r1, u), CostOf(r2, v);
            c.input <= d.input && c.output <= d.output && c.cacheRead <= d.cacheRead && c.cacheWrite <= d.cacheWrite
                && c.total <= d.total
  {
    ProductRises(r1.input / 1000000.0, r2.input / 1000000.0, u.input, v.input);
    ProductRises(r1.output / 1000000.0, r2.output / 1000000.0, u.output, v.output);
    ProductRises(r1.cacheRead / 1000000.0, r2.cacheRead / 1000000.0, u.cacheRead, v.cacheRead);
    ProductRises(r1.cacheWrite, r2.cacheWrite, u.cacheWrite - u.longWrite, v.cacheWrite - v.longWrite);
    ProductRises(r1.input * 2.0, r2.input * 2.0, u.longWrite, v.longWrite);
  }

  /** If higher tiers never have lower rates, adding tokens never lowers the cost. */
  lemma MoreTokensNeverCostLess(base: Rates, tiers: seq<Tier>, u: Usage, v: Usage, ru: Rates, rv: Rates)
    requires Progressive(base, tiers) && WellFormedUsage(u) && WellFormedUsage(v) && NoFewer(u, v)
    requires InForce(base, tiers, InputTokens(u), ru) && InForce(base, tiers, InputTokens(v), rv)
    ensures CostOf(ru, u).total <= CostOf(rv, v).total
  {
    RatesRise(base, tiers, InputTokens(u), InputTokens(v), ru, rv);
    CostRises(ru, rv, u, v);
  }
}
