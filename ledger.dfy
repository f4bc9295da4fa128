/** The YieldForge contract simulation: a share ledger that mints a lot per
    deposit and burns lots oldest-first on withdrawal, a rebalance engine
    that turns yields and price momentum into capped, normalised target
    allocations, and a compounding engine that grows the single global
    share value once per 24 hours. Each operation also logs a transaction
    on the chain service, which fails when no wallet is connected. */
module Ledger {
  import opened Common
  import Chain

  const CompoundInterval: real := 86400.0  // seconds
  const ManagementFee: real := 0.005      // per year
  const MinDeposit: real := 10.0
  const MaxAllocation: real := 0.8
  const InitialShareValue: real := 1.0

  /** One lot of shares minted by one deposit. */
  datatype Share = Share(id: string, owner: string, amount: real, mintedAt: int, currentValue: real, locked: bool)

  /** Why a rebalance happened; the source renders these as text (the major
      case names the asset and its change to one decimal). */
  datatype Reason = MajorReallocation(asset: string, change: real) | YieldOptimization | RoutineRebalance

  datatype RebalanceEvent = RebalanceEvent(
    id: string,
    timestamp: int,
    previousAllocations: Record<real>,
    newAllocations: Record<Number>,
    reason: Reason,
    gasUsed: real,
    yieldGenerated: real)

  datatype CompoundEvent = CompoundEvent(
    id: string,
    timestamp: int,
    amount: real,
    newShareValue: real,
    apy: real,
    totalShares: real)

  // ---------------------------------------------------------------------
  // Share lots and FIFO consumption
  // ---------------------------------------------------------------------

  /** The share balance a list of lots adds up to. */
  function LotSum(lots: seq<Share>): real {
    if lots == [] then 0.0 else lots[0].amount + LotSum(lots[1..])
  }

  /** `shares.get(owner) || []` */
  function OwnerLots(m: map<string, seq<Share>>, owner: string): seq<Share> {
    if owner in m then m[owner] else []
  }

  /** What remains of `lots` after taking `remaining` shares oldest-first:
      fully covered lots are dropped, the first lot that is larger than what
      is still owed is reduced by it, and everything after it is kept. */
  function Consume(lots: seq<Share>, remaining: real): seq<Share> {
    if lots == [] then []
    else if remaining <= 0.0 then lots
    else if lots[0].amount <= remaining then Consume(lots[1..], remaining - lots[0].amount)
    else [lots[0].(amount := lots[0].amount - remaining)] + lots[1..]
  }

  predicate AllPositive(lots: seq<Share>) {
    forall i :: 0 <= i < |lots| ==> lots[i].amount > 0.0
  }

  /** Withdrawing an amount the owner holds lowers the owner's balance by
      exactly that amount. */
  lemma {:induction false} ConsumeSum(lots: seq<Share>, remaining: real)
    requires 0.0 <= remaining <= LotSum(lots)
    ensures LotSum(Consume(lots, remaining)) == LotSum(lots) - remaining
  {
    if lots != [] && remaining > 0.0 && lots[0].amount <= remaining {
      ConsumeSum(lots[1..], remaining - lots[0].amount);
    }
  }

  /** The FIFO shape: the surviving lots are a suffix of the original list
      whose first lot alone may be reduced, and reduced lots stay positive. */
  lemma ConsumeShape(lots: seq<Share>, remaining: real)
    requires AllPositive(lots)
    ensures var c := Consume(lots, remaining); var k := |lots| - |c|;
      && |c| <= |lots|
      && (forall i :: 0 < i < |c| ==> c[i] == lots[k + i])
      && (c != [] ==> c[0] == lots[k].(amount := c[0].amount) && 0.0 < c[0].amount <= lots[k].amount)
      && (remaining <= 0.0 ==> c == lots)
      && AllPositive(c)
  {
    ConsumeSuffix(lots, remaining);
    ConsumePositive(lots, remaining);
    if remaining <= 0.0 {
      ConsumeNothing(lots, remaining);
    }
  }

  lemma {:induction false} ConsumeSuffix(lots: seq<Share>, remaining: real)
    ensures var c := Consume(lots, remaining); var k := |lots| - |c|;
      && |c| <= |lots|
      && (forall i :: 0 < i < |c| ==> c[i] == lots[k + i])
      && (c != [] ==> c[0] == lots[k].(amount := c[0].amount) && c[0].amount <= lots[k].amount)
  {
    var c := Consume(lots, remaining);
    if lots == [] || remaining <= 0.0 {
    } else if lots[0].amount <= remaining {
      var rest, owed := lots[1..], remaining - lots[0].amount;
      ConsumeSuffix(rest, owed);
      assert c == Consume(rest, owed);
      var k := |lots| - |c|;
      forall i | 0 <= i < |c|
        ensures c[i] == lots[k + i] || i == 0
      {
        assert rest[k - 1 + i] == lots[k + i];
      }
      if c != [] {
        assert rest[k - 1] == lots[k];
      }
    } else {
      assert c == [lots[0].(amount := lots[0].amount - remaining)] + lots[1..];
    }
  }

  lemma {:induction false} ConsumePositive(lots: seq<Share>, remaining: real)
    requires AllPositive(lots)
    ensures AllPositive(Consume(lots, remaining))
  {
    if lots != [] && remaining > 0.0 {
      if lots[0].amount <= remaining {
        assert AllPositive(lots[1..]);
        ConsumePositive(lots[1..], remaining - lots[0].amount);
      } else {
        var c := Consume(lots, remaining);
        assert c == [lots[0].(amount := lots[0].amount - remaining)] + lots[1..];
        assert forall i :: 0 < i < |c| ==> c[i] == lots[i];
      }
    }
  }

  /** The sum of every owner's lots. */
  ghost function TotalLots(m: map<string, seq<Share>>): real
    decreases |m|
  {
    if m == map[] then 0.0
    else
      var k :| k in m;
      LotSum(m[k]) + TotalLots(m - {k})
  }

  /** The total does not depend on which owner is taken first. */
  lemma {:induction false} TotalLotsRemove(m: map<string, seq<Share>>, k: string)
    requires k in m
    ensures TotalLots(m) == LotSum(m[k]) + TotalLots(m - {k})
    decreases |m|
  {
    var j :| j in m && TotalLots(m) == LotSum(m[j]) + TotalLots(m - {j});
    if j != k {
      var mj, mk := m - {j}, m - {k};
      TotalLotsRemove(mj, k);
      TotalLotsRemove(mk, j);
      assert mj - {k} == mk - {j};
    }
  }

  /** Replacing one owner's lots changes the total by the difference. */
  lemma TotalLotsUpdate(m: map<string, seq<Share>>, k: string, lots: seq<Share>)
    ensures TotalLots(m[k := lots]) == TotalLots(m) - LotSum(OwnerLots(m, k)) + LotSum(lots)
  {
    var m' := m[k := lots];
    TotalLotsRemove(m', k);
    assert m' - {k} == m - {k};
    if k in m {
      TotalLotsRemove(m, k);
    } else {
      assert m - {k} == m;
    }
  }

  // ---------------------------------------------------------------------
  // Rebalance: scores, capped allocations, normalisation
  // ---------------------------------------------------------------------

  /** The simulated momentum `(Math.random() - 0.5) * 0.1`. */
  function PriceChange(draw: real): real { (draw - 0.5) * 0.1 }

  lemma PriceChangeBounds(draw: real)
    requires IsDraw(draw)
    ensures -0.05 <= PriceChange(draw) < 0.05
  {
  }

  /** `Math.max(0, yield * (1 + priceChange * 0.1))` */
  function Score(yieldPct: real, draw: real): real {
    Max(0.0, yieldPct * (1.0 + PriceChange(draw) * 0.1))
  }

  function Scores(targetYields: Record<real>, draws: seq<real>): Record<real>
    requires |draws| >= |targetYields|
  {
    seq(|targetYields|, i requires 0 <= i < |targetYields| =>
      Entry(targetYields[i].key, Score(targetYields[i].value, draws[i])))
  }

  /** One asset's share of the total score in percent, capped at 80 and
      rounded to two decimals; 0/0 is NaN. */
  function CappedAllocation(score: real, totalScore: real): Number {
    if totalScore == 0.0 then NaN
    else Finite(Round2(Min(score / totalScore * 100.0, MaxAllocation * 100.0)))
  }

  function CappedWith(scores: Record<real>, totalScore: real): Record<Number> {
    seq(|scores|, i requires 0 <= i < |scores| => Entry(scores[i].key, CappedAllocation(scores[i].value, totalScore)))
  }

  function Capped(scores: Record<real>): Record<Number> {
    CappedWith(scores, SumValues(scores))
  }

  /** JavaScript addition on numbers: NaN absorbs. */
  function AddNumber(a: Number, b: Number): Number {
    if a.NaN? || b.NaN? then NaN else Finite(a.value + b.value)
  }

  /** The sum of the allocations, accumulating from the first entry. */
  function SumNumbers(r: Record<Number>): Number {
    if r == [] then Finite(0.0) else AddNumber(SumNumbers(r[..|r| - 1]), r[|r| - 1].value)
  }

  /** `(a / total) * 100`, where a zero total only occurs with a zero
      numerator (see CappedTotalZero), so 0/0 gives NaN. */
  function Percent(a: Number, total: Number): Number {
    if a.NaN? || total.NaN? || total.value == 0.0 then NaN else Finite(a.value / total.value * 100.0)
  }

  function NormaliseWith(r: Record<Number>, total: Number): Record<Number> {
    seq(|r|, i requires 0 <= i < |r| => Entry(r[i].key, Percent(r[i].value, total)))
  }

  function Normalised(r: Record<Number>): Record<Number> {
    NormaliseWith(r, SumNumbers(r))
  }

  /** The allocations a rebalance proposes for the given yields. */
  function NewAllocations(targetYields: Record<real>, draws: seq<real>): Record<Number>
    requires |draws| >= |targetYields|
  {
    Normalised(Capped(Scores(targetYields, draws)))
  }

  /** The allocation keys are exactly the yield keys, in the same order. */
  lemma NewAllocationKeys(targetYields: Record<real>, draws: seq<real>)
    requires |draws| >= |targetYields|
    ensures Keys(NewAllocations(targetYields, draws)) == Keys(targetYields)
  {
  }

  lemma ScoresNonNegative(targetYields: Record<real>, draws: seq<real>)
    requires |draws| >= |targetYields|
    ensures forall i :: 0 <= i < |targetYields| ==> Scores(targetYields, draws)[i].value >= 0.0
  {
  }

  /** Rounding a percentage in [0, 80] stays in [0, 80]. */
  lemma Round2InCap(x: real)
    requires 0.0 <= x <= MaxAllocation * 100.0
    ensures 0.0 <= Round2(x) <= MaxAllocation * 100.0
  {
    assert (x * 100.0 + 0.5).Floor <= 8000;
    assert (x * 100.0 + 0.5).Floor >= 0;
  }

  /** Every score is non-negative and every allocation before normalisation
      is NaN (when all scores are zero) or lies in [0, 80]. */
  lemma CappedBounds(targetYields: Record<real>, draws: seq<real>)
    requires |draws| >= |targetYields|
    ensures var s := Scores(targetYields, draws);
      && (forall i :: 0 <= i < |s| ==> s[i].value >= 0.0)
      && (forall i :: 0 <= i < |s| ==> (Capped(s)[i].value.NaN? <==> SumValues(s) == 0.0))
      && (forall i :: 0 <= i < |s| && Capped(s)[i].value.Finite? ==>
            0.0 <= Capped(s)[i].value.value <= MaxAllocation * 100.0)
  {
    var s := Scores(targetYields, draws);
    ScoresNonNegative(targetYields, draws);
    SumValuesNonNegative(s);
    var t := SumValues(s);
    forall i | 0 <= i < |s| && t != 0.0
      ensures 0.0 <= Round2(Min(s[i].value / t * 100.0, MaxAllocation * 100.0)) <= MaxAllocation * 100.0
    {
      assert s[i].value / t >= 0.0;
      Round2InCap(Min(s[i].value / t * 100.0, MaxAllocation * 100.0));
    }
  }

  lemma {:induction false} SumNumbersFinite(r: Record<Number>)
    requires SumNumbers(r).Finite?
    ensures forall i :: 0 <= i < |r| ==> r[i].value.Finite?
  {
    if r != [] {
      SumNumbersFinite(r[..|r| - 1]);
      assert forall i :: 0 <= i < |r| - 1 ==> r[..|r| - 1][i] == r[i];
    }
  }

  /** The real values of a record whose entries are all finite. */
  function RealsOf(r: Record<Number>): (rs: Record<real>)
    requires forall i :: 0 <= i < |r| ==> r[i].value.Finite?
    ensures |rs| == |r| && forall i :: 0 <= i < |r| ==> rs[i] == Entry(r[i].key, r[i].value.value)
  {
    seq(|r|, i requires 0 <= i < |r| => Entry(r[i].key, r[i].value.value))
  }

  lemma {:induction false} SumPrefixAgree(c: Record<Number>, cr: Record<real>, n: nat)
    requires |c| == |cr| && n <= |c|
    requires forall i :: 0 <= i < |c| ==> c[i].value == Finite(cr[i].value)
    ensures SumNumbers(c[..n]) == Finite(SumValues(cr[..n]))
  {
    if n > 0 {
      SumPrefixAgree(c, cr, n - 1);
      assert c[..n][..n - 1] == c[..n - 1];
      assert cr[..n][..n - 1] == cr[..n - 1];
    }
  }

  /** Without NaN entries the JavaScript sum is the real sum. */
  lemma SumNumbersAsReals(r: Record<Number>)
    requires forall i :: 0 <= i < |r| ==> r[i].value.Finite?
    ensures SumNumbers(r) == Finite(SumValues(RealsOf(r)))
  {
    SumPrefixAgree(r, RealsOf(r), |r|);
    assert r[..|r|] == r && RealsOf(r)[..|r|] == RealsOf(r);
  }

  /** A rounded total of zero comes only from allocations that are all zero,
      so normalisation divides 0 by 0 (NaN) and never a non-zero value by 0. */
  lemma CappedTotalZero(targetYields: Record<real>, draws: seq<real>)
    requires |draws| >= |targetYields|
    requires SumNumbers(Capped(Scores(targetYields, draws))) == Finite(0.0)
    ensures forall i :: 0 <= i < |targetYields| ==> Capped(Scores(targetYields, draws))[i].value == Finite(0.0)
  {
    var c := Capped(Scores(targetYields, draws));
    CappedBounds(targetYields, draws);
    SumNumbersFinite(c);
    SumNumbersAsReals(c);
    SumValuesNonNegative(RealsOf(c));
  }

  /** Scaling finite entries by 100/total scales their sum the same way. */
  lemma {:induction false} SumNormalised(r: Record<Number>, total: real)
    requires total != 0.0
    requires forall i :: 0 <= i < |r| ==> r[i].value.Finite?
    ensures SumNumbers(r).Finite?
    ensures SumNumbers(NormaliseWith(r, Finite(total))) == Finite(SumNumbers(r).value / total * 100.0)
  {
    if r != [] {
      var n := |r| - 1;
      var p := r[..n];
      assert forall i :: 0 <= i < n ==> p[i] == r[i];
      SumNormalised(p, total);
      var nr := NormaliseWith(r, Finite(total));
      assert nr[..n] == NormaliseWith(p, Finite(total));
      PercentAdds(SumNumbers(p).value, r[n].value.value, total);
    }
  }

  lemma PercentAdds(a: real, v: real, total: real)
    requires total != 0.0
    ensures a / total * 100.0 + v / total * 100.0 == (a + v) / total * 100.0
  {
    assert a / total + v / total == (a + v) / total;
  }

  /** When the rounded allocations add up to something positive, the final
      allocations add up to exactly 100 and each lies in [0, 100]. */
  lemma NewAllocationsSumTo100(targetYields: Record<real>, draws: seq<real>)
    requires |draws| >= |targetYields|
    requires SumNumbers(Capped(Scores(targetYields, draws))).Finite?
    requires SumNumbers(Capped(Scores(targetYields, draws))).value > 0.0
    ensures SumNumbers(NewAllocations(targetYields, draws)) == Finite(100.0)
    ensures forall i :: 0 <= i < |targetYields| ==>
      NewAllocations(targetYields, draws)[i].value.Finite? &&
      0.0 <= NewAllocations(targetYields, draws)[i].value.value <= 100.0
  {
    var c := Capped(Scores(targetYields, draws));
    var t := SumNumbers(c).value;
    CappedBounds(targetYields, draws);
    SumNumbersFinite(c);
    SumNormalised(c, t);
    PercentAtMost100(t, t);
    SumNumbersAsReals(c);
    SumValuesNonNegative(RealsOf(c));
    forall i | 0 <= i < |c|
      ensures 0.0 <= c[i].value.value / t * 100.0 <= 100.0
    {
      assert RealsOf(c)[i].value == c[i].value.value;
      PercentAtMost100(c[i].value.value, t);
    }
  }

  lemma PercentAtMost100(a: real, t: real)
    requires 0.0 <= a <= t && t > 0.0
    ensures 0.0 <= a / t * 100.0 <= 100.0
    ensures a == t ==> a / t * 100.0 == 100.0
  {
    assert a / t <= 1.0;
  }

  /** The cap of 80 does not survive normalisation: a single asset is
      capped at 80 and then scaled back up to 100. */
  lemma SingleAssetExceedsCap()
    ensures NewAllocations([Entry("XAU", 10.0)], [0.5]) == [Entry("XAU", Finite(100.0))]
  {
    var s := Scores([Entry("XAU", 10.0)], [0.5]);
    assert s == [Entry("XAU", 10.0)];
    assert SumValues(s) == 10.0;
    assert (80.0 * 100.0 + 0.5).Floor == 8000;
    assert Capped(s) == [Entry("XAU", Finite(80.0))];
    assert SumNumbers(Capped(s)) == Finite(80.0);
  }

  // ---------------------------------------------------------------------
  // Yield delta and reason of a rebalance
  // ---------------------------------------------------------------------

  /** `oldAllocations[asset] || 0` */
  function OldAt(before: Record<real>, asset: string): real {
    match Lookup(before, asset)
    case None => 0.0
    case Some(v) => v
  }

  /** `newAllocations[asset] || 0` */
  function NewAt(after: Record<Number>, asset: string): real {
    match Lookup(after, asset)
    case None => 0.0
    case Some(n) => OrElse(n, 0.0)
  }

  /** The two running sums of calculateRebalanceYield, over the yield keys. */
  function YieldSums(before: Record<real>, after: Record<Number>, weights: Record<real>): (real, real) {
    if weights == [] then (0.0, 0.0)
    else
      var n := |weights| - 1;
      var (o, w) := YieldSums(before, after, weights[..n]);
      (o + OldAt(before, weights[n].key) * weights[n].value / 100.0,
       w + NewAt(after, weights[n].key) * weights[n].value / 100.0)
  }

  function RebalanceYield(before: Record<real>, after: Record<Number>, weights: Record<real>): real {
    var (o, w) := YieldSums(before, after, weights);
    w - o
  }

  /** The yield delta, asset by asset. */
  function DeltaYield(before: Record<real>, after: Record<Number>, weights: Record<real>): real {
    if weights == [] then 0.0
    else
      var n := |weights| - 1;
      DeltaYield(before, after, weights[..n])
        + (NewAt(after, weights[n].key) - OldAt(before, weights[n].key)) * weights[n].value / 100.0
  }

  /** The generated yield is the sum of each asset's allocation change
      weighted by its yield. */
  lemma {:induction false} RebalanceYieldIsDelta(before: Record<real>, after: Record<Number>, weights: Record<real>)
    ensures RebalanceYield(before, after, weights) == DeltaYield(before, after, weights)
  {
    if weights != [] {
      var n := |weights| - 1;
      RebalanceYieldIsDelta(before, after, weights[..n]);
      var y := weights[n].value;
      var a, b := NewAt(after, weights[n].key), OldAt(before, weights[n].key);
      assert a * y / 100.0 - b * y / 100.0 == (a - b) * y / 100.0;
    }
  }

  /** No allocation change on the assets that have a yield means no generated yield. */
  lemma {:induction false} RebalanceYieldUnchanged(before: Record<real>, after: Record<Number>, weights: Record<real>)
    requires forall i :: 0 <= i < |weights| ==> NewAt(after, weights[i].key) == OldAt(before, weights[i].key)
    ensures RebalanceYield(before, after, weights) == 0.0
  {
    DeltaZero(before, after, weights);
    RebalanceYieldIsDelta(before, after, weights);
  }

  lemma {:induction false} DeltaZero(before: Record<real>, after: Record<Number>, weights: Record<real>)
    requires forall i :: 0 <= i < |weights| ==> NewAt(after, weights[i].key) == OldAt(before, weights[i].key)
    ensures DeltaYield(before, after, weights) == 0.0
  {
    if weights != [] {
      var n := |weights| - 1;
      assert forall i :: 0 <= i < n ==> weights[..n][i] == weights[i];
      DeltaZero(before, after, weights[..n]);
    }
  }

  /** The absolute change of one asset, `|(new || 0) - (old || 0)|`. */
  function Change(before: Record<real>, e: Entry<Number>): real {
    Abs(OrElse(e.value, 0.0) - OldAt(before, e.key))
  }

  /** The loop of determineRebalanceReason: the first asset with the largest
      strictly positive change, starting from ('', 0). */
  function MaxChange(before: Record<real>, after: Record<Number>): (string, real) {
    if after == [] then ("", 0.0)
    else
      var n := |after| - 1;
      var (asset, best) := MaxChange(before, after[..n]);
      var c := Change(before, after[n]);
      if c > best then (after[n].key, c) else (asset, best)
  }

  function RebalanceReason(before: Record<real>, after: Record<Number>): Reason {
    var (asset, change) := MaxChange(before, after);
    if change > 20.0 then MajorReallocation(asset, change)
    else if change > 10.0 then YieldOptimization
    else RoutineRebalance
  }

  /** The maximum found is at least every change; unless it is 0 it is the
      change of the first entry that reaches it, whose key it reports. */
  lemma {:induction false} MaxChangeSpec(before: Record<real>, after: Record<Number>)
    ensures var (asset, best) := MaxChange(before, after);
      && best >= 0.0
      && (forall i :: 0 <= i < |after| ==> Change(before, after[i]) <= best)
      && (best > 0.0 ==> exists i :: 0 <= i < |after| && after[i].key == asset && Change(before, after[i]) == best
                                    && forall j :: 0 <= j < i ==> Change(before, after[j]) < best)
  {
    if after != [] {
      var n := |after| - 1;
      var p := after[..n];
      MaxChangeSpec(before, p);
      assert forall i :: 0 <= i < n ==> p[i] == after[i];
      var (asset, best) := MaxChange(before, p);
      var c := Change(before, after[n]);
      if c <= best && best > 0.0 {
        var i :| 0 <= i < n && p[i].key == asset && Change(before, p[i]) == best
                && forall j :: 0 <= j < i ==> Change(before, p[j]) < best;
        assert after[i].key == asset && Change(before, after[i]) == best;
      }
    }
  }

  /** The reason is decided by the largest change: above 20 a major
      reallocation naming the first asset with that change, above 10 a yield
      optimisation, otherwise routine. */
  lemma RebalanceReasonSpec(before: Record<real>, after: Record<Number>)
    ensures RebalanceReason(before, after).MajorReallocation? <==>
      exists i :: 0 <= i < |after| && Change(before, after[i]) > 20.0
    ensures RebalanceReason(before, after).YieldOptimization? <==>
      (forall i :: 0 <= i < |after| ==> Change(before, after[i]) <= 20.0) &&
      (exists i :: 0 <= i < |after| && Change(before, after[i]) > 10.0)
    ensures RebalanceReason(before, after).RoutineRebalance? <==>
      forall i :: 0 <= i < |after| ==> Change(before, after[i]) <= 10.0
    ensures RebalanceReason(before, after).MajorReallocation? ==>
      var r := RebalanceReason(before, after);
      exists i :: 0 <= i < |after| && after[i].key == r.asset && Change(before, after[i]) == r.change
        && (forall j :: 0 <= j < |after| ==> Change(before, after[j]) <= r.change)
        && (forall j :: 0 <= j < i ==> Change(before, after[j]) < r.change)
  {
    MaxChangeSpec(before, after);
  }

  /** The record of one rebalance: the input allocations unchanged, the
      proposed allocations (one per yield key, in order), the reason, the
      rebalance gas fee and the yield the move generates. */
  function RebalanceEventOf(env: Env, currentAllocations: Record<real>, targetYields: Record<real>): (ev: RebalanceEvent)
    requires |env.draws| >= |targetYields|
    ensures ev.previousAllocations == currentAllocations
    ensures Keys(ev.newAllocations) == Keys(targetYields)
    ensures ev.gasUsed > 0.0
  {
    var alloc := NewAllocations(targetYields, env.draws);
    RebalanceEvent(env.eventId, env.now, currentAllocations, alloc,
                   RebalanceReason(currentAllocations, alloc),
                   Chain.CalculateGasFee(Chain.RebalanceTx),
                   RebalanceYield(currentAllocations, alloc, targetYields))
  }

  // ---------------------------------------------------------------------
  // Compounding
  // ---------------------------------------------------------------------

  /** `(1 + apy / 365 / 100) * (1 - MANAGEMENT_FEE / 365)` */
  function CompoundFactor(apy: real): real {
    (1.0 + apy / 365.0 / 100.0) * (1.0 - ManagementFee / 365.0)
  }

  /** The record of one compounding: the value added to the whole supply,
      the new share value, the APY used and the supply. */
  function CompoundEventOf(env: Env, previousValue: real, newValue: real, apy: real, supply: real): (ev: CompoundEvent)
    ensures ev.amount > 0.0 <==> (newValue > previousValue && supply > 0.0) || (newValue < previousValue && supply < 0.0)
  {
    CompoundEvent(env.eventId, env.now, (newValue - previousValue) * supply, newValue, apy, supply)
  }

  /** The APY at which the daily yield exactly offsets the daily fee. */
  const BreakEvenApy: real := 182.5 / 364.995

  /** The factor is positive above -36500% APY, grows with the APY, exceeds 1
      exactly above the break-even APY, and at 0% only the fee applies. */
  lemma CompoundFactorSpec(apy: real, apy2: real)
    ensures apy > -36500.0 ==> CompoundFactor(apy) > 0.0
    ensures apy < apy2 ==> CompoundFactor(apy) < CompoundFactor(apy2)
    ensures CompoundFactor(apy) > 1.0 <==> apy > BreakEvenApy
    ensures CompoundFactor(apy) == 1.0 <==> apy == BreakEvenApy
    ensures CompoundFactor(0.0) == 1.0 - ManagementFee / 365.0 < 1.0
  {
  }

  // ---------------------------------------------------------------------
  // The contract object
  // ---------------------------------------------------------------------

  /** Every lot is positive and is stored under its own owner. */
  ghost predicate LotsWellFormed(m: map<string, seq<Share>>) {
    forall o, i :: o in m && 0 <= i < |m[o]| ==> m[o][i].amount > 0.0 && m[o][i].owner == o
  }

  /** A withdrawal leaves every owner's lots positive and owned by that owner. */
  lemma WithdrawKeepsLotsWellFormed(m: map<string, seq<Share>>, o: string, amount: real)
    requires LotsWellFormed(m)
    ensures LotsWellFormed(m[o := Consume(OwnerLots(m, o), amount)])
  {
    var lots := OwnerLots(m, o);
    var c := Consume(lots, amount);
    ConsumeShape(lots, amount);
    forall j | 0 <= j < |c|
      ensures c[j].owner == o && c[j].amount > 0.0
    {
      var k := |lots| - |c|;
      assert c[j].owner == lots[k + j].owner;
    }
  }

  class SmartContractService {
    var shares: map<string, seq<Share>>
    var rebalanceHistory: seq<RebalanceEvent>
    var compoundHistory: seq<CompoundEvent>
    var currentShareValue: real
    var totalSupply: real
    var lastRebalance: int
    var lastCompound: int

    ghost predicate Valid()
      reads this`currentShareValue, this`shares
    {
      currentShareValue > 0.0 && LotsWellFormed(shares)
    }

    /** Total supply equals the sum of all lots of all owners. */
    ghost predicate SupplyMatchesLots()
      reads this`totalSupply, this`shares
    {
      totalSupply == TotalLots(shares)
    }

    constructor (now: int)
      ensures Valid() && SupplyMatchesLots()
      ensures shares == map[] && rebalanceHistory == [] && compoundHistory == []
      ensures currentShareValue == InitialShareValue && totalSupply == 0.0
      ensures lastRebalance == now && lastCompound == now
    {
      shares := map[];
      rebalanceHistory := [];
      compoundHistory := [];
      currentShareValue := InitialShareValue;
      totalSupply := 0.0;
      lastRebalance := now;
      lastCompound := now;
    }

    function Balance(owner: string): real
      reads this
    {
      LotSum(OwnerLots(shares, owner))
    }

    /** Total value locked. */
    function GetTVL(): (tvl: real)
      reads this
      ensures SupplyMatchesLots() ==> tvl == TotalLots(shares) * currentShareValue
    {
      totalSupply * currentShareValue
    }

    /** The owner's lots, oldest first; all belong to the owner and are positive. */
    method GetUserShares(owner: string) returns (lots: seq<Share>)
      requires Valid()
      ensures lots == OwnerLots(shares, owner)
      ensures LotSum(lots) == Balance(owner)
      ensures forall i :: 0 <= i < |lots| ==> lots[i].owner == owner && lots[i].amount > 0.0
      ensures owner !in shares ==> lots == []
    {
      lots := OwnerLots(shares, owner);
    }

    /** Mints `amount / currentShareValue` shares for `userAddress` as one new
        lot at the end of the owner's list. */
    method Deposit(amount: real, userAddress: string, chain: Chain.QubicService, env: Env) returns (r: Result<Share>)
      requires Valid()
      modifies this`shares, this`totalSupply, chain`transactions
      ensures Valid()
      ensures r.Failure? ==> shares == old(shares) && totalSupply == old(totalSupply)
                             && chain.transactions == old(chain.transactions)
      ensures amount < MinDeposit ==> r == Failure(InvalidAmount)
      ensures amount >= MinDeposit && old(chain.wallet).None? ==> r == Failure(WalletNotConnected)
      ensures amount >= MinDeposit && old(chain.wallet).Some? ==>
        && r == Success(Share(env.eventId, userAddress, amount / currentShareValue, env.now, amount, false))
        && shares == old(shares)[userAddress := OwnerLots(old(shares), userAddress) + [r.value]]
        && totalSupply == old(totalSupply) + amount / currentShareValue
        && chain.transactions == old(chain.transactions) +
             [Chain.PendingTx(old(chain.wallet).value.address, Chain.ContractAddress, Chain.DepositTx, amount, env)]
      ensures r.Success? ==> Balance(userAddress) == old(Balance(userAddress)) + r.value.amount
      ensures old(SupplyMatchesLots()) ==> SupplyMatchesLots()
    {
      if amount < MinDeposit {
        return Failure(InvalidAmount);
      }
      var tx := chain.ExecuteTransaction(Chain.DepositTx, amount, None, env);
      if tx.Failure? {
        return Failure(tx.error);
      }
      var sharesToMint := amount / currentShareValue;
      var share := Share(env.eventId, userAddress, sharesToMint, env.now, amount, false);
      var lots := OwnerLots(shares, userAddress);
      ghost var oldShares := shares;
      shares := shares[userAddress := lots + [share]];
      totalSupply := totalSupply + sharesToMint;
      TotalLotsUpdate(oldShares, userAddress, lots + [share]);
      LotSumAppend(lots, share);
      r := Success(share);
    }

    /** Burns `shareAmount` shares of `userAddress`, oldest lots first, and
        returns their value in QX. */
    method Withdraw(shareAmount: real, userAddress: string, chain: Chain.QubicService, env: Env) returns (r: Result<real>)
      requires Valid()
      modifies this`shares, this`totalSupply, chain`transactions
      ensures Valid()
      ensures r.Failure? ==> shares == old(shares) && totalSupply == old(totalSupply)
                             && chain.transactions == old(chain.transactions)
      ensures old(Balance(userAddress)) < shareAmount ==> r == Failure(InsufficientShares)
      ensures old(Balance(userAddress)) >= shareAmount && old(chain.wallet).None? ==> r == Failure(WalletNotConnected)
      ensures old(Balance(userAddress)) >= shareAmount && old(chain.wallet).Some? ==>
        r == Success(shareAmount * old(currentShareValue))
      ensures old(Balance(userAddress)) >= shareAmount && old(chain.wallet).Some? ==>
        shares == old(shares)[userAddress := Consume(OwnerLots(old(shares), userAddress), shareAmount)]
      ensures old(Balance(userAddress)) >= shareAmount && old(chain.wallet).Some? ==>
        totalSupply == old(totalSupply) - shareAmount
      ensures old(Balance(userAddress)) >= shareAmount && old(chain.wallet).Some? ==>
        chain.transactions == old(chain.transactions) +
          [Chain.PendingTx(old(chain.wallet).value.address, Chain.ContractAddress, Chain.WithdrawTx,
                           shareAmount * old(currentShareValue), env)]
      ensures r.Success? && shareAmount >= 0.0 ==> Balance(userAddress) == old(Balance(userAddress)) - shareAmount
      ensures shareAmount >= 0.0 && old(SupplyMatchesLots()) ==> SupplyMatchesLots()
    {
      var userShares := OwnerLots(shares, userAddress);
      var totalUserShares := LotSum(userShares);
      if totalUserShares < shareAmount {
        return Failure(InsufficientShares);
      }
      var qxAmount := shareAmount * currentShareValue;
      var tx := chain.ExecuteTransaction(Chain.WithdrawTx, qxAmount, None, env);
      if tx.Failure? {
        return Failure(tx.error);
      }
      var updatedShares := WithdrawFifo(userShares, shareAmount);
      ghost var oldShares := shares;
      shares := shares[userAddress := updatedShares];
      totalSupply := totalSupply - shareAmount;
      TotalLotsUpdate(oldShares, userAddress, updatedShares);
      WithdrawKeepsLotsWellFormed(oldShares, userAddress, shareAmount);
      if shareAmount >= 0.0 {
        ConsumeSum(userShares, shareAmount);
      }
      r := Success(qxAmount);
    }

    /** The FIFO loop of a withdrawal: lots are consumed oldest first; a lot
        only partly needed is kept with its amount reduced. */
    static method WithdrawFifo(userShares: seq<Share>, shareAmount: real) returns (updatedShares: seq<Share>)
      ensures updatedShares == Consume(userShares, shareAmount)
    {
      var remainingToWithdraw := shareAmount;
      updatedShares := [];
      var i := 0;
      FifoFromConsume([], userShares, 0, shareAmount);
      while i < |userShares|
        invariant 0 <= i <= |userShares|
        invariant FifoFrom(updatedShares, userShares, i, remainingToWithdraw) == Consume(userShares, shareAmount)
      {
        var share := userShares[i];
        if remainingToWithdraw <= 0.0 {
          updatedShares := updatedShares + [share];
        } else if share.amount <= remainingToWithdraw {
          remainingToWithdraw := remainingToWithdraw - share.amount;
        } else {
          updatedShares := updatedShares + [share.(amount := share.amount - remainingToWithdraw)];
          remainingToWithdraw := 0.0;
        }
        i := i + 1;
      }
    }

    /** The scores of all assets and their sum. */
    static method ScoreAssets(targetYields: Record<real>, draws: seq<real>) returns (scores: Record<real>, totalScore: real)
      requires |draws| >= |targetYields|
      ensures scores == Scores(targetYields, draws)
      ensures totalScore == SumValues(scores)
    {
      scores := [];
      totalScore := 0.0;
      var i := 0;
      while i < |targetYields|
        invariant 0 <= i <= |targetYields|
        invariant |scores| == i
        invariant forall k :: 0 <= k < i ==> scores[k] == Entry(targetYields[k].key, Score(targetYields[k].value, draws[k]))
        invariant totalScore == SumValues(scores)
      {
        var score := Score(targetYields[i].value, draws[i]);
        var before := scores;
        scores := scores + [Entry(targetYields[i].key, score)];
        assert scores[..|scores| - 1] == before;
        totalScore := totalScore + score;
        i := i + 1;
      }
    }

    /** The capped, rounded allocations and their sum. */
    static method CapAllocations(scores: Record<real>, totalScore: real) returns (allocations: Record<Number>, totalAllocation: Number)
      ensures allocations == CappedWith(scores, totalScore)
      ensures totalAllocation == SumNumbers(allocations)
    {
      allocations := [];
      totalAllocation := Finite(0.0);
      var i := 0;
      while i < |scores|
        invariant 0 <= i <= |scores|
        invariant allocations == CappedWith(scores[..i], totalScore)
        invariant totalAllocation == SumNumbers(allocations)
      {
        var a := CappedAllocation(scores[i].value, totalScore);
        var before := allocations;
        allocations := allocations + [Entry(scores[i].key, a)];
        assert allocations[..|allocations| - 1] == before;
        totalAllocation := AddNumber(totalAllocation, a);
        i := i + 1;
      }
      assert scores[..|scores|] == scores;
    }

    /** Each allocation divided by the total, in percent. */
    static method Normalise(allocations: Record<Number>, totalAllocation: Number) returns (result: Record<Number>)
      ensures result == NormaliseWith(allocations, totalAllocation)
    {
      result := [];
      var i := 0;
      while i < |allocations|
        invariant 0 <= i <= |allocations|
        invariant result == NormaliseWith(allocations[..i], totalAllocation)
      {
        result := result + [Entry(allocations[i].key, Percent(allocations[i].value, totalAllocation))];
        i := i + 1;
      }
      assert allocations[..|allocations|] == allocations;
    }

    /** Computes new allocations from the yields, records the event, then
        logs the contract call, which fails without a wallet (the event stays
        recorded). The oracle prices are not used by the source. */
    method Rebalance(currentAllocations: Record<real>, oraclePrices: Record<real>, targetYields: Record<real>,
                     chain: Chain.QubicService, env: Env) returns (r: Result<RebalanceEvent>)
      requires |env.draws| >= |targetYields|
      modifies this`rebalanceHistory, this`lastRebalance, chain`transactions
      ensures var ev := RebalanceEventOf(env, currentAllocations, targetYields);
        && rebalanceHistory == old(rebalanceHistory) + [ev]
        && lastRebalance == env.now
        && (old(chain.wallet).Some? ==>
              && r == Success(ev)
              && chain.transactions == old(chain.transactions) +
                   [Chain.PendingTx(old(chain.wallet).value.address, Chain.ContractAddress, Chain.RebalanceTx, 0.0, env)])
        && (old(chain.wallet).None? ==> r == Failure(WalletNotConnected) && chain.transactions == old(chain.transactions))
    {
      var scores, totalScore := ScoreAssets(targetYields, env.draws);
      var allocations, totalAllocation := CapAllocations(scores, totalScore);
      var newAllocations := Normalise(allocations, totalAllocation);
      var event := RebalanceEvent(env.eventId, env.now, currentAllocations, newAllocations,
                                  RebalanceReason(currentAllocations, newAllocations),
                                  Chain.CalculateGasFee(Chain.RebalanceTx),
                                  RebalanceYield(currentAllocations, newAllocations, targetYields));
      rebalanceHistory := rebalanceHistory + [event];
      lastRebalance := env.now;
      var tx := chain.ExecuteTransaction(Chain.RebalanceTx, 0.0, None, env);
      if tx.Failure? {
        return Failure(tx.error);
      }
      r := Success(event);
    }

    /** Applies one day of yield net of the management fee to the share
        value, once 24 hours have passed since the last compound, records the
        event, then logs the contract call, which fails without a wallet (the
        new share value and the event stay recorded). */
    method Compound(currentApy: real, chain: Chain.QubicService, env: Env) returns (r: Result<CompoundEvent>)
      requires Valid()
      requires currentApy > -36500.0
      modifies this`currentShareValue, this`compoundHistory, this`lastCompound, chain`transactions
      ensures Valid()
      ensures ((env.now - old(lastCompound)) as real) / 1000.0 < CompoundInterval ==>
        && r == Failure(IntervalNotElapsed)
        && currentShareValue == old(currentShareValue) && compoundHistory == old(compoundHistory)
        && lastCompound == old(lastCompound) && chain.transactions == old(chain.transactions)
      ensures ((env.now - old(lastCompound)) as real) / 1000.0 >= CompoundInterval ==>
        var ev := CompoundEventOf(env, old(currentShareValue), currentShareValue, currentApy, totalSupply);
        && currentShareValue == old(currentShareValue) * CompoundFactor(currentApy)
        && compoundHistory == old(compoundHistory) + [ev]
        && lastCompound == env.now
        && (old(chain.wallet).Some? ==>
              && r == Success(ev)
              && chain.transactions == old(chain.transactions) +
                   [Chain.PendingTx(old(chain.wallet).value.address, Chain.ContractAddress, Chain.CompoundTx, 0.0, env)])
        && (old(chain.wallet).None? ==> r == Failure(WalletNotConnected) && chain.transactions == old(chain.transactions))
    {
      var timeSinceLastCompound := ((env.now - lastCompound) as real) / 1000.0;
      if timeSinceLastCompound < CompoundInterval {
        return Failure(IntervalNotElapsed);
      }
      var previousValue := currentShareValue;
      // daily rate apy/365/100, then the daily share of the management fee
      var feeAdjustedFactor := CompoundFactor(currentApy);
      CompoundFactorSpec(currentApy, currentApy);
      PositiveProduct(previousValue, feeAdjustedFactor);
      currentShareValue := previousValue * feeAdjustedFactor;
      var event := CompoundEventOf(env, previousValue, currentShareValue, currentApy, totalSupply);
      compoundHistory := compoundHistory + [event];
      lastCompound := env.now;
      var tx := chain.ExecuteTransaction(Chain.CompoundTx, 0.0, None, env);
      if tx.Failure? {
        return Failure(tx.error);
      }
      r := Success(event);
    }
  }

  lemma {:induction false} LotSumAppend(lots: seq<Share>, s: Share)
    ensures LotSum(lots + [s]) == LotSum(lots) + s.amount
  {
    if lots != [] {
      assert (lots + [s])[1..] == lots[1..] + [s];
      LotSumAppend(lots[1..], s);
    }
  }

  lemma PositiveProduct(a: real, b: real)
    requires a > 0.0 && b > 0.0
    ensures a * b > 0.0
  {
  }

  /** The FIFO loop's result from lot `i` on, given the lots kept so far and
      the amount still owed. */
  function FifoFrom(kept: seq<Share>, lots: seq<Share>, i: nat, remaining: real): seq<Share>
    requires i <= |lots|
    decreases |lots| - i
  {
    if i == |lots| then kept
    else if remaining <= 0.0 then FifoFrom(kept + [lots[i]], lots, i + 1, remaining)
    else if lots[i].amount <= remaining then FifoFrom(kept, lots, i + 1, remaining - lots[i].amount)
    else FifoFrom(kept + [lots[i].(amount := lots[i].amount - remaining)], lots, i + 1, 0.0)
  }

  /** Running the loop from lot `i` appends the consumption of the remaining
      lots to what was kept. */
  lemma {:induction false} FifoFromConsume(kept: seq<Share>, lots: seq<Share>, i: nat, remaining: real)
    requires i <= |lots|
    ensures FifoFrom(kept, lots, i, remaining) == kept + Consume(lots[i..], remaining)
    decreases |lots| - i
  {
    if i == |lots| {
      assert lots[i..] == [];
    } else {
      assert lots[i..][1..] == lots[i + 1..];
      if remaining <= 0.0 {
        FifoFromConsume(kept + [lots[i]], lots, i + 1, remaining);
        ConsumeNothing(lots[i..], remaining);
        ConsumeNothing(lots[i + 1..], remaining);
        assert lots[i..] == [lots[i]] + lots[i + 1..];
      } else if lots[i].amount <= remaining {
        FifoFromConsume(kept, lots, i + 1, remaining - lots[i].amount);
      } else {
        FifoFromConsume(kept + [lots[i].(amount := lots[i].amount - remaining)], lots, i + 1, 0.0);
        ConsumeNothing(lots[i + 1..], 0.0);
      }
    }
  }

  lemma ConsumeNothing(lots: seq<Share>, remaining: real)
    requires remaining <= 0.0
    ensures Consume(lots, remaining) == lots
  {
  }

  /** Compounding raises the value of the outstanding supply exactly when
      the factor exceeds 1. */
  lemma CompoundAmountSign(previousValue: real, apy: real, supply: real)
    requires previousValue > 0.0 && supply > 0.0
    ensures var amount := (previousValue * CompoundFactor(apy) - previousValue) * supply;
      (amount > 0.0 <==> apy > BreakEvenApy) && (amount == 0.0 <==> apy == BreakEvenApy)
  {
    CompoundFactorSpec(apy, apy);
    var f := CompoundFactor(apy);
    assert previousValue * f - previousValue == previousValue * (f - 1.0);
    var d := previousValue * (f - 1.0);
    assert d > 0.0 <==> f > 1.0;
    assert d == 0.0 <==> f == 1.0;
    assert d * supply > 0.0 <==> d > 0.0;
    assert d * supply == 0.0 <==> d == 0.0;
  }
}
