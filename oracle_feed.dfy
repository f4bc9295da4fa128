/** The demo-mode oracle tick of the dashboard's oracle panel: every two
    seconds one randomly chosen asset takes a random step of at most 1% of
    its price, and its 24 h change absorbs the move, clamped to [-10, 10]. */
module OracleFeed {
  import opened Common
  import Store

  const MinPrice: real := 0.01
  const ChangeLimit: real := 10.0

  function Clamp(x: real, lo: real, hi: real): real {
    Max(lo, Min(hi, x))
  }

  /** `Math.floor(Math.random() * oracleData.length)`. */
  function TickIndex(d: real, n: nat): (k: int)
    requires IsDraw(d)
    ensures n > 0 ==> 0 <= k < n
    ensures n == 0 ==> k == 0
  {
    assert 0.0 <= d * n as real < n as real || n == 0 by {
      if n > 0 {
        assert d * n as real < 1.0 * n as real;
      }
    }
    (d * n as real).Floor
  }

  /** The raw step `(Math.random() - 0.5) * 0.02 * price`. */
  function PriceStep(price: real, d: real): real {
    (d - 0.5) * 0.02 * price
  }

  /** The tick of one asset: floored new price, clamped change, new time. */
  function TickAsset(a: Store.OracleAsset, d: real, now: int): Store.OracleAsset
    requires a.price != 0.0
  {
    var newPrice := Max(MinPrice, a.price + PriceStep(a.price, d));
    var newChange := (newPrice - a.price) / a.price * 100.0 + a.change24h;
    a.(price := newPrice, change24h := Clamp(newChange, -ChangeLimit, ChangeLimit), lastUpdate := now)
  }

  /** The whole tick: only the asset at the drawn index changes. */
  function FeedTick(data: seq<Store.OracleAsset>, indexDraw: real, stepDraw: real, now: int): seq<Store.OracleAsset>
    requires IsDraw(indexDraw) && Store.PricesPositive(data)
  {
    var k := TickIndex(indexDraw, |data|);
    seq(|data|, i requires 0 <= i < |data| => if i == k then TickAsset(data[i], stepDraw, now) else data[i])
  }

  /** A draw in [0, 1) moves a positive price by at most 1% either way. */
  lemma PriceStepBound(price: real, d: real)
    requires price > 0.0 && IsDraw(d)
    ensures -0.01 * price <= PriceStep(price, d) <= 0.01 * price
  {
    assert -0.5 <= d - 0.5 < 0.5;
    assert (d - 0.5) * 0.02 * price == (d - 0.5) * (0.02 * price);
  }

  /** The tick keeps the list's length and order, changes only the element at
      the drawn index, keeps that asset's identity, yield, allocation and
      category, floors its price at 0.01 and clamps its change to
      [-10, 10]. */
  lemma FeedTickSpec(data: seq<Store.OracleAsset>, indexDraw: real, stepDraw: real, now: int)
    requires IsDraw(indexDraw) && IsDraw(stepDraw) && Store.PricesPositive(data)
    ensures var r := FeedTick(data, indexDraw, stepDraw, now);
      var k := TickIndex(indexDraw, |data|);
      && |r| == |data|
      && (forall i :: 0 <= i < |data| && i != k ==> r[i] == data[i])
      && (data != [] ==>
            var a := data[k];
            var newPrice := Max(MinPrice, a.price + PriceStep(a.price, stepDraw));
            && r[k].price == newPrice >= MinPrice
            && r[k].change24h == Clamp((newPrice - a.price) / a.price * 100.0 + a.change24h, -ChangeLimit, ChangeLimit)
            && -ChangeLimit <= r[k].change24h <= ChangeLimit
            && r[k].lastUpdate == now
            && r[k] == a.(price := r[k].price, change24h := r[k].change24h, lastUpdate := now))
      && Store.PricesPositive(r)
      && Store.Apy(r) == Store.Apy(data)
  {
    var r := FeedTick(data, indexDraw, stepDraw, now);
    Store.ApySameWeights(r, data);
  }

  /** When the step does not hit the 0.01 floor, the change before clamping
      is exactly the percentage step, within one point of the old change. */
  lemma UnflooredChange(a: Store.OracleAsset, d: real, now: int)
    requires a.price > 0.0 && IsDraw(d) && a.price + PriceStep(a.price, d) >= MinPrice
    ensures var newChange := (Max(MinPrice, a.price + PriceStep(a.price, d)) - a.price) / a.price * 100.0 + a.change24h;
      && newChange == (d - 0.5) * 2.0 + a.change24h
      && a.change24h - 1.0 <= newChange <= a.change24h + 1.0
  {
    var step := PriceStep(a.price, d);
    var f := (d - 0.5) * 0.02;
    assert step == f * a.price;
    assert step / a.price == f;
    assert f * 100.0 == (d - 0.5) * 2.0;
  }
}
