/** The arithmetic of the costing calculator, shared by the three costing
    components: line-item sums, the funder average price, profit amount and
    profit percentage. Amounts are exact reals; the components' intermediate
    `toFixed(2)` rounding is not modelled. */
module CostingMath {
  import opened Wrappers
  import opened FieldVisibility

  const NORMAL_BEAD: string := "Normal_Bead__c"
  const INNOVATION_BEAD: string := "Innovation_Bead__c"
  const MECHANICAL_VENTS: string := "Mechanical_Vents__c"

  /** The `costingDetails` record fetched from the server: a numeric price per
      line-item field, and the `Funder__c` reference passed through on save. */
  datatype CostingDetails = CostingDetails(prices: map<string, real>, funder: Option<string>)

  /** The record before any data has arrived: `costingDetails = {}`. */
  const NoDetails: CostingDetails := CostingDetails(map[], None)

  /** `parseFloat(costingDetails[field]) || 0`: a missing price reads as 0. */
  function Price(prices: map<string, real>, field: string): (r: real)
    ensures field in prices ==> r == prices[field]
    ensures field !in prices ==> r == 0.0
  {
    if field in prices then prices[field] else 0.0
  }

  /** The raw catalogue value `costingDetails[field]`, `None` when absent. */
  function Lookup(prices: map<string, real>, field: string): (r: Option<real>)
    ensures r.Some? <==> field in prices
    ensures r.Some? ==> r.value == prices[field]
  {
    if field in prices then Some(prices[field]) else None
  }

  /** What one key contributes to the sum loop: its price when it is selected
      and not one of the excluded keys. */
  function Term(d: Dict, prices: map<string, real>, skip: set<string>, field: string): (r: real)
    ensures d.IsOn(field) && field !in skip ==> r == Price(prices, field)
    ensures !d.IsOn(field) || field in skip ==> r == 0.0
  {
    if d.IsOn(field) && field !in skip then Price(prices, field) else 0.0
  }

  /** The value of the `total` accumulator after the loop has visited `keys`;
      before any checkbox has been set it is 0. */
  function ItemsSum(keys: seq<string>, d: Dict, prices: map<string, real>, skip: set<string>): (r: real)
    ensures d.on == map[] ==> r == 0.0
    decreases |keys|
  {
    if keys == [] then 0.0
    else ItemsSum(keys[..|keys| - 1], d, prices, skip) + Term(d, prices, skip, keys[|keys| - 1])
  }

  /** The sum loop over all keys of `fieldVisibility`; the initial `{}` sums to 0. */
  function VisibleSum(d: Dict, prices: map<string, real>, skip: set<string>): (r: real)
    ensures d.on == map[] ==> r == 0.0
  {
    ItemsSum(d.order, d, prices, skip)
  }

  /** The vents contribution of the main calculator: quantity times unit
      price, only when vents are selected and the quantity is positive. */
  function VentsCost(d: Dict, prices: map<string, real>, vents: real): (r: real)
    ensures d.IsOn(MECHANICAL_VENTS) && vents > 0.0 ==> r == vents * Price(prices, MECHANICAL_VENTS)
    ensures !(d.IsOn(MECHANICAL_VENTS) && vents > 0.0) ==> r == 0.0
  {
    if d.IsOn(MECHANICAL_VENTS) && vents > 0.0 then vents * Price(prices, MECHANICAL_VENTS) else 0.0
  }

  /** `totalCost` of sCIS_Costing and sCIS_CostingTest: the selected flat-priced
      items, with the vents unit price left out of the loop, plus the vents. */
  function CostingTotal(d: Dict, prices: map<string, real>, vents: real): (r: real)
    ensures d.IsOn(MECHANICAL_VENTS) && vents > 0.0 ==>
              r == VisibleSum(d, prices, {MECHANICAL_VENTS}) + vents * Price(prices, MECHANICAL_VENTS)
    ensures !(d.IsOn(MECHANICAL_VENTS) && vents > 0.0) ==> r == VisibleSum(d, prices, {MECHANICAL_VENTS})
  {
    VisibleSum(d, prices, {MECHANICAL_VENTS}) + VentsCost(d, prices, vents)
  }

  /** `totalCost` of scisFunderCostingTest as written: every selected key,
      the vents unit price included, plus the stored vents cost whether or
      not vents are selected (a stored `NaN` reads as 0). */
  function FunderTotal(d: Dict, prices: map<string, real>, ventsCost: Option<real>): (r: real)
    ensures ventsCost.Some? ==> r == VisibleSum(d, prices, {}) + ventsCost.value
    ensures ventsCost.None? ==> r == VisibleSum(d, prices, {})
  {
    VisibleSum(d, prices, {}) + OrZero(ventsCost)
  }

  ghost predicate Distinct(keys: seq<string>) {
    forall i, j :: 0 <= i < j < |keys| ==> keys[i] != keys[j]
  }

  /** Changing the selection of one key changes the loop's total by exactly
      the change of that key's contribution. */
  lemma {:induction false} ItemsSumUpdate(keys: seq<string>, d: Dict, d': Dict, prices: map<string, real>,
                                          skip: set<string>, field: string)
    requires Distinct(keys)
    requires forall k :: k != field ==> d'.IsOn(k) == d.IsOn(k)
    ensures ItemsSum(keys, d', prices, skip) ==
            ItemsSum(keys, d, prices, skip) +
            (if field in keys then Term(d', prices, skip, field) - Term(d, prices, skip, field) else 0.0)
    decreases |keys|
  {
    if keys != [] {
      var init, last := keys[..|keys| - 1], keys[|keys| - 1];
      assert keys == init + [last];
      ItemsSumUpdate(init, d, d', prices, skip, field);
      if last == field {
        assert field !in init by {
          forall i | 0 <= i < |init| ensures init[i] != field {
            assert keys[i] == init[i];
          }
        }
      }
    }
  }

  /** Selecting or deselecting a line item changes the sum of the selected
      items by exactly that item's price. */
  lemma VisibleSumAfterPut(d: Dict, field: string, b: bool, prices: map<string, real>, skip: set<string>)
    requires d.Valid()
    ensures VisibleSum(d.Put(field, b), prices, skip) ==
            VisibleSum(d, prices, skip) - Term(d, prices, skip, field) + Term(d.Put(field, b), prices, skip, field)
  {
    var d' := d.Put(field, b);
    ItemsSumUpdate(d.order, d, d', prices, skip, field);
    if field !in d.order {
      assert d'.order[..|d'.order| - 1] == d.order;
    }
  }

  /** Selecting or deselecting a key the loop skips leaves its sum alone. */
  lemma VisibleSumIgnoresSkipped(d: Dict, field: string, b: bool, prices: map<string, real>, skip: set<string>)
    requires d.Valid() && field in skip
    ensures VisibleSum(d.Put(field, b), prices, skip) == VisibleSum(d, prices, skip)
  {
    VisibleSumAfterPut(d, field, b, prices, skip);
  }

  /** With non-negative prices the sum of the selected items is non-negative. */
  lemma {:induction false} ItemsSumNonNegative(keys: seq<string>, d: Dict, prices: map<string, real>, skip: set<string>)
    requires forall k :: k in prices ==> prices[k] >= 0.0
    ensures ItemsSum(keys, d, prices, skip) >= 0.0
    decreases |keys|
  {
    if keys != [] {
      ItemsSumNonNegative(keys[..|keys| - 1], d, prices, skip);
    }
  }

  /** Excluding one key from the loop removes exactly its contribution. */
  lemma {:induction false} ItemsSumExclude(keys: seq<string>, d: Dict, prices: map<string, real>, field: string)
    requires Distinct(keys)
    ensures ItemsSum(keys, d, prices, {}) ==
            ItemsSum(keys, d, prices, {field}) + (if field in keys && d.IsOn(field) then Price(prices, field) else 0.0)
    decreases |keys|
  {
    if keys != [] {
      var init, last := keys[..|keys| - 1], keys[|keys| - 1];
      assert keys == init + [last];
      ItemsSumExclude(init, d, prices, field);
      if last == field {
        assert field !in init by {
          forall i | 0 <= i < |init| ensures init[i] != field {
            assert keys[i] == init[i];
          }
        }
      }
    }
  }

  /** The total of the main calculator is non-negative when prices and the
      vent quantity are. */
  lemma CostingTotalNonNegative(d: Dict, prices: map<string, real>, vents: real)
    requires forall k :: k in prices ==> prices[k] >= 0.0
    ensures CostingTotal(d, prices, vents) >= 0.0
  {
    ItemsSumNonNegative(d.order, d, prices, {MECHANICAL_VENTS});
  }

  /** How the two totals differ: the funder variant adds the vents unit price
      once more when vents are selected, and adds its stored vents cost even
      when they are not. */
  lemma FunderTotalVersusCostingTotal(d: Dict, prices: map<string, real>, vents: real)
    requires d.Valid()
    requires vents > 0.0
    ensures FunderTotal(d, prices, Some(vents * Price(prices, MECHANICAL_VENTS))) ==
            CostingTotal(d, prices, vents)
            + (if d.IsOn(MECHANICAL_VENTS) then Price(prices, MECHANICAL_VENTS)
               else vents * Price(prices, MECHANICAL_VENTS))
  {
    ItemsSumExclude(d.order, d, prices, MECHANICAL_VENTS);
  }

  /** `profitAmount` of the main calculator: the margin, never negative. */
  function ClampedProfit(priceWeGet: real, totalCost: real): (profit: real)
    ensures profit >= 0.0 && profit >= priceWeGet - totalCost
    ensures profit == priceWeGet - totalCost || profit == 0.0
  {
    if priceWeGet - totalCost > 0.0 then priceWeGet - totalCost else 0.0
  }

  /** `profitPercentage`: the profit as a percentage of the price we get, and
      0 when there is no positive price. */
  function ProfitPercentage(priceWeGet: real, profit: real): (pct: real)
    ensures priceWeGet <= 0.0 ==> pct == 0.0
    ensures priceWeGet > 0.0 ==> pct * priceWeGet == profit * 100.0
  {
    if priceWeGet > 0.0 then profit / priceWeGet * 100.0 else 0.0
  }

  /** A ratio of a part to a positive whole lies in [0, 1]. */
  lemma RatioBounds(part: real, whole: real)
    requires whole > 0.0 && 0.0 <= part <= whole
    ensures 0.0 <= part / whole <= 1.0
  {
    assert part / whole * whole == part;
  }

  /** With a non-negative total cost, the clamped profit percentage lies in [0, 100]. */
  lemma ClampedPercentageBounds(priceWeGet: real, totalCost: real)
    requires totalCost >= 0.0
    ensures 0.0 <= ProfitPercentage(priceWeGet, ClampedProfit(priceWeGet, totalCost)) <= 100.0
  {
    var profit := ClampedProfit(priceWeGet, totalCost);
    if priceWeGet > 0.0 {
      RatioBounds(profit, priceWeGet);
    }
  }

  /** Without the clamp (scisFunderCostingTest) the percentage is still at most
      100, and it is negative exactly when the cost exceeds the price we get. */
  lemma UnclampedPercentageBounds(priceWeGet: real, totalCost: real)
    requires totalCost >= 0.0
    requires priceWeGet > 0.0
    ensures ProfitPercentage(priceWeGet, priceWeGet - totalCost) <= 100.0
    ensures ProfitPercentage(priceWeGet, priceWeGet - totalCost) < 0.0 <==> totalCost > priceWeGet
  {
    var profit := priceWeGet - totalCost;
    var ratio := profit / priceWeGet;
    assert ratio * priceWeGet == profit;
    if profit >= 0.0 {
      RatioBounds(profit, priceWeGet);
    } else {
      assert ratio < 0.0;
    }
  }

  /** One funder record as the components keep it: `{name, price}`. */
  datatype Funder = Funder(name: string, price: real)

  /** `funders.reduce((sum, funder) => sum + funder.price, 0)`. */
  function PriceSum(fs: seq<Funder>): (r: real)
    ensures |fs| == 0 ==> r == 0.0
    decreases |fs|
  {
    if fs == [] then 0.0 else PriceSum(fs[..|fs| - 1]) + fs[|fs| - 1].price
  }

  /** `funderAveragePrice`: the arithmetic mean of the funder prices. */
  function FunderAveragePrice(fs: seq<Funder>): (avg: real)
    requires |fs| > 0
    ensures avg * (|fs| as real) == PriceSum(fs)
  {
    PriceSum(fs) / (|fs| as real)
  }

  /** The text `funderAveragePrice` yields, read back by `parseFloat`: for an
      empty list it is `NaN`, which the model writes `None`. */
  function FunderPrice(fs: seq<Funder>): (r: Option<real>)
    ensures r.None? <==> |fs| == 0
    ensures r.Some? ==> r.value == FunderAveragePrice(fs)
  {
    if |fs| == 0 then None else Some(FunderAveragePrice(fs))
  }

  lemma {:induction false} PriceSumBounds(fs: seq<Funder>, lo: real, hi: real)
    requires forall i :: 0 <= i < |fs| ==> lo <= fs[i].price <= hi
    ensures lo * (|fs| as real) <= PriceSum(fs) <= hi * (|fs| as real)
    decreases |fs|
  {
    if fs != [] {
      PriceSumBounds(fs[..|fs| - 1], lo, hi);
    }
  }

  /** The average lies between the cheapest and the dearest funder. */
  lemma AverageWithinBounds(fs: seq<Funder>, lo: real, hi: real)
    requires |fs| > 0
    requires forall i :: 0 <= i < |fs| ==> lo <= fs[i].price <= hi
    ensures lo <= FunderAveragePrice(fs) <= hi
  {
    PriceSumBounds(fs, lo, hi);
    var n := |fs| as real;
    var avg := FunderAveragePrice(fs);
    assert avg * n == PriceSum(fs);
    CancelPositiveFactor(lo, avg, n);
    CancelPositiveFactor(avg, hi, n);
  }

  /** `x * n <= y * n` with `n > 0` gives `x <= y`. */
  lemma CancelPositiveFactor(x: real, y: real, n: real)
    requires n > 0.0 && x * n <= y * n
    ensures x <= y
  {
    assert (y - x) * n >= 0.0;
  }

  /** The worked example: funders priced 100 and 200 average to 150. */
  lemma AverageExample()
    ensures FunderAveragePrice([Funder("A", 100.0), Funder("B", 200.0)]) == 150.0
  {
    var fs := [Funder("A", 100.0), Funder("B", 200.0)];
    assert fs[..1] == [Funder("A", 100.0)];
    assert fs[..1][..0] == [];
    assert PriceSum(fs[..1]) == 100.0;
    assert PriceSum(fs) == 300.0;
  }
}
