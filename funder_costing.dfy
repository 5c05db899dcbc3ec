/** scisFunderCostingTest: the earlier costing calculator, whose price we
    get comes from a fixed ABS costing, whose profit is not clamped, and
    whose vent input only refuses negative numbers. */
module FunderCosting {
  import opened Wrappers
  import opened FieldVisibility
  import opened CostingMath
  import Percentage

  /** The `absCosting` field, which no handler ever changes. */
  const ABS_COSTING: real := 501.60

  /** `updatePriceWeGet`: ABS costing times the funder average price; with
      no funders the average reads `NaN` and counts as 0. */
  function AbsPriceWeGet(fs: seq<Funder>): (r: real)
    ensures |fs| == 0 ==> r == 0.0
    ensures |fs| > 0 ==> r == ABS_COSTING * FunderAveragePrice(fs)
  {
    ABS_COSTING * OrZero(FunderPrice(fs))
  }

  /** The vent input rule: a negative number becomes 0, anything else (a
      `NaN` included) is kept as it is. */
  function ClampVents(value: Option<real>): (r: Option<real>)
    ensures value.Some? && value.value < 0.0 ==> r == Some(0.0)
    ensures !(value.Some? && value.value < 0.0) ==> r == value
    ensures r.Some? ==> r.value >= 0.0
  {
    if value.Some? && value.value < 0.0 then Some(0.0) else value
  }

  /** The stored vents cost: quantity times unit price, `NaN` (`None`) when
      the quantity is `NaN`. */
  function VentsCostOf(quantity: Option<real>, unitPrice: real): (r: Option<real>)
    ensures r.Some? <==> quantity.Some?
    ensures quantity.Some? ==> r.value == quantity.value * unitPrice
  {
    if quantity.Some? then Some(quantity.value * unitPrice) else None
  }

  /** The finding, as written: with vents selected at quantity 3 and unit
      price 350, the loop adds the unit price and the stored vents cost adds
      3 x 350 on top, 1400 in all, where 3 x 350 = 1050 was meant. */
  lemma VentsUnitPriceCountedTwice()
    ensures FunderTotal(Empty.Put(MECHANICAL_VENTS, true), map[MECHANICAL_VENTS := 350.0], Some(3.0 * 350.0)) == 1400.0
    ensures CostingTotal(Empty.Put(MECHANICAL_VENTS, true), map[MECHANICAL_VENTS := 350.0], 3.0) == 1050.0
  {
    var d, prices := Empty.Put(MECHANICAL_VENTS, true), map[MECHANICAL_VENTS := 350.0];
    assert d.order == [MECHANICAL_VENTS] && d.IsOn(MECHANICAL_VENTS);
    assert Term(d, prices, {}, MECHANICAL_VENTS) == 350.0;
    assert Term(d, prices, {MECHANICAL_VENTS}, MECHANICAL_VENTS) == 0.0;
    assert d.order[..0] == [];
    assert ItemsSum(d.order[..0], d, prices, {}) == 0.0;
    assert ItemsSum(d.order[..0], d, prices, {MECHANICAL_VENTS}) == 0.0;
    assert VisibleSum(d, prices, {}) == 350.0;
    assert VisibleSum(d, prices, {MECHANICAL_VENTS}) == 0.0;
    assert VentsCost(d, prices, 3.0) == 1050.0;
  }

  /** The finding, as written: after vents are unselected the stored cost of
      the last quantity entered is still added to the total. */
  lemma UnselectedVentsStillCharged()
    ensures FunderTotal(Empty.Put(MECHANICAL_VENTS, false), map[MECHANICAL_VENTS := 350.0], Some(3.0 * 350.0)) == 1050.0
    ensures CostingTotal(Empty.Put(MECHANICAL_VENTS, false), map[MECHANICAL_VENTS := 350.0], 3.0) == 0.0
  {
    var d, prices := Empty.Put(MECHANICAL_VENTS, false), map[MECHANICAL_VENTS := 350.0];
    assert d.order == [MECHANICAL_VENTS] && !d.IsOn(MECHANICAL_VENTS);
    assert d.order[..0] == [];
    assert ItemsSum(d.order[..0], d, prices, {}) == 0.0;
    assert ItemsSum(d.order[..0], d, prices, {MECHANICAL_VENTS}) == 0.0;
  }

  /** The corrected rule (the one sCIS_Costing follows): selecting vents adds
      exactly quantity x unit price to the other items. */
  lemma SelectedVentsCostQuantityTimesPrice(d: Dict, prices: map<string, real>, vents: real)
    requires d.Valid() && vents > 0.0
    ensures CostingTotal(d.Put(MECHANICAL_VENTS, true), prices, vents) ==
            VisibleSum(d, prices, {MECHANICAL_VENTS}) + vents * Price(prices, MECHANICAL_VENTS)
  {
    VisibleSumIgnoresSkipped(d, MECHANICAL_VENTS, true, prices, {MECHANICAL_VENTS});
  }

  /** The corrected rule: unselected vents cost nothing, whatever quantity
      was entered before. */
  lemma UnselectedVentsCostNothing(d: Dict, prices: map<string, real>, vents: real)
    requires d.Valid()
    ensures CostingTotal(d.Put(MECHANICAL_VENTS, false), prices, vents) == VisibleSum(d, prices, {MECHANICAL_VENTS})
  {
    VisibleSumIgnoresSkipped(d, MECHANICAL_VENTS, false, prices, {MECHANICAL_VENTS});
  }

  /** Every field of the earlier calculator that a handler can assign. */
  datatype FunderState = FunderState(
    funders: seq<Funder>, costingDetails: CostingDetails, fieldVisibility: Dict, priceWeGet: real,
    isNormalBeadChecked: bool, isInnovationBeadChecked: bool,
    mechanicalVents: Option<real>, totalMechanicalVentsCost: Option<real>)

  class FunderCostingForm {
    var funders: seq<Funder>
    var costingDetails: CostingDetails
    var fieldVisibility: Dict
    var priceWeGet: real
    var isNormalBeadChecked: bool
    var isInnovationBeadChecked: bool
    /** The vent quantity; `None` is a stored `NaN`. */
    var mechanicalVents: Option<real>
    /** The stored vents cost; `None` is the text 'NaN'. */
    var totalMechanicalVentsCost: Option<real>

    ghost predicate Valid()
      reads this
    {
      && fieldVisibility.Valid()
      && (mechanicalVents.Some? ==> mechanicalVents.value >= 0.0)
    }

    /** The form's fields at this moment. */
    function State(): FunderState
      reads this
    {
      FunderState(funders, costingDetails, fieldVisibility, priceWeGet, isNormalBeadChecked,
                  isInnovationBeadChecked, mechanicalVents, totalMechanicalVentsCost)
    }

    constructor ()
      ensures Valid()
      ensures funders == [] && costingDetails == NoDetails && fieldVisibility == Empty
      ensures priceWeGet == 0.0
      ensures !isNormalBeadChecked && isInnovationBeadChecked
      ensures mechanicalVents == Some(0.0) && totalMechanicalVentsCost == Some(0.0)
    {
      funders := [];
      costingDetails := NoDetails;
      fieldVisibility := Empty;
      priceWeGet := 0.0;
      isNormalBeadChecked, isInnovationBeadChecked := false, true;
      mechanicalVents, totalMechanicalVentsCost := Some(0.0), Some(0.0);
      EmptyValid();
    }

    /** `wiredFunders` with data. */
    method ReceiveFunders(fs: seq<Funder>)
      requires Valid()
      modifies this
      ensures Valid()
      ensures State() == old(State()).(funders := fs)
    {
      funders := fs;
    }

    /** `updatePriceWeGet`: depends on the funders only, never on the selection. */
    method UpdatePriceWeGet()
      requires Valid()
      modifies this
      ensures Valid()
      ensures State() == old(State()).(priceWeGet := AbsPriceWeGet(old(funders)))
    {
      var funderAveragePrice := OrZero(FunderPrice(funders));
      priceWeGet := ABS_COSTING * funderAveragePrice;
    }

    /** `wiredCostingDetails` with data. */
    method ReceiveCostingDetails(details: CostingDetails)
      requires Valid()
      modifies this
      ensures Valid()
      ensures isInnovationBeadChecked == (Price(details.prices, INNOVATION_BEAD) != 0.0)
      ensures State() == old(State()).(
                costingDetails := details,
                isInnovationBeadChecked := isInnovationBeadChecked,
                fieldVisibility := old(fieldVisibility).Put(INNOVATION_BEAD, isInnovationBeadChecked),
                priceWeGet := AbsPriceWeGet(old(funders)))
    {
      costingDetails := details;
      isInnovationBeadChecked := INNOVATION_BEAD in details.prices && details.prices[INNOVATION_BEAD] != 0.0;
      fieldVisibility := fieldVisibility.Put(INNOVATION_BEAD, isInnovationBeadChecked);
      UpdatePriceWeGet();
    }

    /** `handleCheckboxChange`. */
    method HandleCheckboxChange(field: string, checked: bool)
      requires Valid()
      modifies this
      ensures Valid()
      ensures State() == old(State()).(fieldVisibility := old(fieldVisibility).Put(field, checked))
    {
      fieldVisibility := fieldVisibility.Put(field, checked);
    }

    /** `handleNormalBeadChange`: checking forces Innovation Bead off,
        unchecking turns it back on. */
    method HandleNormalBeadChange(checked: bool)
      requires Valid()
      modifies this
      ensures Valid()
      ensures State() == old(State()).(
                isNormalBeadChecked := checked, isInnovationBeadChecked := !checked,
                fieldVisibility := old(fieldVisibility).Put(NORMAL_BEAD, checked).Put(INNOVATION_BEAD, !checked))
      ensures fieldVisibility.IsOn(NORMAL_BEAD) != fieldVisibility.IsOn(INNOVATION_BEAD)
    {
      isNormalBeadChecked := checked;
      fieldVisibility := fieldVisibility.Put(NORMAL_BEAD, isNormalBeadChecked);
      if isNormalBeadChecked {
        isInnovationBeadChecked := false;
        fieldVisibility := fieldVisibility.Put(INNOVATION_BEAD, false);
      } else {
        isInnovationBeadChecked := true;
        fieldVisibility := fieldVisibility.Put(INNOVATION_BEAD, true);
      }
    }

    /** `handleInnovationBeadChange`. */
    method HandleInnovationBeadChange(checked: bool)
      requires Valid()
      modifies this
      ensures Valid()
      ensures State() == old(State()).(
                isInnovationBeadChecked := checked,
                fieldVisibility := old(fieldVisibility).Put(INNOVATION_BEAD, checked))
    {
      isInnovationBeadChecked := checked;
      fieldVisibility := fieldVisibility.Put(INNOVATION_BEAD, isInnovationBeadChecked);
    }

    /** `handleMechanicalVentsChange`: only the vents selection changes; the
        quantity and its stored cost stay. */
    method HandleMechanicalVentsChange(checked: bool)
      requires Valid()
      modifies this
      ensures Valid()
      ensures State() == old(State()).(fieldVisibility := old(fieldVisibility).Put(MECHANICAL_VENTS, checked))
      ensures forall k :: k != MECHANICAL_VENTS ==> fieldVisibility.IsOn(k) == old(fieldVisibility).IsOn(k)
    {
      fieldVisibility := fieldVisibility.Put(MECHANICAL_VENTS, checked);
    }

    /** `updateMechanicalVentsCost`: quantity times unit price; a `NaN`
        quantity stores `NaN`. */
    method UpdateMechanicalVentsCost()
      requires Valid()
      modifies this
      ensures Valid()
      ensures State() == old(State()).(
                totalMechanicalVentsCost := VentsCostOf(old(mechanicalVents), Price(old(costingDetails).prices, MECHANICAL_VENTS)))
    {
      var unitPrice := Price(costingDetails.prices, MECHANICAL_VENTS);
      totalMechanicalVentsCost := VentsCostOf(mechanicalVents, unitPrice);
    }

    /** `handleMechanicalVentsValueChange`. */
    method HandleMechanicalVentsValueChange(value: Option<real>)
      requires Valid()
      modifies this
      ensures Valid()
      ensures State() == old(State()).(
                mechanicalVents := ClampVents(value),
                totalMechanicalVentsCost := VentsCostOf(ClampVents(value), Price(old(costingDetails).prices, MECHANICAL_VENTS)))
    {
      if value.Some? && value.value < 0.0 {
        mechanicalVents := Some(0.0);
      } else {
        mechanicalVents := value;
      }
      UpdateMechanicalVentsCost();
    }

    /** The value of the `totalCost` getter: the stored vents cost is added
        whether or not vents are ticked. */
    function Total(): (total: real)
      reads this
      ensures totalMechanicalVentsCost.Some? ==>
                total == VisibleSum(fieldVisibility, costingDetails.prices, {}) + totalMechanicalVentsCost.value
    {
      FunderTotal(fieldVisibility, costingDetails.prices, totalMechanicalVentsCost)
    }

    /** The `totalCost` getter: every selected price, the vents unit price
        included, plus the stored vents cost. */
    method TotalCost() returns (total: real)
      requires Valid()
      ensures total == Total()
    {
      var prices := costingDetails.prices;
      var keys := fieldVisibility.order;
      total := 0.0;
      var i := 0;
      while i < |keys|
        invariant 0 <= i <= |keys|
        invariant total == ItemsSum(keys[..i], fieldVisibility, prices, {})
      {
        var field := keys[i];
        if fieldVisibility.IsOn(field) && field in prices && prices[field] != 0.0 {
          total := total + prices[field];
        }
        assert keys[..i + 1][..i] == keys[..i];
        i := i + 1;
      }
      assert keys[..i] == keys;
      total := total + OrZero(totalMechanicalVentsCost);
    }

    /** The `profitAmount` getter: the plain margin, which may be negative. */
    function ProfitAmount(): (profit: real)
      reads this
      ensures profit + Total() == priceWeGet
    {
      priceWeGet - Total()
    }

    /** The `profitPercentage` getter. */
    function ProfitPercentage(): (pct: real)
      reads this
      ensures priceWeGet <= 0.0 ==> pct == 0.0
      ensures priceWeGet > 0.0 ==> pct * priceWeGet == ProfitAmount() * 100.0
    {
      CostingMath.ProfitPercentage(priceWeGet, ProfitAmount())
    }

    /** A total above the price we get shows as a negative margin and a red bar. */
    lemma LossShowsRed()
      requires priceWeGet > 0.0 && Total() > priceWeGet
      ensures ProfitAmount() < 0.0
      ensures ProfitBarColor() == Percentage.RedColor
    {
      UnclampedPercentageBounds(priceWeGet, Total());
    }

    /** The `profitBarColor` getter: green above 35 %, red below 0 %, and in
        between `rgb(255 - g, g, 0)` with `g` the green intensity of the
        percentage. */
    function ProfitBarColor(): (c: Percentage.BarColor)
      reads this
      ensures ProfitPercentage() > Percentage.GREEN_THRESHOLD ==> c == Percentage.GreenColor
      ensures ProfitPercentage() < 0.0 ==> c == Percentage.RedColor
      ensures 0.0 <= ProfitPercentage() <= Percentage.GREEN_THRESHOLD ==>
                c == Percentage.Gradient(255 - Percentage.GreenIntensity(ProfitPercentage()),
                                         Percentage.GreenIntensity(ProfitPercentage()))
    {
      Percentage.ProfitBarColor(ProfitPercentage())
    }
  }
}
