/** The costing screen of sCIS_Costing and of its copy sCIS_CostingTest. The
    two files share the line-item handlers, the total, the profit and the SAP
    loader verbatim. They differ in what saving, finishing and the
    existing-records wire do to the screen flags, and only sCIS_Costing has
    the `percentageClass` and `percentageWidth` getters; the `variant` of a
    form says which file it follows. */
module CostingComponent {
  import opened Wrappers
  import opened FieldVisibility
  import opened CostingMath
  import opened SapBand
  import Percentage

  /** `Main` is sCIS_Costing, `Test` is sCIS_CostingTest. */
  datatype Variant = Main | Test

  /** The line items the save payload carries, in payload order
      (cavityGuarantee, cigaSearch, ..., tmLodgement). */
  const PAYLOAD_FIELDS: seq<string> := [
    "Cavity_Guarantee__c", "CIGA_Search__c", "EPC_Elmhurst__c", "EPR_fee__c", "EWI__c",
    "Innovation_Bead__c", "Land_Registry__c", "Loft__c", "Loft_Guarantee__c", "Normal_Bead__c",
    "Retrofit_Coordination__c", "RIR__c", "Survey_Fee__c", "Tech_Survey__c", "TM_Amendment__c",
    "TM_Lodgement__c"]

  /** The object passed to `saveCosting`. `lineItems[i]` is the amount saved
      for `PAYLOAD_FIELDS[i]` (`None`: the catalogue has no such field, so
      `undefined` is sent); `id` is present for an update. */
  datatype CostingPayload = CostingPayload(
    costingName: Option<string>,
    propertyOwner: string,
    lineItems: seq<Option<real>>,
    mechanicalVents: real,
    funder: Option<string>,
    funderPrice: Option<real>,
    priceWeGet: real,
    profitAmount: real,
    id: Option<string>)

  /** The quantity ticking the vents box leaves: a non-zero quantity is
      kept, 0 becomes 1. */
  function TickedVents(current: real): (r: real)
    ensures current != 0.0 ==> r == current
    ensures current == 0.0 ==> r == 1.0
    ensures current >= 0.0 ==> r > 0.0
  {
    if current != 0.0 then current else 1.0
  }

  /** The vent input rule of sCIS_Costing: the parsed input when it is at
      least 1, otherwise (below 1, or not a number) 1. */
  function VentsInput(value: Option<real>): (r: real)
    ensures r >= 1.0
    ensures value.Some? && value.value >= 1.0 ==> r == value.value
    ensures !(value.Some? && value.value >= 1.0) ==> r == 1.0
  {
    if value.Some? && value.value >= 1.0 then value.value else 1.0
  }

  /** `fieldVisibility.F ? costingDetails.F : 0`. */
  function LineAmount(d: Dict, prices: map<string, real>, field: string): (r: Option<real>)
    ensures d.IsOn(field) ==> r == Lookup(prices, field)
    ensures !d.IsOn(field) ==> r == Some(0.0)
  {
    if d.IsOn(field) then Lookup(prices, field) else Some(0.0)
  }

  /** The line-item amounts of the payload: the catalogue price of every
      selected item and 0 for every other one. */
  function LineItems(d: Dict, prices: map<string, real>): (items: seq<Option<real>>)
    ensures |items| == |PAYLOAD_FIELDS|
    ensures forall i :: 0 <= i < |items| ==> items[i] == LineAmount(d, prices, PAYLOAD_FIELDS[i])
  {
    seq(|PAYLOAD_FIELDS|, i requires 0 <= i < |PAYLOAD_FIELDS| => LineAmount(d, prices, PAYLOAD_FIELDS[i]))
  }

  /** A payload with nothing selected saves 0 for every line item and no vents. */
  lemma NothingSelectedSavesZeros(prices: map<string, real>)
    ensures forall i :: 0 <= i < |PAYLOAD_FIELDS| ==> LineItems(Empty, prices)[i] == Some(0.0)
  {
    EmptyValid();
  }

  /** After `handleNormalBeadChange` exactly one of the two beads is
      selected, Normal Bead as ticked, and every other selection is kept. */
  lemma OneBeadSelected(d: Dict, checked: bool)
    requires d.Valid()
    ensures d.Put(NORMAL_BEAD, checked).Put(INNOVATION_BEAD, !checked).IsOn(NORMAL_BEAD) == checked
    ensures d.Put(NORMAL_BEAD, checked).Put(INNOVATION_BEAD, !checked).IsOn(INNOVATION_BEAD) == !checked
    ensures forall k :: k != NORMAL_BEAD && k != INNOVATION_BEAD ==>
              d.Put(NORMAL_BEAD, checked).Put(INNOVATION_BEAD, !checked).IsOn(k) == d.IsOn(k)
  {
  }

  /** Choosing Normal Bead in place of Innovation Bead swaps the Innovation
      Bead price for the Normal Bead price in the total. */
  lemma BeadSwapTotal(d: Dict, prices: map<string, real>, vents: real)
    requires d.Valid()
    requires d.IsOn(INNOVATION_BEAD) && !d.IsOn(NORMAL_BEAD)
    ensures CostingTotal(d.Put(NORMAL_BEAD, true).Put(INNOVATION_BEAD, false), prices, vents) ==
            CostingTotal(d, prices, vents) + Price(prices, NORMAL_BEAD) - Price(prices, INNOVATION_BEAD)
  {
    var skip := {MECHANICAL_VENTS};
    var d1 := d.Put(NORMAL_BEAD, true);
    VisibleSumAfterPut(d, NORMAL_BEAD, true, prices, skip);
    VisibleSumAfterPut(d1, INNOVATION_BEAD, false, prices, skip);
  }

  /** The worked example of the costing screen: Normal Bead at 185.80 and
      Loft at 210.00 selected, nothing else, cost 395.80. */
  lemma TotalExample()
    ensures CostingTotal(Empty.Put(NORMAL_BEAD, true).Put("Loft__c", true),
                         map[NORMAL_BEAD := 185.80, "Loft__c" := 210.00], 0.0) == 395.80
  {
    var prices := map[NORMAL_BEAD := 185.80, "Loft__c" := 210.00];
    var d1 := Empty.Put(NORMAL_BEAD, true);
    var d2 := d1.Put("Loft__c", true);
    EmptyValid();
    VisibleSumAfterPut(Empty, NORMAL_BEAD, true, prices, {MECHANICAL_VENTS});
    VisibleSumAfterPut(d1, "Loft__c", true, prices, {MECHANICAL_VENTS});
  }

  /** Every field of a costing form that a handler can assign; the handlers
      state their new state as an update of the old one. */
  datatype FormState = FormState(
    isSaved: bool, isFinish: bool, isSummary: bool,
    surveyName: Option<string>, propertyOwnerId: Option<string>,
    funders: seq<Funder>, costingDetails: CostingDetails, fieldVisibility: Dict,
    priceWeGet: real, mechanicalVents: real, totalMechanicalVentsCost: real,
    isNormalBeadChecked: bool, isInnovationBeadChecked: bool,
    costingRecordCount: Option<nat>, recordsError: bool)

  class CostingForm {
    const variant: Variant
    /** The `@api recordId` of the page. */
    const recordId: string
    /** The SAP-band load state, the same code as the cost-savings display. */
    const sap: SapCostingDisplay

    var isSaved: bool
    var isFinish: bool
    var isSummary: bool
    var surveyName: Option<string>
    var propertyOwnerId: Option<string>
    var funders: seq<Funder>
    var costingDetails: CostingDetails
    var fieldVisibility: Dict
    var priceWeGet: real
    var mechanicalVents: real
    var totalMechanicalVentsCost: real
    var isNormalBeadChecked: bool
    var isInnovationBeadChecked: bool
    /** The number of costing records found for the owner (sCIS_Costing only). */
    var costingRecordCount: Option<nat>
    var recordsError: bool

    ghost predicate Valid()
      reads this, sap
    {
      fieldVisibility.Valid() && mechanicalVents >= 0.0 && sap.Valid()
    }

    /** The form's own fields at this moment. */
    function State(): FormState
      reads this
    {
      FormState(isSaved, isFinish, isSummary, surveyName, propertyOwnerId, funders, costingDetails,
                fieldVisibility, priceWeGet, mechanicalVents, totalMechanicalVentsCost,
                isNormalBeadChecked, isInnovationBeadChecked, costingRecordCount, recordsError)
    }

    constructor (variant: Variant, recordId: string)
      ensures Valid() && fresh(sap)
      ensures this.variant == variant && this.recordId == recordId
      ensures !isSaved && !isFinish && !isSummary
      ensures surveyName == None && propertyOwnerId == None
      ensures funders == [] && costingDetails == NoDetails && fieldVisibility == Empty
      ensures priceWeGet == 0.0 && mechanicalVents == 0.0 && totalMechanicalVentsCost == 0.0
      ensures !isNormalBeadChecked && isInnovationBeadChecked
      ensures costingRecordCount == None && !recordsError
      ensures sap.isLoading && !sap.isError && !sap.isDataLoaded && sap.costSavings == Unfetched
      ensures sap.currentSAPBand == None && sap.potentialSAPBand == None && sap.errorMessage == None
    {
      this.variant := variant;
      this.recordId := recordId;
      sap := new SapCostingDisplay();
      isSaved, isFinish, isSummary := false, false, false;
      surveyName, propertyOwnerId := None, None;
      funders := [];
      costingDetails := NoDetails;
      fieldVisibility := Empty;
      priceWeGet := 0.0;
      mechanicalVents, totalMechanicalVentsCost := 0.0, 0.0;
      isNormalBeadChecked, isInnovationBeadChecked := false, true;
      costingRecordCount, recordsError := None, false;
      EmptyValid();
    }

    /** `connectedCallback`: start loading the SAP bands. */
    method ConnectedCallback()
      requires Valid()
      modifies sap
      ensures Valid()
      ensures sap.isLoading && !sap.isError
      ensures sap.isDataLoaded == old(sap.isDataLoaded) && sap.costSavings == old(sap.costSavings)
      ensures sap.errorMessage == old(sap.errorMessage)
      ensures sap.currentSAPBand == old(sap.currentSAPBand) && sap.potentialSAPBand == old(sap.potentialSAPBand)
    {
      sap.BeginFetch();
    }

    /** `wiredSurvey` with data: the survey's name and owner, nothing else. */
    method ReceiveSurvey(name: Option<string>, ownerId: Option<string>)
      requires Valid()
      modifies this
      ensures Valid()
      ensures State() == old(State()).(surveyName := name, propertyOwnerId := ownerId)
    {
      surveyName := name;
      propertyOwnerId := ownerId;
    }

    /** `wiredFunders` with data: the funder list (the price is not recomputed). */
    method ReceiveFunders(fs: seq<Funder>)
      requires Valid()
      modifies this
      ensures Valid()
      ensures State() == old(State()).(funders := fs)
    {
      funders := fs;
    }

    /** The price we get from the cost savings and the funder average price:
        nothing happens while there are no funders. */
    function PriceWeGetFrom(savings: Savings, fs: seq<Funder>, current: real): (r: real)
      ensures |fs| == 0 ==> r == current
      ensures |fs| > 0 ==> r == SavingsAmount(savings) * FunderAveragePrice(fs)
    {
      if |fs| == 0 then current else SavingsAmount(savings) * FunderAveragePrice(fs)
    }

    /** `updatePriceWeGet`: only the price we get changes. */
    method UpdatePriceWeGet()
      requires Valid()
      modifies this
      ensures Valid()
      ensures State() == old(State()).(priceWeGet := PriceWeGetFrom(sap.costSavings, funders, old(priceWeGet)))
    {
      if |funders| == 0 {
        return;
      }
      priceWeGet := SavingsAmount(sap.costSavings) * FunderAveragePrice(funders);
    }

    /** `wiredCostingDetails` with data: store the catalogue, select Innovation
        Bead exactly when the catalogue gives it a non-zero price, and
        recompute the price we get. */
    method ReceiveCostingDetails(details: CostingDetails)
      requires Valid()
      modifies this
      ensures Valid()
      ensures isInnovationBeadChecked == (Price(details.prices, INNOVATION_BEAD) != 0.0)
      ensures State() == old(State()).(
                costingDetails := details,
                isInnovationBeadChecked := isInnovationBeadChecked,
                fieldVisibility := old(fieldVisibility).Put(INNOVATION_BEAD, isInnovationBeadChecked),
                priceWeGet := PriceWeGetFrom(sap.costSavings, old(funders), old(priceWeGet)))
    {
      costingDetails := details;
      isInnovationBeadChecked := INNOVATION_BEAD in details.prices && details.prices[INNOVATION_BEAD] != 0.0;
      fieldVisibility := fieldVisibility.Put(INNOVATION_BEAD, isInnovationBeadChecked);
      UpdatePriceWeGet();
    }

    /** `handleNormalBeadChange`: checking Normal Bead turns Innovation Bead
        off, unchecking it turns Innovation Bead back on, so exactly one of
        the two beads is selected afterwards. */
    method HandleNormalBeadChange(checked: bool)
      requires Valid()
      modifies this
      ensures Valid()
      ensures State() == old(State()).(
                isNormalBeadChecked := checked, isInnovationBeadChecked := !checked,
                fieldVisibility := old(fieldVisibility).Put(NORMAL_BEAD, checked).Put(INNOVATION_BEAD, !checked))
    {
      isNormalBeadChecked := checked;
      var visibility := fieldVisibility.Put(NORMAL_BEAD, checked);
      if checked {
        isInnovationBeadChecked := false;
        fieldVisibility := visibility.Put(INNOVATION_BEAD, false);
      } else {
        isInnovationBeadChecked := true;
        fieldVisibility := visibility.Put(INNOVATION_BEAD, true);
      }
    }

    /** `handleInnovationBeadChange`: only the Innovation Bead flag and its
        selection change; Normal Bead is left as it was. */
    method HandleInnovationBeadChange(checked: bool)
      requires Valid()
      modifies this
      ensures Valid()
      ensures State() == old(State()).(
                isInnovationBeadChecked := checked,
                fieldVisibility := old(fieldVisibility).Put(INNOVATION_BEAD, checked))
    {
      isInnovationBeadChecked := checked;
      fieldVisibility := fieldVisibility.Put(INNOVATION_BEAD, isInnovationBeadChecked);
    }

    /** `handleCheckboxChange`: any other line item's checkbox. */
    method HandleCheckboxChange(field: string, checked: bool)
      requires Valid()
      modifies this
      ensures Valid()
      ensures State() == old(State()).(fieldVisibility := old(fieldVisibility).Put(field, checked))
    {
      fieldVisibility := fieldVisibility.Put(field, checked);
    }

    /** `updateMechanicalVentsCost`: only the stored vents cost changes. */
    method UpdateMechanicalVentsCost()
      requires Valid()
      modifies this
      ensures Valid()
      ensures State() == old(State()).(
                totalMechanicalVentsCost := old(mechanicalVents) * Price(old(costingDetails).prices, MECHANICAL_VENTS))
    {
      totalMechanicalVentsCost := mechanicalVents * Price(costingDetails.prices, MECHANICAL_VENTS);
    }

    /** `handleMechanicalVentsChange`: checking keeps a non-zero quantity or
        starts at 1; unchecking changes the selection only. */
    method HandleMechanicalVentsChange(checked: bool)
      requires Valid()
      modifies this
      ensures Valid()
      ensures checked ==>
                State() == old(State()).(
                  fieldVisibility := old(fieldVisibility).Put(MECHANICAL_VENTS, true),
                  mechanicalVents := TickedVents(old(mechanicalVents)),
                  totalMechanicalVentsCost := TickedVents(old(mechanicalVents)) * Price(old(costingDetails).prices, MECHANICAL_VENTS))
      ensures !checked ==>
                State() == old(State()).(fieldVisibility := old(fieldVisibility).Put(MECHANICAL_VENTS, false))
    {
      fieldVisibility := fieldVisibility.Put(MECHANICAL_VENTS, checked);
      if checked {
        mechanicalVents := TickedVents(mechanicalVents);
        UpdateMechanicalVentsCost();
      }
    }

    /** `handleMechanicalVentsValueChange`: the quantity follows the input
        rule, and its cost follows the quantity. */
    method HandleMechanicalVentsValueChange(value: Option<real>)
      requires Valid()
      modifies this
      ensures Valid()
      ensures State() == old(State()).(
                mechanicalVents := VentsInput(value),
                totalMechanicalVentsCost := VentsInput(value) * Price(old(costingDetails).prices, MECHANICAL_VENTS))
    {
      mechanicalVents := VentsInput(value);
      UpdateMechanicalVentsCost();
    }

    /** The value of the `totalCost` getter: while vents are unticked they
        add nothing, whatever quantity was entered. */
    function Total(): (total: real)
      reads this
      ensures !fieldVisibility.IsOn(MECHANICAL_VENTS) ==>
                total == VisibleSum(fieldVisibility, costingDetails.prices, {MECHANICAL_VENTS})
    {
      CostingTotal(fieldVisibility, costingDetails.prices, mechanicalVents)
    }

    /** The `totalCost` getter: the loop over the keys of `fieldVisibility`
        that adds every selected price except the vents unit price, then the
        vents quantity times the unit price when vents are selected. */
    method TotalCost() returns (total: real)
      requires Valid()
      ensures total == Total()
    {
      var prices := costingDetails.prices;
      var keys := fieldVisibility.order;
      total := 0.0;
      var i := 0;
      while i < |keys|
        invariant 0 <= i <= |keys|
        invariant total == ItemsSum(keys[..i], fieldVisibility, prices, {MECHANICAL_VENTS})
      {
        var field := keys[i];
        if fieldVisibility.IsOn(field) && field != MECHANICAL_VENTS && field in prices && prices[field] != 0.0 {
          total := total + prices[field];
        }
        assert keys[..i + 1][..i] == keys[..i];
        i := i + 1;
      }
      assert keys[..i] == keys;
      total := total + VentsCost(fieldVisibility, prices, mechanicalVents);
    }

    /** The `profitAmount` getter: the margin when it is positive, 0 otherwise. */
    function ProfitAmount(): (profit: real)
      reads this
      ensures profit >= 0.0 && profit >= priceWeGet - Total()
      ensures profit == priceWeGet - Total() || profit == 0.0
    {
      ClampedProfit(priceWeGet, Total())
    }

    /** The `profitPercentage` getter: the profit as a share of the price we get. */
    function ProfitPercentage(): (pct: real)
      reads this
      ensures priceWeGet <= 0.0 ==> pct == 0.0
      ensures priceWeGet > 0.0 ==> pct * priceWeGet == ProfitAmount() * 100.0
    {
      CostingMath.ProfitPercentage(priceWeGet, ProfitAmount())
    }

    /** With non-negative catalogue prices the percentage lies in [0, 100]. */
    lemma ProfitPercentageBounds()
      requires Valid()
      requires forall k :: k in costingDetails.prices ==> costingDetails.prices[k] >= 0.0
      ensures 0.0 <= ProfitPercentage() <= 100.0
    {
      CostingTotalNonNegative(fieldVisibility, costingDetails.prices, mechanicalVents);
      ClampedPercentageBounds(priceWeGet, Total());
    }

    /** The `percentageClass` getter, which only sCIS_Costing has: green from
        35 up, yellow strictly between 0 and 35, red otherwise. */
    function PercentageClass(): (c: string)
      requires variant == Main
      reads this
      ensures c == "green-bar" <==> ProfitPercentage() >= Percentage.GREEN_THRESHOLD
      ensures c == "yellow-bar" <==> 0.0 < ProfitPercentage() < Percentage.GREEN_THRESHOLD
      ensures c == "red-bar" <==> ProfitPercentage() <= 0.0
    {
      Percentage.ProfitTier(ProfitPercentage()).CssClass()
    }

    /** The `costingData` object `handleSave` builds from the form: the
        survey name, the page's record, the amount of every payload line
        item, the vents quantity when vents are ticked, the funder and its
        average price, the price we get and the profit; no id. */
    function Payload(): (p: CostingPayload)
      reads this
      ensures p.costingName == surveyName && p.propertyOwner == recordId
      ensures p.lineItems == LineItems(fieldVisibility, costingDetails.prices)
      ensures fieldVisibility.IsOn(MECHANICAL_VENTS) ==> p.mechanicalVents == mechanicalVents
      ensures !fieldVisibility.IsOn(MECHANICAL_VENTS) ==> p.mechanicalVents == 0.0
      ensures p.funder == costingDetails.funder && p.funderPrice == FunderPrice(funders)
      ensures p.priceWeGet == priceWeGet && p.profitAmount == ProfitAmount() && p.id == None
    {
      CostingPayload(
        surveyName, recordId,
        LineItems(fieldVisibility, costingDetails.prices),
        if fieldVisibility.IsOn(MECHANICAL_VENTS) then mechanicalVents else 0.0,
        costingDetails.funder, FunderPrice(funders), priceWeGet,
        ProfitAmount(), None)
    }

    /** `handleSave` up to the `saveCosting` call: the payload sent is the
        form's `Payload()` as it stood. In sCIS_Costing an existing id makes
        the call an update and shows the summary at once; sCIS_CostingTest
        marks the form finished at once, however the call ends. */
    method HandleSave(existingCostingId: Option<string>) returns (payload: CostingPayload)
      requires Valid()
      modifies this
      ensures Valid()
      ensures variant == Main && IsTruthy(existingCostingId) ==>
                && payload == old(Payload()).(id := existingCostingId)
                && State() == old(State()).(isSummary := true, isSaved := true, isFinish := false)
      ensures variant == Main && !IsTruthy(existingCostingId) ==>
                payload == old(Payload()) && State() == old(State())
      ensures variant == Test ==>
                payload == old(Payload()) && State() == old(State()).(isFinish := true)
    {
      payload := Payload();
      if variant == Main && IsTruthy(existingCostingId) {
        payload := payload.(id := existingCostingId);
        isSummary := true;
        isSaved := true;
        isFinish := false;
      }
      if variant == Test {
        isFinish := true;
      }
    }

    /** The `then`/`catch` of `saveCosting`. On success sCIS_Costing shows the
        saved, finished screen; sCIS_CostingTest only marks the form saved.
        A failure changes nothing but a toast. */
    method SaveSettled(succeeded: bool)
      requires Valid()
      modifies this
      ensures Valid()
      ensures succeeded && variant == Main ==> isSaved && !isSummary && isFinish
      ensures succeeded && variant == Test ==> isSaved && isSummary == old(isSummary) && isFinish == old(isFinish)
      ensures !succeeded ==> isSaved == old(isSaved) && isSummary == old(isSummary) && isFinish == old(isFinish)
      ensures State() == old(State()).(isSaved := isSaved, isSummary := isSummary, isFinish := isFinish)
    {
      if succeeded {
        isSaved := true;
        if variant == Main {
          isSummary := false;
          isFinish := true;
        }
      }
    }

    /** `handleFinish` (in sCIS_CostingTest the later of its two definitions,
        the one that takes effect): back to the saved summary. */
    method HandleFinish()
      requires Valid()
      modifies this
      ensures Valid()
      ensures State() == old(State()).(isSaved := true, isSummary := true, isFinish := false)
    {
      isSaved := true;
      isFinish := false;
      isSummary := true;
    }

    /** `handleEdit`: back to the editable form. */
    method HandleEdit()
      requires Valid()
      modifies this
      ensures Valid()
      ensures State() == old(State()).(isSaved := false, isSummary := false, isFinish := false)
    {
      isFinish := false;
      isSummary := false;
      isSaved := false;
    }

    /** `wiredCostingRecords` of sCIS_Costing (`None`: the wire reported an
        error). Finding a record shows the saved summary; finding none hides
        the summary. Either way the shared `isLoading` flag goes off. */
    method ReceiveCostingRecords(records: Option<nat>)
      requires Valid()
      requires variant == Main
      modifies this, sap
      ensures Valid()
      ensures !sap.isLoading
      ensures records.Some? && records.value > 0 ==>
                State() == old(State()).(costingRecordCount := records, isSummary := true, isSaved := true)
      ensures records.Some? && records.value == 0 ==>
                State() == old(State()).(costingRecordCount := records, isSummary := false)
      ensures records.None? ==> State() == old(State()).(recordsError := true)
      ensures sap.isError == old(sap.isError) && sap.isDataLoaded == old(sap.isDataLoaded)
      ensures sap.costSavings == old(sap.costSavings) && sap.errorMessage == old(sap.errorMessage)
      ensures sap.currentSAPBand == old(sap.currentSAPBand) && sap.potentialSAPBand == old(sap.potentialSAPBand)
    {
      match records
      case Some(n) =>
        costingRecordCount := records;
        sap.isLoading := false;
        if n > 0 {
          isSummary := true;
          isSaved := true;
        } else {
          isSummary := false;
        }
      case None =>
        recordsError := true;
        sap.isLoading := false;
    }

    /** `fetchSAPCostingData` up to the remote call. */
    method BeginSapFetch()
      requires Valid()
      modifies sap
      ensures Valid()
      ensures sap.isLoading && !sap.isError
      ensures sap.isDataLoaded == old(sap.isDataLoaded) && sap.costSavings == old(sap.costSavings)
      ensures sap.errorMessage == old(sap.errorMessage)
      ensures sap.currentSAPBand == old(sap.currentSAPBand) && sap.potentialSAPBand == old(sap.potentialSAPBand)
    {
      sap.BeginFetch();
    }

    /** The handlers of the SAP call; a result also recomputes the price we
        get, and nothing else of the form changes. */
    method CompleteSapFetch(outcome: FetchOutcome)
      requires Valid()
      modifies this, sap
      ensures Valid()
      ensures !sap.isLoading
      ensures outcome.Fetched? ==>
                && sap.isDataLoaded
                && sap.costSavings == StoredSavings(outcome.result.costSavings)
                && sap.currentSAPBand == Some(BandOrDefault(outcome.result.currentSAPBand))
                && sap.potentialSAPBand == Some(BandOrDefault(outcome.result.potentialSAPBand))
                && sap.isError == old(sap.isError) && sap.errorMessage == old(sap.errorMessage)
                && State() == old(State()).(priceWeGet := PriceWeGetFrom(sap.costSavings, old(funders), old(priceWeGet)))
      ensures outcome.Failed? ==>
                && sap.isError && sap.errorMessage == Some(ErrorMessage(outcome.bodyMessage))
                && sap.isDataLoaded == old(sap.isDataLoaded) && sap.costSavings == old(sap.costSavings)
                && sap.currentSAPBand == old(sap.currentSAPBand) && sap.potentialSAPBand == old(sap.potentialSAPBand)
                && State() == old(State())
    {
      sap.CompleteFetch(outcome);
      if outcome.Fetched? {
        UpdatePriceWeGet();
      }
    }

    /** `handleRetry`. */
    method HandleRetry()
      requires Valid()
      modifies sap
      ensures Valid()
      ensures sap.isLoading && !sap.isError
      ensures sap.isDataLoaded == old(sap.isDataLoaded) && sap.costSavings == old(sap.costSavings)
      ensures sap.errorMessage == old(sap.errorMessage)
      ensures sap.currentSAPBand == old(sap.currentSAPBand) && sap.potentialSAPBand == old(sap.potentialSAPBand)
    {
      sap.HandleRetry();
    }
  }
}
