# SCIS costing calculator, bespoke images and file links — a Dafny model

This project models the client-side logic of the SCIS survey screens, which
are Salesforce Lightning Web Components:

- **The costing calculator** (`sCIS_Costing`, and its copy `sCIS_CostingTest`).
  The surveyor ticks line items from a price catalogue (`costingDetails`):
  beads, loft, surveys, fees, and mechanical vents with a quantity.
  - The screen keeps the selection in an insertion-ordered dictionary
    (`fieldVisibility`).
  - The total is a loop over the selected keys.
  - The price we get is the SAP cost savings times the average funder price.
  - The profit is the difference, clamped at zero, and the percentage is its
    share of the price we get.
  - Saving builds a payload. The saved, summary and finish flags drive the
    screens.
- **The earlier calculator** (`scisFunderCostingTest`). Its price is a fixed
  ABS costing of 501.60 times the funder average. Its profit is not clamped,
  and its profit bar is a red-to-green gradient.
- **The SAP band loader** (`costSavingDisplay`, the same code inside both
  costing screens). It tracks the loading, error and data flags of
  `getSAPAndCostSavings`.
- **The percentage bar** (`percentage`): the class and width text.
- **The bespoke-image form** (`sCIS_BeSpokeComponent`):
  - an image count of 1 to 20 generates rows;
  - each row's name and instructions are edited in place (through `findIndex`);
  - saving sends one record per row, when a measure tab is active and every
    input is valid.
- **The installation-files panel** (`scisInstallationIMGPDF`). It turns the
  id-to-title maps of PDFs and images into download links.

## How the model is built

Each component that updates its fields becomes a Dafny `class` with those
fields. Its handlers are methods with `modifies this` and a full description
of the new state. Getters become functions that read the object. Array
comprehensions and mappings become functions on sequences.

Modelling choices:

- **Money, percentages and quantities** are `real`.
- **`parseFloat` and `NaN`:** a `parseFloat` that yields `NaN` is `None` of
  an `Option<real>`, and `x || 0` is `OrZero`.
- **The selection dictionary** is a value `Dict`, holding the key order and
  the flags. A new key goes at the end, as with JavaScript's `Object.keys`.
  The `totalCost` loop walks that order.
- **Remote calls:** each Apex promise is split into a method that starts the
  call and a method that takes its outcome: data, or an error.
- **The two costing screens** are one class. A `variant` says which file a
  form follows (`Main` is sCIS_Costing, `Test` is sCIS_CostingTest). The two
  files share the line-item handlers, the total, the profit and the SAP
  loader. They differ in the save, finish and existing-records handlers, and
  only sCIS_Costing has the `percentageClass` and `percentageWidth` getters,
  so `PercentageClass` requires the `Main` variant.
- **Duplicate method definitions:** where a file defines a method twice,
  JavaScript keeps the later definition, and that is the one modelled.
  This covers `handleFinish` in sCIS_CostingTest and `resetForm` in
  sCIS_BeSpokeComponent.

Files:

- `wrappers.dfy`: `Option`, `OrZero` and truthiness.
- `text.dfy`: decimal rendering and its inverse, used by `${i + 1}`.
- `visibility.dfy`: `fieldVisibility`.
- `costing_math.dfy`: sums, totals, profit and the funder average.
- `percentage.dfy`: bar class, width and gradient.
- `sap_band.dfy`: the SAP loader.
- `costing_form.dfy`: the main calculator.
- `funder_costing.dfy`: the earlier calculator.
- `bespoke.dfy`: the image form.
- `installation_files.dfy`: the file links.

## Model

| member | source | states |
|---|---|---|
| Wrappers.OrZero | force-app/main/default/lwc/sCIS_Costing/sCIS_Costing.js:128-129 | `parseFloat(x)` or 0: a number is kept, `NaN` becomes 0 |
| Text.NatToString | force-app/main/default/lwc/sCIS_BeSpokeComponent/sCIS_BeSpokeComponent.js:63 | the rendering of a count is a non-empty digit string without a leading zero |
| Text.ParseNatToString | force-app/main/default/lwc/sCIS_BeSpokeComponent/sCIS_BeSpokeComponent.js:63 | reading a rendered count back gives the count (round trip) |
| Text.NatToStringInjective | force-app/main/default/lwc/sCIS_BeSpokeComponent/sCIS_BeSpokeComponent.js:63 | different counts render as different texts |
| Text.PrefixedInjective | force-app/main/default/lwc/sCIS_BeSpokeComponent/sCIS_BeSpokeComponent.js:71 | `prefix + n` texts are different for different `n` |
| FieldVisibility.Dict.Put | force-app/main/default/lwc/sCIS_Costing/sCIS_Costing.js:145 | `fieldVisibility[f] = b` sets `f` to `b` and leaves every other key alone; an existing key keeps its place, and a new key is appended to the key order |
| FieldVisibility.EmptyValid | force-app/main/default/lwc/sCIS_Costing/sCIS_Costing.js:27 | the initial `{}` is a well-formed dictionary |
| CostingMath.Price | force-app/main/default/lwc/sCIS_Costing/sCIS_Costing.js:173 | a catalogue price, 0 when the catalogue has no such field |
| CostingMath.Lookup | force-app/main/default/lwc/sCIS_Costing/sCIS_Costing.js:243 | `costingDetails[f]` is present exactly when the catalogue has `f`, and is its price |
| CostingMath.Term | force-app/main/default/lwc/sCIS_Costing/sCIS_Costing.js:184-185 | a key adds its catalogue price exactly when it is selected and not skipped, and 0 otherwise |
| CostingMath.ItemsSum | force-app/main/default/lwc/sCIS_Costing/sCIS_Costing.js:179-187 | the accumulator after the loop over some keys; with no checkbox ever set it is 0 |
| CostingMath.VisibleSum | force-app/main/default/lwc/sCIS_Costing/sCIS_Costing.js:183-187 | the loop over all keys of `fieldVisibility`; the initial `{}` sums to 0 |
| CostingMath.VentsCost | force-app/main/default/lwc/sCIS_Costing/sCIS_Costing.js:190-193 | the vents add quantity x unit price when they are selected and the quantity is positive, and nothing otherwise |
| CostingMath.CostingTotal | force-app/main/default/lwc/sCIS_Costing/sCIS_Costing.js:178-197 | with vents selected and a positive quantity the total is the loop sum (vents skipped) plus quantity x unit price; otherwise it is the loop sum alone |
| CostingMath.FunderTotal | scisFunderCosting/scisFunderCostingTest.js:127-139 | the earlier total is the loop sum over every selected key, vents included, plus the stored vents cost whether or not vents are selected; a `NaN` cost adds nothing |
| CostingMath.ItemsSumUpdate | force-app/main/default/lwc/sCIS_Costing/sCIS_Costing.js:183-187 | over distinct keys, changing one key's flag changes the loop total by exactly the change of that key's contribution |
| CostingMath.VisibleSumAfterPut | force-app/main/default/lwc/sCIS_Costing/sCIS_Costing.js:183-187 | ticking or unticking an item changes the sum of the selected items by exactly that item's old and new contribution |
| CostingMath.VisibleSumIgnoresSkipped | force-app/main/default/lwc/sCIS_Costing/sCIS_Costing.js:184 | the vents checkbox does not change the loop's sum, which skips `Mechanical_Vents__c` |
| CostingMath.ItemsSumNonNegative | force-app/main/default/lwc/sCIS_Costing/sCIS_Costing.js:183-187 | with non-negative prices the loop total is non-negative |
| CostingMath.ItemsSumExclude | scisFunderCosting/scisFunderCostingTest.js:130-134 | a loop that does not skip the vents key totals the skipping loop plus the vents unit price, when vents are selected |
| CostingMath.CostingTotalNonNegative | force-app/main/default/lwc/sCIS_Costing/sCIS_Costing.js:178-197 | with non-negative prices `totalCost` is non-negative |
| CostingMath.FunderTotalVersusCostingTotal | scisFunderCosting/scisFunderCostingTest.js:127-139 | the earlier calculator's total is the main total plus the vents unit price when vents are selected, or plus the stored vents cost when they are not |
| CostingMath.ClampedProfit | force-app/main/default/lwc/sCIS_Costing/sCIS_Costing.js:200-205 | `profitAmount` is the margin when it is positive and 0 otherwise, so it is never negative and never below the margin |
| CostingMath.ProfitPercentage | force-app/main/default/lwc/sCIS_Costing/sCIS_Costing.js:208-212 | `profitPercentage` is 0 without a positive price we get, otherwise `pct x price = profit x 100` |
| CostingMath.RatioBounds | force-app/main/default/lwc/sCIS_Costing/sCIS_Costing.js:211 | a part of a positive whole, divided by the whole, lies in [0, 1] |
| CostingMath.ClampedPercentageBounds | force-app/main/default/lwc/sCIS_Costing/sCIS_Costing.js:200-212 | with a non-negative cost, the percentage of the clamped profit lies in [0, 100] |
| CostingMath.UnclampedPercentageBounds | scisFunderCosting/scisFunderCostingTest.js:142-156 | the unclamped percentage is at most 100, and negative exactly when the cost exceeds the price we get |
| CostingMath.FunderAveragePrice | force-app/main/default/lwc/sCIS_Costing/sCIS_Costing.js:233-236 | the average times the number of funders is the sum of their prices |
| CostingMath.PriceSum | force-app/main/default/lwc/sCIS_Costing/sCIS_Costing.js:234 | the `reduce` over no funders is its initial 0 |
| CostingMath.FunderPrice | force-app/main/default/lwc/sCIS_Costing/sCIS_Costing.js:235 | with no funders the average is `NaN` (`None`); otherwise it is the average |
| CostingMath.PriceSumBounds | force-app/main/default/lwc/sCIS_Costing/sCIS_Costing.js:234 | the `reduce` sum lies between n x the lowest and n x the highest price |
| CostingMath.AverageWithinBounds | force-app/main/default/lwc/sCIS_Costing/sCIS_Costing.js:233-236 | the average lies between the lowest and the highest funder price |
| CostingMath.CancelPositiveFactor | force-app/main/default/lwc/sCIS_Costing/sCIS_Costing.js:235 | dividing by the positive funder count keeps the order of two amounts |
| CostingMath.AverageExample | force-app/main/default/lwc/sCIS_Costing/sCIS_Costing.js:233-236 | funders priced 100 and 200 average to 150 |
| Percentage.ProfitTier | force-app/main/default/lwc/percentage/percentage.js:7-15 | green exactly from 35 up, yellow exactly strictly between 0 and 35, red exactly at 0 and below |
| Percentage.TierMonotone | force-app/main/default/lwc/percentage/percentage.js:7-15 | a higher percentage never gets a worse class |
| Percentage.CssClassInjective | force-app/main/default/lwc/percentage/percentage.js:9-13 | the three class names are pairwise distinct, so the class identifies the tier |
| Percentage.DefaultIsYellow | force-app/main/default/lwc/percentage/percentage.js:4-15 | example: the default percentage 33 shows `yellow-bar` |
| Percentage.PercentageWidth | force-app/main/default/lwc/percentage/percentage.js:18-20 | the width is the rendered percentage followed by `%` |
| Percentage.WidthPercentage | force-app/main/default/lwc/percentage/percentage.js:18-20 | the inverse reading of a width: a trailing `%` is dropped (putting it back gives the width), any other text is kept |
| Percentage.WidthRoundTrip | force-app/main/default/lwc/percentage/percentage.js:18-20 | stripping the `%` from a width gives the rendered percentage back |
| Percentage.DefaultWidth | force-app/main/default/lwc/percentage/percentage.js:4-20 | example: the default width is `33%` |
| Percentage.GreenIntensity | scisFunderCosting/scisFunderCostingTest.js:176 | `Math.floor(p / 35 x 255)` is an integer in [0, 255] within 1 below the exact value |
| Percentage.ProfitBarColor | scisFunderCosting/scisFunderCostingTest.js:170-181 | green above 35, red below 0; from 0 to 35 exactly `rgb(255 - g, g, 0)` with `g` the green intensity, so red + green = 255, pure red at 0 and pure green at 35 |
| Percentage.BarColor.Css | scisFunderCosting/scisFunderCostingTest.js:170-181 | the returned CSS text: `green`, `red`, or `rgb(` red `, ` green `, 0)` with both channels in decimal |
| Percentage.GreenIntensityMonotone | scisFunderCosting/scisFunderCostingTest.js:174-177 | within the gradient, more profit never means less green |
| SapBand.BandOrDefault | force-app/main/default/lwc/costSavingDisplay/costSavingDisplay.js:26-27 | a falsy band (missing or empty) shows `No Band`; any other band is kept |
| SapBand.StoredSavings | force-app/main/default/lwc/costSavingDisplay/costSavingDisplay.js:28 | missing savings store `Not Available`; sent savings are stored as sent |
| SapBand.SavingsAmount | force-app/main/default/lwc/sCIS_Costing/sCIS_Costing.js:128 | only stored numeric savings count; `Not Available`, unfetched and unreadable savings count as 0 |
| SapBand.ErrorMessage | force-app/main/default/lwc/costSavingDisplay/costSavingDisplay.js:34 | the body's message, or `Unknown error` when the error has no body |
| SapBand.MissingSavingsCountAsZero | force-app/main/default/lwc/costSavingDisplay/costSavingDisplay.js:28 | savings the server did not send, or sent unreadable, contribute 0 to the price we get |
| SapBand.SapCostingDisplay.constructor | force-app/main/default/lwc/costSavingDisplay/costSavingDisplay.js:6-12 | starts loading, with no error and no data |
| SapBand.SapCostingDisplay.BeginFetch | force-app/main/default/lwc/costSavingDisplay/costSavingDisplay.js:20-23 | the fetch sets loading and clears the error, and changes nothing else |
| SapBand.SapCostingDisplay.CompleteFetch | force-app/main/default/lwc/costSavingDisplay/costSavingDisplay.js:24-37 | a result stores both bands (defaulted) and the savings and marks data loaded; an error stores its message and sets the error flag; loading ends either way |
| SapBand.SapCostingDisplay.HandleRetry | force-app/main/default/lwc/costSavingDisplay/costSavingDisplay.js:41-45 | retry clears the error and starts loading again |
| SapBand.SapCostingDisplay.ShowLoading | force-app/main/default/lwc/costSavingDisplay/costSavingDisplay.js:48-50 | the spinner shows exactly while loading |
| SapBand.SapCostingDisplay.ShowError | force-app/main/default/lwc/costSavingDisplay/costSavingDisplay.js:52-54 | the error panel shows exactly while an error is set |
| SapBand.SapCostingDisplay.ShowData | force-app/main/default/lwc/costSavingDisplay/costSavingDisplay.js:56-58 | the data shows exactly when loaded and no error is set |
| SapBand.SapCostingDisplay.ScreensExclusive | force-app/main/default/lwc/costSavingDisplay/costSavingDisplay.js:48-58 | in every reachable state the spinner and the error never show together, data never shows beside an error, and an error always has a message |
| CostingComponent.LineAmount | force-app/main/default/lwc/sCIS_Costing/sCIS_Costing.js:243 | a selected item saves its catalogue value (`undefined` when the catalogue lacks it); an unselected one saves 0 |
| CostingComponent.LineItems | force-app/main/default/lwc/sCIS_Costing/sCIS_Costing.js:243-260 | the payload carries one amount per line-item field, in payload order |
| CostingComponent.NothingSelectedSavesZeros | force-app/main/default/lwc/sCIS_Costing/sCIS_Costing.js:243-260 | with nothing selected every line item saves 0 |
| CostingComponent.BeadSwapTotal | force-app/main/default/lwc/sCIS_Costing/sCIS_Costing.js:103-116 | switching from Innovation Bead to Normal Bead changes the total by exactly the Normal Bead price minus the Innovation Bead price |
| CostingComponent.TotalExample | force-app/main/default/lwc/sCIS_Costing/sCIS_Costing.js:178-197 | Normal Bead 185.80 and Loft 210.00 selected total 395.80 |
| CostingComponent.TickedVents | force-app/main/default/lwc/sCIS_Costing/sCIS_Costing.js:157 | `mechanicalVents || 1`: a non-zero quantity is kept, 0 becomes 1, and a non-negative quantity ends positive |
| CostingComponent.VentsInput | force-app/main/default/lwc/sCIS_Costing/sCIS_Costing.js:164-167 | `value >= 1 ? value : 1` of the parsed input: at least 1, the input when it is a number of at least 1, and 1 otherwise (`NaN` included) |
| CostingComponent.OneBeadSelected | force-app/main/default/lwc/sCIS_Costing/sCIS_Costing.js:103-116 | after the bead handler Normal Bead has the new value, Innovation Bead the opposite, and every other selection is as before |
| CostingComponent.CostingForm.constructor | force-app/main/default/lwc/sCIS_Costing/sCIS_Costing.js:18-47 | the initial field values: nothing saved, empty catalogue and selection, price 0, vents 0, Innovation Bead checked, SAP loading |
| CostingComponent.CostingForm.ConnectedCallback | force-app/main/default/lwc/sCIS_Costing/sCIS_Costing.js:53-55 | connecting starts the SAP fetch |
| CostingComponent.CostingForm.ReceiveSurvey | force-app/main/default/lwc/sCIS_Costing/sCIS_Costing.js:59-66 | the survey's name and owner are stored; every other field of the form is unchanged |
| CostingComponent.CostingForm.ReceiveFunders | force-app/main/default/lwc/sCIS_Costing/sCIS_Costing.js:70-79 | the funder list is stored; every other field, the price we get included, is unchanged |
| CostingComponent.CostingForm.PriceWeGetFrom | force-app/main/default/lwc/sCIS_Costing/sCIS_Costing.js:124-130 | with no funders the price stays as it was; otherwise it is savings x funder average |
| CostingComponent.CostingForm.UpdatePriceWeGet | force-app/main/default/lwc/sCIS_Costing/sCIS_Costing.js:124-134 | the new price is `PriceWeGetFrom` of the stored savings and funders; every other field is unchanged |
| CostingComponent.CostingForm.ReceiveCostingDetails | force-app/main/default/lwc/sCIS_Costing/sCIS_Costing.js:83-96 | the catalogue is stored, Innovation Bead is selected (flag and dictionary) exactly when its price is non-zero, and the price is recomputed; every other field is unchanged |
| CostingComponent.CostingForm.HandleNormalBeadChange | force-app/main/default/lwc/sCIS_Costing/sCIS_Costing.js:103-116 | the Normal Bead flag and key take the new value and the Innovation Bead flag and key the opposite; every other field is unchanged |
| CostingComponent.CostingForm.HandleInnovationBeadChange | force-app/main/default/lwc/sCIS_Costing/sCIS_Costing.js:118-121 | only the Innovation Bead flag and key change; Normal Bead and every other field are unchanged |
| CostingComponent.CostingForm.HandleCheckboxChange | force-app/main/default/lwc/sCIS_Costing/sCIS_Costing.js:143-146 | the ticked key takes the new flag; every other field is unchanged |
| CostingComponent.CostingForm.UpdateMechanicalVentsCost | force-app/main/default/lwc/sCIS_Costing/sCIS_Costing.js:172-175 | the stored vents cost becomes quantity x catalogue unit price; every other field is unchanged |
| CostingComponent.CostingForm.HandleMechanicalVentsChange | force-app/main/default/lwc/sCIS_Costing/sCIS_Costing.js:149-160 | ticking vents sets the key, keeps a non-zero quantity or starts it at 1, and stores that quantity x unit price; unticking changes only the key |
| CostingComponent.CostingForm.HandleMechanicalVentsValueChange | force-app/main/default/lwc/sCIS_Costing/sCIS_Costing.js:163-169 | the quantity becomes the parsed input when it is at least 1, and 1 otherwise (`NaN` included), and the stored cost follows it; every other field is unchanged |
| CostingComponent.CostingForm.Total | force-app/main/default/lwc/sCIS_Costing/sCIS_Costing.js:178-197 | the total of the form's selection; with vents unticked it is exactly the selected flat prices, whatever quantity was entered |
| CostingComponent.CostingForm.TotalCost | force-app/main/default/lwc/sCIS_Costing/sCIS_Costing.js:178-197 | the loop over the selection keys computes the total: the selected prices except vents, plus the vents cost |
| CostingComponent.CostingForm.ProfitAmount | force-app/main/default/lwc/sCIS_Costing/sCIS_Costing.js:200-205 | the profit is the margin or 0, never negative and never below price minus total |
| CostingComponent.CostingForm.ProfitPercentage | force-app/main/default/lwc/sCIS_Costing/sCIS_Costing.js:208-212 | 0 without a positive price we get, otherwise `pct x price = profit x 100` |
| CostingComponent.CostingForm.ProfitPercentageBounds | force-app/main/default/lwc/sCIS_Costing/sCIS_Costing.js:200-212 | with non-negative catalogue prices the percentage lies in [0, 100] |
| CostingComponent.CostingForm.PercentageClass | force-app/main/default/lwc/sCIS_Costing/sCIS_Costing.js:217-225 | `green-bar` exactly from 35 up, `yellow-bar` exactly strictly between 0 and 35, `red-bar` exactly at 0 and below, of the form's own percentage |
| CostingComponent.CostingForm.Payload | force-app/main/default/lwc/sCIS_Costing/sCIS_Costing.js:240-264 | the payload carries the survey name and record id, one amount per line item, the vents quantity when ticked (else 0), the catalogue funder, the funder average (`NaN` with no funders), the price we get, the clamped profit, and no id |
| CostingComponent.CostingForm.HandleSave | force-app/main/default/lwc/sCIS_Costing/sCIS_Costing.js:239-272 | in sCIS_Costing an existing id is added to the payload and shows the saved summary; without one the payload goes as built and nothing changes. sCIS_CostingTest (lines 200-245) sends the payload as built and only marks the form finished; every other field is unchanged |
| CostingComponent.CostingForm.SaveSettled | force-app/main/default/lwc/sCIS_Costing/sCIS_Costing.js:275-293 | on success sCIS_Costing shows the saved, finished screen without the summary, and sCIS_CostingTest only marks the form saved; a failure changes no flag; no other field changes |
| CostingComponent.CostingForm.HandleFinish | force-app/main/default/lwc/sCIS_Costing/sCIS_Costing.js:311-315 | finishing shows the saved summary and nothing else changes; in sCIS_CostingTest the later definition (lines 258-262) does the same |
| CostingComponent.CostingForm.HandleEdit | force-app/main/default/lwc/sCIS_Costing/sCIS_Costing.js:319-324 | editing clears the saved, summary and finish flags; nothing else changes |
| CostingComponent.CostingForm.ReceiveCostingRecords | force-app/main/default/lwc/sCIS_Costing/sCIS_Costing.js:389-414 | at least one record shows the saved summary; no record hides the summary; an error is recorded; the count is stored, loading ends in every case, and no other field changes |
| CostingComponent.CostingForm.BeginSapFetch | force-app/main/default/lwc/sCIS_Costing/sCIS_Costing.js:338-341 | the fetch sets loading and clears the error |
| CostingComponent.CostingForm.CompleteSapFetch | force-app/main/default/lwc/sCIS_Costing/sCIS_Costing.js:342-362 | a result stores the bands and savings and recomputes the price we get, and nothing else on the form changes; an error stores its message and leaves the form unchanged |
| CostingComponent.CostingForm.HandleRetry | force-app/main/default/lwc/sCIS_Costing/sCIS_Costing.js:366-370 | retry clears the error and starts loading again |
| FunderCosting.AbsPriceWeGet | scisFunderCosting/scisFunderCostingTest.js:120-124 | the price is 501.60 x the funder average, and 0 with no funders |
| FunderCosting.ClampVents | scisFunderCosting/scisFunderCostingTest.js:97-104 | a negative input becomes 0 and anything else is kept, `NaN` included; a kept number is never negative |
| FunderCosting.VentsCostOf | scisFunderCosting/scisFunderCostingTest.js:111-117 | the stored cost is quantity x unit price, and `NaN` exactly when the quantity is `NaN` |
| FunderCosting.VentsUnitPriceCountedTwice | scisFunderCosting/scisFunderCostingTest.js:127-139 | as written: 3 vents at 350, selected, total 1400, where the main rule gives 1050 |
| FunderCosting.UnselectedVentsStillCharged | scisFunderCosting/scisFunderCostingTest.js:136 | as written: unselected vents still add their stored 1050 to the total, where the main rule gives 0 |
| FunderCosting.SelectedVentsCostQuantityTimesPrice | force-app/main/default/lwc/sCIS_Costing/sCIS_Costing.js:183-193 | corrected: ticking vents adds exactly quantity x unit price to the other items |
| FunderCosting.UnselectedVentsCostNothing | force-app/main/default/lwc/sCIS_Costing/sCIS_Costing.js:190 | corrected: unticked vents add nothing, whatever quantity was entered |
| FunderCosting.FunderCostingForm.constructor | scisFunderCosting/scisFunderCostingTest.js:7-18 | the initial values: empty lists, price 0, vents 0, Innovation Bead checked |
| FunderCosting.FunderCostingForm.ReceiveFunders | scisFunderCosting/scisFunderCostingTest.js:22-31 | the funder list is stored; every other field is unchanged |
| FunderCosting.FunderCostingForm.UpdatePriceWeGet | scisFunderCosting/scisFunderCostingTest.js:120-124 | the price becomes the ABS price of the stored funders, with no funder guard; every other field is unchanged |
| FunderCosting.FunderCostingForm.ReceiveCostingDetails | scisFunderCosting/scisFunderCostingTest.js:35-48 | the catalogue is stored, Innovation Bead is selected (flag and dictionary) exactly when its price is non-zero, and the price is recomputed; every other field is unchanged |
| FunderCosting.FunderCostingForm.HandleCheckboxChange | scisFunderCosting/scisFunderCostingTest.js:59-63 | the ticked key takes the new flag; every other field is unchanged |
| FunderCosting.FunderCostingForm.HandleNormalBeadChange | scisFunderCosting/scisFunderCostingTest.js:69-82 | Normal Bead takes the new value and Innovation Bead the opposite, so exactly one bead is selected; every other field is unchanged |
| FunderCosting.FunderCostingForm.HandleInnovationBeadChange | scisFunderCosting/scisFunderCostingTest.js:85-88 | only the Innovation Bead flag and key change; every other field is unchanged |
| FunderCosting.FunderCostingForm.HandleMechanicalVentsChange | scisFunderCosting/scisFunderCostingTest.js:91-93 | only the vents key changes; quantity, stored cost and every other field stay |
| FunderCosting.FunderCostingForm.UpdateMechanicalVentsCost | scisFunderCosting/scisFunderCostingTest.js:111-117 | the stored cost becomes `VentsCostOf` the quantity and the catalogue unit price; every other field is unchanged |
| FunderCosting.FunderCostingForm.HandleMechanicalVentsValueChange | scisFunderCosting/scisFunderCostingTest.js:96-108 | the quantity is the clamped input and the stored cost follows it; every other field is unchanged |
| FunderCosting.FunderCostingForm.Total | scisFunderCosting/scisFunderCostingTest.js:127-139 | with a readable stored vents cost, the total is the loop sum over every selected key plus that cost |
| FunderCosting.FunderCostingForm.TotalCost | scisFunderCosting/scisFunderCostingTest.js:127-139 | the loop over the selection keys, plus the stored vents cost, computes `FunderTotal` |
| FunderCosting.FunderCostingForm.ProfitAmount | scisFunderCosting/scisFunderCostingTest.js:142-146 | profit plus total is exactly the price we get; the profit may be negative |
| FunderCosting.FunderCostingForm.ProfitPercentage | scisFunderCosting/scisFunderCostingTest.js:149-156 | 0 without a positive price we get, otherwise `pct x price = profit x 100` |
| FunderCosting.FunderCostingForm.LossShowsRed | scisFunderCosting/scisFunderCostingTest.js:170-181 | a total above the price we get gives a negative profit and a red bar |
| FunderCosting.FunderCostingForm.ProfitBarColor | scisFunderCosting/scisFunderCostingTest.js:170-181 | green above 35, red below 0, and from 0 to 35 the gradient of the green intensity of the form's own percentage |
| Bespoke.ImageOptions | force-app/main/default/lwc/sCIS_BeSpokeComponent/sCIS_BeSpokeComponent.js:62-64 | exactly 20 entries; entry i has label and value both the text of i + 1 |
| Bespoke.ImageOptionValue | force-app/main/default/lwc/sCIS_BeSpokeComponent/sCIS_BeSpokeComponent.js:63 | choosing entry i asks for i + 1 images |
| Bespoke.ImageOptionsDistinct | force-app/main/default/lwc/sCIS_BeSpokeComponent/sCIS_BeSpokeComponent.js:63 | no two entries share a value |
| Bespoke.NewRow | force-app/main/default/lwc/sCIS_BeSpokeComponent/sCIS_BeSpokeComponent.js:70-76 | row i has id `row_i`, empty name and instructions, and the labels `Image i+1 Name` and `Image i+1 Instructions` |
| Bespoke.NewRows | force-app/main/default/lwc/sCIS_BeSpokeComponent/sCIS_BeSpokeComponent.js:70 | n images give exactly n rows, row i being `NewRow(i)` |
| Bespoke.NewRowIdsDistinct | force-app/main/default/lwc/sCIS_BeSpokeComponent/sCIS_BeSpokeComponent.js:71 | the generated ids are pairwise distinct |
| Bespoke.FindRowIndex | force-app/main/default/lwc/sCIS_BeSpokeComponent/sCIS_BeSpokeComponent.js:82 | `findIndex` is -1 exactly when no row has the id; otherwise it is the first row with the id |
| Bespoke.SetField | force-app/main/default/lwc/sCIS_BeSpokeComponent/sCIS_BeSpokeComponent.js:84 | an edit replaces the name or the instructions of a row and nothing else |
| Bespoke.UpdateRow | force-app/main/default/lwc/sCIS_BeSpokeComponent/sCIS_BeSpokeComponent.js:80-95 | an edit keeps the number of rows |
| Bespoke.UpdateAtFoundIndex | force-app/main/default/lwc/sCIS_BeSpokeComponent/sCIS_BeSpokeComponent.js:82-85 | updating in place at the `findIndex` result is the first-match edit, and an index of -1 is no edit |
| Bespoke.UpdateRowFrame | force-app/main/default/lwc/sCIS_BeSpokeComponent/sCIS_BeSpokeComponent.js:80-95 | only the matching row changes, and it gets the new text |
| Bespoke.UnknownIdIsNoOp | force-app/main/default/lwc/sCIS_BeSpokeComponent/sCIS_BeSpokeComponent.js:83 | an id no row carries leaves the list unchanged |
| Bespoke.EditGeneratedRow | force-app/main/default/lwc/sCIS_BeSpokeComponent/sCIS_BeSpokeComponent.js:70-93 | in a generated list, editing `row_i` finds row i and changes only it |
| Bespoke.AllValid | force-app/main/default/lwc/sCIS_BeSpokeComponent/sCIS_BeSpokeComponent.js:120-126 | the fold is true exactly when every input is valid |
| Bespoke.RecordOf | force-app/main/default/lwc/sCIS_BeSpokeComponent/sCIS_BeSpokeComponent.js:129-135 | a record carries its row's name and instructions, the measure, the record id and the lead |
| Bespoke.ToRecords | force-app/main/default/lwc/sCIS_BeSpokeComponent/sCIS_BeSpokeComponent.js:129 | one record per row, in row order |
| Bespoke.NameReachesRecord | force-app/main/default/lwc/sCIS_BeSpokeComponent/sCIS_BeSpokeComponent.js:80-135 | a name typed into `row_i` is what record i carries; the other records keep empty names |
| Bespoke.BespokeForm.constructor | force-app/main/default/lwc/sCIS_BeSpokeComponent/sCIS_BeSpokeComponent.js:18-29 | initial values: count 0, empty measure, lead and measures, no rows, not saved |
| Bespoke.BespokeForm.ReceiveSurvey | force-app/main/default/lwc/sCIS_BeSpokeComponent/sCIS_BeSpokeComponent.js:33-42 | stores the lead and the measures; `noMeasures` holds exactly when the measures text is empty or missing |
| Bespoke.BespokeForm.HandleTabChange | force-app/main/default/lwc/sCIS_BeSpokeComponent/sCIS_BeSpokeComponent.js:57-59 | the selected measure becomes the tab's value |
| Bespoke.BespokeForm.HandleImageCountChange | force-app/main/default/lwc/sCIS_BeSpokeComponent/sCIS_BeSpokeComponent.js:67-77 | the count is stored and the rows are regenerated |
| Bespoke.BespokeForm.HandleRowChange | force-app/main/default/lwc/sCIS_BeSpokeComponent/sCIS_BeSpokeComponent.js:80-95 | the in-place edit at the found index gives `UpdateRow` of the old list |
| Bespoke.BespokeForm.HandleNameChange | force-app/main/default/lwc/sCIS_BeSpokeComponent/sCIS_BeSpokeComponent.js:80-86 | the row list becomes the name edit of the old list; nothing else changes |
| Bespoke.BespokeForm.HandleDescriptionChange | force-app/main/default/lwc/sCIS_BeSpokeComponent/sCIS_BeSpokeComponent.js:89-95 | the row list becomes the instructions edit of the old list; nothing else changes |
| Bespoke.BespokeForm.HandleSave | force-app/main/default/lwc/sCIS_BeSpokeComponent/sCIS_BeSpokeComponent.js:108-154 | the form is marked saved first. No active tab means no call. With a tab the measure is stored, and only when every input is valid the call sends `ToRecords` of the rows |
| Bespoke.BespokeForm.CreateSettled | force-app/main/default/lwc/sCIS_BeSpokeComponent/sCIS_BeSpokeComponent.js:138-150 | success resets the form; a failure changes nothing |
| Bespoke.BespokeForm.ResetForm | force-app/main/default/lwc/sCIS_BeSpokeComponent/sCIS_BeSpokeComponent.js:177-181 | saved, count 0, no rows; the selected measure is kept |
| Bespoke.BespokeForm.HandleFinish | force-app/main/default/lwc/sCIS_BeSpokeComponent/sCIS_BeSpokeComponent.js:168-174 | ends not saved, with count 0 and no rows |
| InstallationFiles.DownloadUrl | force-app/main/default/lwc/scisInstallationIMGPDF/scisInstallationIMGPDF.js:20 | the link is the download prefix followed by the id |
| InstallationFiles.UrlId | force-app/main/default/lwc/scisInstallationIMGPDF/scisInstallationIMGPDF.js:20 | a link with the download prefix yields the id after it; any other text yields none |
| InstallationFiles.UrlIdRoundTrip | force-app/main/default/lwc/scisInstallationIMGPDF/scisInstallationIMGPDF.js:20 | the link of an id leads back to that id |
| InstallationFiles.DownloadUrlInjective | force-app/main/default/lwc/scisInstallationIMGPDF/scisInstallationIMGPDF.js:20 | different ids get different links |
| InstallationFiles.ToFileLinks | force-app/main/default/lwc/scisInstallationIMGPDF/scisInstallationIMGPDF.js:17-21 | one link per entry, in entry order, keeping id and title |
| InstallationFiles.LinksOpenTheirFiles | force-app/main/default/lwc/scisInstallationIMGPDF/scisInstallationIMGPDF.js:17-27 | every link opens the file of its own entry |
| InstallationFiles.LinksOrEmpty | force-app/main/default/lwc/scisInstallationIMGPDF/scisInstallationIMGPDF.js:21 | a missing map gives no links |
| InstallationFiles.WiredFiles | force-app/main/default/lwc/scisInstallationIMGPDF/scisInstallationIMGPDF.js:12-31 | data replaces both lists, each built from its own map; an error or no answer keeps both lists |
| InstallationFiles.WiredFilesIndependent | force-app/main/default/lwc/scisInstallationIMGPDF/scisInstallationIMGPDF.js:17-27 | the new lists depend neither on the old ones nor on each other's map |
| InstallationFiles.ErrorAfterDataKeepsLinks | force-app/main/default/lwc/scisInstallationIMGPDF/scisInstallationIMGPDF.js:28-30 | an error after a successful load keeps the loaded links |
| InstallationFiles.OnePdfExample | force-app/main/default/lwc/scisInstallationIMGPDF/scisInstallationIMGPDF.js:15-27 | one PDF and no image map give one link and an empty image list |

## Left out

- **Remote calls.** The Apex methods (`getCostingDetails`, `getFunders`,
  `saveCosting`, `getSAPAndCostSavings`, `getCostingRecordsByPropertyOwner`,
  `createBespokeRecords`, `getBespokeRecords`, `getRelatedFilesByRecordId`),
  the `getRecord` wire adapters and `refreshApex` are remote I/O. They enter
  only as received values and success/failure outcomes.
- **Browser effects.** Toasts, `window.scrollTo`, `window.open`
  (`handlePdfClick`), `console` logging and `alert` are side effects only.
  The earlier calculator's `handleSave` and `handlePrevious` only raise an
  alert, so they are not modelled.
- **Auto-refresh.** `refreshCostingData`, `startAutoRefresh`,
  `stopAutoRefresh` and `disconnectedCallback` of sCIS_Costing are timers
  around `refreshApex`. A refresh sets `isLoading` without clearing
  `isError`, so `SapBand.SapCostingDisplay.Valid` is not claimed across a
  refresh.
- **The bespoke records table.** `wiredBespokeRecords`, the `bespokeRecords`
  list and its refresh after a create only display server data.
- **Unused rendering code.** `renderedCallback` (it sets Innovation Bead
  again on render) and the `normalBeadStatus` getter are display-only. The
  standalone `checkbox` component is not part of this model.
- **Rounding and number text.** `toFixed(2)` rounding and the text round
  trips through `parseFloat` are not modelled; amounts are exact reals.
  `PercentageWidth` takes the percentage already rendered as text, because
  JavaScript's number-to-text rendering is not modelled.
- **Non-numeric catalogue values** other than the funder name are not
  modelled. `parseFloat` of such a value is `NaN` and the loop would add 0.
- **Wire errors that only log.** The survey, funder and catalogue wires only
  log an error; the model has no handler for those outcomes. The bespoke
  survey wire also stores the error, and that is left out too.
- **The error body.** An error with a `body` but no `message` would show
  `undefined`. `FetchOutcome` only distinguishes a body with a message from
  no body.
- **`existingCostingId`.** sCIS_Costing never assigns this field. It is an
  input of `CostingComponent.CostingForm.HandleSave`.
- **The sCIS_CostingTest survey wire** passes `recordId2` as the adapter
  parameter. It is modelled as receiving the survey like sCIS_Costing does,
  because what the adapter then returns is platform behaviour.
- **Screen states that the code lacks.** A separate draft/editing state
  machine, a guard against double submission and a cancel-edit action are
  not in the components, so they are not in the model.
- **`imageCount`** is the combobox's text value, which `Array.from`
  converts to a length. The model takes the count as a natural number, and
  `Bespoke.ImageOptionValue` ties each option's text to its count.
- **Entry order of `Object.entries`.** JavaScript lists integer-like keys
  first. The model keeps the order in which the server's entries are given.
- **Bespoke `allValid`.** The fold also calls `reportValidity` on every
  input; only the boolean result is modelled.
- **Shadowed definitions.** The first `handleFinish` of sCIS_CostingTest
  (lines 251-255) and the first `resetForm` of sCIS_BeSpokeComponent (lines
  158-162) are replaced by the later definitions, so they never run.

## Findings

| source | as written | input that shows it | evidently intended | confidence | as-written member | corrected member |
|---|---|---|---|---|---|---|
| scisFunderCosting/scisFunderCostingTest.js:130-136 | the key loop also adds `Mechanical_Vents__c`, so the vent unit price is counted on top of quantity x unit price | vents selected, quantity 3, unit price 350: total 1400 | 3 x 350 = 1050, as sCIS_Costing computes by skipping the vents key | not executed | FunderCosting.VentsUnitPriceCountedTwice | FunderCosting.SelectedVentsCostQuantityTimesPrice |
| scisFunderCosting/scisFunderCostingTest.js:136 | the stored vents cost is added whether or not vents are selected | quantity 3 at 350 entered, then vents unticked: total 1050 | unticked vents cost 0, as sCIS_Costing checks the vents flag | not executed | FunderCosting.UnselectedVentsStillCharged | FunderCosting.UnselectedVentsCostNothing |
