/** Loading the SAP bands and cost savings of a survey: the
    `fetchSAPCostingData` / `handleRetry` state of the cost-savings display
    (the same code sits inside the costing components). The remote call is
    split into the moment it starts and the moment its promise settles. */
module SapBand {
  import opened Wrappers

  /** `result.costSavings` as the server sends it: absent (`undefined`), or
      a value that `parseFloat` reads as a number or as `NaN` (`None`). */
  datatype RawSavings = Undefined | Reported(parsed: Option<real>)

  /** The result of `getSAPAndCostSavings`. */
  datatype SapResult = SapResult(currentSAPBand: Option<string>, potentialSAPBand: Option<string>,
                                 costSavings: RawSavings)

  /** How the promise settles: with a result, or with an error whose `body`
      carries a message (`Failed(None)`: the error has no body). */
  datatype FetchOutcome = Fetched(result: SapResult) | Failed(bodyMessage: Option<string>)

  /** The `costSavings` field: never fetched, the text 'Not Available', or
      the value the server sent. */
  datatype Savings = Unfetched | NotAvailable | Stored(parsed: Option<real>)

  const NO_BAND: string := "No Band"
  const UNKNOWN_ERROR: string := "Unknown error"

  /** `band || 'No Band'`. */
  function BandOrDefault(band: Option<string>): (r: string)
    ensures IsTruthy(band) ==> r == band.value
    ensures !IsTruthy(band) ==> r == NO_BAND
  {
    if IsTruthy(band) then band.value else NO_BAND
  }

  /** `costSavings !== undefined ? costSavings : 'Not Available'`. */
  function StoredSavings(raw: RawSavings): (s: Savings)
    ensures s != Unfetched
    ensures (s == NotAvailable) <==> (raw == Undefined)
    ensures raw.Reported? ==> s == Stored(raw.parsed)
  {
    match raw
    case Undefined => NotAvailable
    case Reported(p) => Stored(p)
  }

  /** `parseFloat(this.costSavings) || 0`: only a stored number counts;
      'Not Available', `undefined` and unreadable values count as 0. */
  function SavingsAmount(s: Savings): (r: real)
    ensures s.Stored? && s.parsed.Some? ==> r == s.parsed.value
    ensures !(s.Stored? && s.parsed.Some?) ==> r == 0.0
  {
    match s
    case Stored(p) => OrZero(p)
    case _ => 0.0
  }

  /** `error.body ? error.body.message : 'Unknown error'`. */
  function ErrorMessage(bodyMessage: Option<string>): (m: string)
    ensures bodyMessage.Some? ==> m == bodyMessage.value
    ensures bodyMessage.None? ==> m == UNKNOWN_ERROR
  {
    bodyMessage.GetOr(UNKNOWN_ERROR)
  }

  /** Savings the server did not send cost nothing in any price computed from them. */
  lemma MissingSavingsCountAsZero(raw: RawSavings)
    requires raw == Undefined || raw == Reported(None)
    ensures SavingsAmount(StoredSavings(raw)) == 0.0
  {
  }

  /** The cost-savings display component (costSavingDisplay.js). */
  class SapCostingDisplay {
    var currentSAPBand: Option<string>
    var potentialSAPBand: Option<string>
    var costSavings: Savings
    var isLoading: bool
    var isError: bool
    var isDataLoaded: bool
    var errorMessage: Option<string>

    /** The flags never say "loading" and "error" at once; loaded data and
        a reported error always come with their values. */
    ghost predicate Valid()
      reads this
    {
      && (isLoading ==> !isError)
      && (isDataLoaded ==> currentSAPBand.Some? && potentialSAPBand.Some? && costSavings != Unfetched)
      && (isError ==> errorMessage.Some?)
    }

    constructor ()
      ensures Valid()
      ensures isLoading && !isError && !isDataLoaded
      ensures currentSAPBand == None && potentialSAPBand == None
      ensures costSavings == Unfetched && errorMessage == None
    {
      currentSAPBand, potentialSAPBand := None, None;
      costSavings := Unfetched;
      isLoading, isError, isDataLoaded := true, false, false;
      errorMessage := None;
    }

    /** `fetchSAPCostingData` up to the remote call (also run by `connectedCallback`). */
    method BeginFetch()
      requires Valid()
      modifies this
      ensures Valid()
      ensures isLoading && !isError
      ensures isDataLoaded == old(isDataLoaded) && errorMessage == old(errorMessage)
      ensures currentSAPBand == old(currentSAPBand) && potentialSAPBand == old(potentialSAPBand)
      ensures costSavings == old(costSavings)
    {
      isLoading := true;
      isError := false;
    }

    /** The `then`/`catch` handlers of the remote call. */
    method CompleteFetch(outcome: FetchOutcome)
      requires Valid()
      modifies this
      ensures Valid()
      ensures !isLoading
      ensures outcome.Fetched? ==>
                && currentSAPBand == Some(BandOrDefault(outcome.result.currentSAPBand))
                && potentialSAPBand == Some(BandOrDefault(outcome.result.potentialSAPBand))
                && costSavings == StoredSavings(outcome.result.costSavings)
                && isDataLoaded && isError == old(isError) && errorMessage == old(errorMessage)
      ensures outcome.Failed? ==>
                && errorMessage == Some(ErrorMessage(outcome.bodyMessage)) && isError
                && isDataLoaded == old(isDataLoaded)
                && currentSAPBand == old(currentSAPBand) && potentialSAPBand == old(potentialSAPBand)
                && costSavings == old(costSavings)
    {
      match outcome
      case Fetched(result) =>
        currentSAPBand := Some(BandOrDefault(result.currentSAPBand));
        potentialSAPBand := Some(BandOrDefault(result.potentialSAPBand));
        costSavings := StoredSavings(result.costSavings);
        isDataLoaded := true;
        isLoading := false;
      case Failed(bodyMessage) =>
        errorMessage := Some(ErrorMessage(bodyMessage));
        isError := true;
        isLoading := false;
    }

    /** `handleRetry`: clear the error and start the fetch again. */
    method HandleRetry()
      requires Valid()
      modifies this
      ensures Valid()
      ensures isLoading && !isError
      ensures isDataLoaded == old(isDataLoaded) && errorMessage == old(errorMessage)
      ensures currentSAPBand == old(currentSAPBand) && potentialSAPBand == old(potentialSAPBand)
      ensures costSavings == old(costSavings)
    {
      isError := false;
      isLoading := true;
      BeginFetch();
    }

    function ShowLoading(): (r: bool)
      reads this
      ensures r <==> isLoading
    {
      isLoading
    }

    function ShowError(): (r: bool)
      reads this
      ensures r <==> isError
    {
      isError
    }

    /** `showData`: data has arrived and no error is showing. */
    function ShowData(): (r: bool)
      reads this
      ensures r <==> isDataLoaded && !isError
    {
      isDataLoaded && !isError
    }

    /** The spinner and the error message are never shown together, and the
        data only shows while no error does. */
    lemma ScreensExclusive()
      requires Valid()
      ensures !(ShowLoading() && ShowError())
      ensures ShowData() ==> !ShowError()
      ensures ShowError() ==> errorMessage.Some?
    {
    }
  }
}
