/**
 * The application-wide error state behind the pop-up: four state cells
 * (the shown value, its severity, whether details are shown, and the retry
 * action), the `show*` setters, `hideError`, `handleRetry` and the
 * classification of failed API calls by HTTP status.
 *
 * The options objects of the setters are modelled key by key: a key can be
 * absent, present with `undefined` (or, for `onRetry`, `null`), or set.
 * Destructuring defaults apply to absent and undefined keys alike, while a
 * spread copies every present key, undefined included.
 */
module ErrorContext {
  import opened Wrappers
  import opened Js
  import opened JsValue
  import ErrorPopup

  /** A retry callback, known by identity only. */
  type Action = nat

  datatype Slot<T> = Absent | Undef | Set(value: T)

  datatype Options = Options(severity: Slot<string>, showDetails: Slot<bool>, onRetry: Slot<Action>)

  const NoOptions := Options(Absent, Absent, Absent)

  /** `const { x = d } = options`: the default unless a value is set. */
  function OrDefault<T>(slot: Slot<T>, default: T): (v: T)
    ensures slot.Set? ==> v == slot.value
    ensures !slot.Set? ==> v == default
  {
    if slot.Set? then slot.value else default
  }

  function RetryOf(slot: Slot<Action>): (r: Option<Action>)
    ensures r.Some? <==> slot.Set?
  {
    if slot.Set? then Some(slot.value) else None
  }

  /** `{...a, ...b}` for one key: a key present in `b` wins, even when undefined. */
  function Spread<T>(a: Slot<T>, b: Slot<T>): (r: Slot<T>)
    ensures !b.Absent? ==> r == b
    ensures b.Absent? ==> r == a
  {
    if b.Absent? then a else b
  }

  /** `{...options, severity: forced}` */
  function ForceSeverity(options: Options, forced: string): Options {
    options.(severity := Set(forced))
  }

  /** What `handleApiError` computes before the caller's options are spread over it. */
  datatype Classification = Classification(severity: string, showDetails: bool)

  /** `status === code` for a strict comparison with a number literal. */
  predicate StatusIs(status: Value, code: real) {
    status == Num(Finite(code))
  }

  /** `status >= 500` for the numeric statuses axios reports. */
  predicate ServerStatus(status: Value) {
    status.Num? && status.n.Finite? && status.n.v >= 500.0
  }

  predicate AuthStatus(status: Value) {
    StatusIs(status, 401.0) || StatusIs(status, 403.0) || StatusIs(status, 404.0)
  }

  /**
   * `handleApiError`'s classification: by the response status when there is
   * a response, as a network problem when only the request exists, and as an
   * error otherwise.
   */
  function Classify(error: Value): (c: Classification)
    ensures
      var response := Get(error, "response");
      var status := Get(response, "status");
      && (c.showDetails <==> Truthy(response) && !AuthStatus(status))
      && (c.severity == "warning" <==>
            (Truthy(response) && (AuthStatus(status) || StatusIs(status, 422.0)))
            || (!Truthy(response) && Truthy(Get(error, "request"))))
      && (c.severity == "warning" || c.severity == "error")
  {
    var response := Get(error, "response");
    if Truthy(response) then
      var status := Get(response, "status");
      if StatusIs(status, 401.0) then Classification("warning", false)
      else if StatusIs(status, 403.0) then Classification("warning", false)
      else if StatusIs(status, 404.0) then Classification("warning", false)
      else if StatusIs(status, 422.0) then Classification("warning", true)
      else if ServerStatus(status) then Classification("error", true)
      else Classification("error", true)
    else if Truthy(Get(error, "request")) then Classification("warning", false)
    else Classification("error", false)
  }

  /** The options `handleApiError` hands to `showError`: the computed ones, then the caller's. */
  function ApiErrorOptions(error: Value, options: Options): (o: Options)
    ensures o.onRetry == options.onRetry
    ensures options.severity.Absent? ==> o.severity == Set(Classify(error).severity)
    ensures !options.severity.Absent? ==> o.severity == options.severity
    ensures options.showDetails.Absent? ==> o.showDetails == Set(Classify(error).showDetails)
    ensures !options.showDetails.Absent? ==> o.showDetails == options.showDetails
  {
    var c := Classify(error);
    Options(Spread(Set(c.severity), options.severity), Spread(Set(c.showDetails), options.showDetails), options.onRetry)
  }

  /** A 401 with no caller options is a warning without details. */
  lemma UnauthorizedIsQuietWarning(error: Value)
    requires Truthy(Get(error, "response")) && StatusIs(Get(Get(error, "response"), "status"), 401.0)
    ensures ApiErrorOptions(error, NoOptions) == Options(Set("warning"), Set(false), Absent)
  {
  }

  /** A server error with no caller options is an error with details. */
  lemma ServerErrorShowsDetails(error: Value)
    requires Truthy(Get(error, "response")) && ServerStatus(Get(Get(error, "response"), "status"))
    ensures ApiErrorOptions(error, NoOptions) == Options(Set("error"), Set(true), Absent)
  {
  }

  class ErrorState {
    var error: Value
    var severity: string
    var showDetails: bool
    var retryAction: Option<Action>

    /** The state `hideError` leaves behind. */
    predicate Hidden()
      reads this
    {
      error == Null && severity == "error" && !showDetails && retryAction.None?
    }

    /** `open={!!error}` */
    predicate Open()
      reads this
    {
      Truthy(error)
    }

    constructor()
      ensures Hidden()
    {
      error := Null;
      severity := "error";
      showDetails := false;
      retryAction := None;
    }

    method ShowError(errorData: Value, options: Options)
      modifies this
      ensures error == errorData
      ensures severity == OrDefault(options.severity, "error")
      ensures showDetails == OrDefault(options.showDetails, false)
      ensures retryAction == RetryOf(options.onRetry)
    {
      error := errorData;
      severity := OrDefault(options.severity, "error");
      showDetails := OrDefault(options.showDetails, false);
      retryAction := RetryOf(options.onRetry);
    }

    method ShowSuccess(message: Value, options: Options)
      modifies this
      ensures error == message && severity == "success"
      ensures showDetails == OrDefault(options.showDetails, false) && retryAction == RetryOf(options.onRetry)
    {
      ShowError(message, ForceSeverity(options, "success"));
    }

    method ShowWarning(message: Value, options: Options)
      modifies this
      ensures error == message && severity == "warning"
      ensures showDetails == OrDefault(options.showDetails, false) && retryAction == RetryOf(options.onRetry)
    {
      ShowError(message, ForceSeverity(options, "warning"));
    }

    method ShowInfo(message: Value, options: Options)
      modifies this
      ensures error == message && severity == "info"
      ensures showDetails == OrDefault(options.showDetails, false) && retryAction == RetryOf(options.onRetry)
    {
      ShowError(message, ForceSeverity(options, "info"));
    }

    method HideError()
      modifies this
      ensures Hidden() && !Open()
    {
      error := Null;
      severity := "error";
      showDetails := false;
      retryAction := None;
    }

    /** `handleRetry`: returns the action it ran, if any, and then hides. */
    method HandleRetry() returns (ran: Option<Action>)
      modifies this
      ensures ran == old(retryAction)
      ensures Hidden()
    {
      ran := retryAction;
      HideError();
    }

    /** `handleClose` of the pop-up, wired to `hideError`. */
    method HandleClose(reason: Option<string>)
      modifies this
      ensures ErrorPopup.Closes(reason) ==> Hidden()
      ensures !ErrorPopup.Closes(reason) ==> unchanged(this)
    {
      if ErrorPopup.Closes(reason) {
        HideError();
      }
    }

    /**
     * `handleApiError`: the original error value is what gets stored; the
     * message the function works out is never used.
     */
    method HandleApiError(apiError: Value, options: Options)
      requires apiError != Null && apiError != Undefined
      modifies this
      ensures error == apiError
      ensures severity == OrDefault(ApiErrorOptions(apiError, options).severity, "error")
      ensures showDetails == OrDefault(ApiErrorOptions(apiError, options).showDetails, false)
      ensures retryAction == RetryOf(options.onRetry)
    {
      ShowError(apiError, ApiErrorOptions(apiError, options));
    }
  }
}
