/**
 * The client side of the dashboard: the recovery colour classifier, the
 * four mutually exclusive view states, the metric cards and the decision of
 * `fetchRecovery` from the server's answer.
 *
 * The DOM is a view object whose fields are the elements' `style.display`,
 * `textContent` and `className`; the page navigation is a field holding the
 * new `location.href`.
 */
module Dashboard {
  import opened Wrappers

  // ---------------------------------------------------------------------
  // getRecoveryColorClass
  // ---------------------------------------------------------------------

  const Green := "recovery-green"
  const Yellow := "recovery-yellow"
  const Red := "recovery-red"

  /** `getRecoveryColorClass(score)`: green from 67, yellow from 34, red below. */
  function RecoveryColorClass(score: real): (c: string)
    ensures c == Green <==> score >= 67.0
    ensures c == Yellow <==> 34.0 <= score < 67.0
    ensures c == Red <==> score < 34.0
  {
    if score >= 67.0 then Green
    else if score >= 34.0 then Yellow
    else Red
  }

  /** The order red < yellow < green. */
  function Severity(c: string): nat
  {
    if c == Green then 2 else if c == Yellow then 1 else 0
  }

  /** A higher score never gets a worse colour. */
  lemma ColorClassMonotone(s1: real, s2: real)
    requires s1 <= s2
    ensures Severity(RecoveryColorClass(s1)) <= Severity(RecoveryColorClass(s2))
  {
  }

  // ---------------------------------------------------------------------
  // The response of /api/recovery as the dashboard reads it
  // ---------------------------------------------------------------------

  /** A JSON field as JavaScript sees it: missing, `null`, or a number. */
  datatype JsValue = Undefined | Null | Num(n: real)

  /**
   * The parsed body: not JSON, the JSON `null`, or an object with the fields
   * read; a missing or falsy string is "". A JSON number, string, boolean or
   * array is a `JsonObject` with every field absent, since reading a field of
   * it gives `undefined` without throwing.
   */
  datatype Body =
    | Unparseable
    | JsonNull
    | JsonObject(message: string, scoreState: string, recoveryScore: JsValue, hrvRmssdMilli: JsValue, restingHeartRate: JsValue)

  /** The result of `fetch('/api/recovery')`: the request threw, or a status with its body. */
  datatype Response = Unreachable | HttpResponse(status: int, body: Body)

  predicate IsOk(status: int)
  {
    200 <= status <= 299
  }

  /** `x !== null && x !== undefined`. */
  predicate Present(v: JsValue)
  {
    v.Num?
  }

  /** `x !== null`: a missing field counts as data. */
  predicate NotNull(v: JsValue)
  {
    !v.Null?
  }

  // ---------------------------------------------------------------------
  // fetchRecovery's decision
  // ---------------------------------------------------------------------

  /** One of the four state elements. */
  datatype Panel = LoadingPanel | MetricsPanel | ErrorPanel | NoDataPanel

  /** What `fetchRecovery` ends with. */
  datatype Outcome =
    | Redirect                                   // `window.location.href = '/'`, the loading state stays up
    | ShowsError(title: string, message: string) // `showError(title, message)`
    | ShowsNoData                                // `showState(noDataEl)`
    | ShowsMetrics(recoveryScore: JsValue, hrvRmssdMilli: JsValue, restingHeartRate: JsValue) // `renderMetrics(data)`

  const GenericTitle := "Something went wrong"
  const GenericMessage := "We couldn't load your recovery data. Please try again."
  const ConnectionTitle := "Connection Error"
  const ConnectionMessage := "Unable to reach the server. Please check your connection and try again."

  /** The error state the `catch` of `fetchRecovery` shows. */
  const ConnectionError := ShowsError(ConnectionTitle, ConnectionMessage)

  /**
   * The outcome of `fetchRecovery` for a response: a 401 redirects; another
   * non-ok status shows the server's message or the default text (a JSON
   * `null` body throws on `.message`); on success, a scored record or one
   * with any non-null metric is rendered, a record with none shows no data;
   * anything that throws shows the connection error.
   */
  function Decide(r: Response): Outcome
  {
    match r
    case Unreachable => ConnectionError
    case HttpResponse(status, body) =>
      if status == 401 then Redirect
      else if !IsOk(status) then
        match body
        case JsonNull => ConnectionError
        case Unparseable => ShowsError(GenericTitle, GenericMessage)
        case JsonObject(message, _, _, _, _) =>
          ShowsError(GenericTitle, if message == "" then GenericMessage else message)
      else
        match body
        case JsonObject(_, scoreState, score, hrv, rhr) =>
          if scoreState != "SCORED" && !(NotNull(score) || NotNull(hrv) || NotNull(rhr)) then ShowsNoData
          else ShowsMetrics(score, hrv, rhr)
        case _ => ConnectionError
  }

  /** A 401 sends the browser back to the landing page and renders nothing. */
  lemma UnauthorizedRedirects(body: Body)
    ensures Decide(HttpResponse(401, body)) == Redirect
  {
  }

  /**
   * Any other status that is not ok shows "Something went wrong" with the
   * server's message when it has one and the default text otherwise.
   */
  lemma ServerErrorShowsMessage(status: int, body: Body)
    requires status != 401 && !IsOk(status) && !body.JsonNull?
    ensures Decide(HttpResponse(status, body)).ShowsError?
    ensures Decide(HttpResponse(status, body)).title == GenericTitle
    ensures body.JsonObject? && body.message != "" ==> Decide(HttpResponse(status, body)).message == body.message
    ensures (body.Unparseable? || body.message == "") ==> Decide(HttpResponse(status, body)).message == GenericMessage
  {
  }

  /** The connection error is shown exactly when the request or the reading of its body throws. */
  lemma ConnectionErrorCases(r: Response)
    ensures Decide(r) == ConnectionError <==>
      r.Unreachable? ||
      (r.status != 401 && r.body.JsonNull?) ||
      (IsOk(r.status) && !r.body.JsonObject?)
  {
  }

  /**
   * A successful record shows no data exactly when it is not scored and
   * all three metrics are `null`; a missing metric still counts as data.
   */
  lemma NoDataOnlyWhenAllNull(status: int, message: string, scoreState: string, score: JsValue, hrv: JsValue, rhr: JsValue)
    requires IsOk(status)
    ensures Decide(HttpResponse(status, JsonObject(message, scoreState, score, hrv, rhr))) ==
      if scoreState != "SCORED" && score.Null? && hrv.Null? && rhr.Null? then ShowsNoData
      else ShowsMetrics(score, hrv, rhr)
  {
  }

  /** A scored record is always rendered, whatever its metrics. */
  lemma ScoredIsRendered(status: int, message: string, score: JsValue, hrv: JsValue, rhr: JsValue)
    requires IsOk(status)
    ensures Decide(HttpResponse(status, JsonObject(message, "SCORED", score, hrv, rhr))) == ShowsMetrics(score, hrv, rhr)
  {
  }

  /** The panel an outcome leaves visible. */
  function PanelOf(o: Outcome): Panel
  {
    match o
    case Redirect => LoadingPanel
    case ShowsError(_, _) => ErrorPanel
    case ShowsNoData => NoDataPanel
    case ShowsMetrics(_, _, _) => MetricsPanel
  }

  // ---------------------------------------------------------------------
  // renderMetrics' texts
  // ---------------------------------------------------------------------

  /** The text of a metric card: the dash, `Math.round(v)`, or `v.toFixed(1)`. */
  datatype MetricText = Dash | Rounded(value: real) | Fixed1(value: real)

  const CardBase := "metric-card"

  function RoundedText(v: JsValue): (t: MetricText)
    ensures t == Dash <==> !Present(v)
    ensures Present(v) ==> t == Rounded(v.n)
  {
    if v.Num? then Rounded(v.n) else Dash
  }

  function FixedText(v: JsValue): (t: MetricText)
    ensures t == Dash <==> !Present(v)
    ensures Present(v) ==> t == Fixed1(v.n)
  {
    if v.Num? then Fixed1(v.n) else Dash
  }

  /** The recovery card's class: coloured by the score, plain when there is none. */
  function CardClass(score: JsValue): (c: string)
    ensures !Present(score) ==> c == CardBase
    ensures Present(score) ==> c == CardBase + " " + RecoveryColorClass(score.n)
  {
    if score.Num? then CardBase + " " + RecoveryColorClass(score.n) else CardBase
  }

  /** The card class carries a colour exactly when there is a score, and then the score's colour. */
  lemma CardClassColored(score: JsValue)
    ensures CardClass(score) != CardBase <==> Present(score)
    ensures Present(score) ==> CardClass(score)[|CardBase| + 1..] == RecoveryColorClass(score.n)
  {
    if Present(score) {
      assert |CardClass(score)| > |CardBase|;
    }
  }

  // ---------------------------------------------------------------------
  // The view
  // ---------------------------------------------------------------------

  datatype Display = Hidden | Grid | Flex

  class DashboardView {
    var loadingDisplay: Display
    var metricsDisplay: Display
    var errorDisplay: Display
    var noDataDisplay: Display
    var recoveryText: MetricText
    var hrvText: MetricText
    var rhrText: MetricText
    var recoveryCardClass: string
    var errorTitle: string
    var errorText: string
    var location: Option<string>

    function DisplayOf(p: Panel): Display
      reads this
    {
      match p
      case LoadingPanel => loadingDisplay
      case MetricsPanel => metricsDisplay
      case ErrorPanel => errorDisplay
      case NoDataPanel => noDataDisplay
    }

    /** The state elements that are not hidden. */
    function Visible(): set<Panel>
      reads this
    {
      set p | p in {LoadingPanel, MetricsPanel, ErrorPanel, NoDataPanel} && DisplayOf(p) != Hidden
    }

    /** The page as served: every element in its initial state and the loading state is shown. */
    constructor()
      ensures Visible() == {LoadingPanel} && location.None?
      ensures recoveryText == Dash && hrvText == Dash && rhrText == Dash && recoveryCardClass == CardBase
    {
      loadingDisplay, metricsDisplay, errorDisplay, noDataDisplay := Flex, Hidden, Hidden, Hidden;
      recoveryText, hrvText, rhrText := Dash, Dash, Dash;
      recoveryCardClass := CardBase;
      errorTitle, errorText := "", "";
      location := None;
    }

    /** `showState(el)`: `el` is the only visible state, as a grid for the metrics and flex otherwise. */
    method ShowState(el: Panel)
      modifies this`loadingDisplay, this`metricsDisplay, this`errorDisplay, this`noDataDisplay
      ensures Visible() == {el}
      ensures DisplayOf(el) == if el == MetricsPanel then Grid else Flex
    {
      loadingDisplay := Hidden;
      metricsDisplay := Hidden;
      errorDisplay := Hidden;
      noDataDisplay := Hidden;
      match el {
        case LoadingPanel => loadingDisplay := Flex;
        case MetricsPanel => metricsDisplay := Grid;
        case ErrorPanel => errorDisplay := Flex;
        case NoDataPanel => noDataDisplay := Flex;
      }
      assert forall p | p in {LoadingPanel, MetricsPanel, ErrorPanel, NoDataPanel} :: DisplayOf(p) != Hidden <==> p == el;
    }

    /** `renderMetrics(data)`: fill the three cards and show the metrics. */
    method RenderMetrics(score: JsValue, hrv: JsValue, rhr: JsValue)
      modifies this`loadingDisplay, this`metricsDisplay, this`errorDisplay, this`noDataDisplay
      modifies this`recoveryText, this`hrvText, this`rhrText, this`recoveryCardClass
      ensures recoveryText == RoundedText(score) && recoveryCardClass == CardClass(score)
      ensures hrvText == FixedText(hrv) && rhrText == RoundedText(rhr)
      ensures Visible() == {MetricsPanel} && DisplayOf(MetricsPanel) == Grid
    {
      if score.Num? {
        recoveryText := Rounded(score.n);
        recoveryCardClass := CardBase + " " + RecoveryColorClass(score.n);
      } else {
        recoveryText := Dash;
        recoveryCardClass := CardBase;
      }
      if hrv.Num? {
        hrvText := Fixed1(hrv.n);
      } else {
        hrvText := Dash;
      }
      if rhr.Num? {
        rhrText := Rounded(rhr.n);
      } else {
        rhrText := Dash;
      }
      ShowState(MetricsPanel);
    }

    /** `showError(title, message)`. */
    method ShowError(title: string, message: string)
      modifies this`loadingDisplay, this`metricsDisplay, this`errorDisplay, this`noDataDisplay
      modifies this`errorTitle, this`errorText
      ensures errorTitle == title && errorText == message
      ensures Visible() == {ErrorPanel} && DisplayOf(ErrorPanel) == Flex
    {
      errorTitle := title;
      errorText := message;
      ShowState(ErrorPanel);
    }

    /**
     * `fetchRecovery()` against `response`: the loading state first, then
     * the panel and texts of `Decide(response)`; cards and error texts that
     * the outcome does not touch keep their values.
     */
    method FetchRecovery(response: Response)
      modifies this
      ensures Visible() == {PanelOf(Decide(response))}
      ensures DisplayOf(PanelOf(Decide(response))) == if PanelOf(Decide(response)) == MetricsPanel then Grid else Flex
      ensures location == if Decide(response).Redirect? then Some("/") else old(location)
      ensures Decide(response).ShowsError? ==>
        errorTitle == Decide(response).title && errorText == Decide(response).message
      ensures Decide(response).ShowsMetrics? ==>
        recoveryText == RoundedText(Decide(response).recoveryScore) &&
        recoveryCardClass == CardClass(Decide(response).recoveryScore) &&
        hrvText == FixedText(Decide(response).hrvRmssdMilli) &&
        rhrText == RoundedText(Decide(response).restingHeartRate)
      ensures !Decide(response).ShowsMetrics? ==>
        recoveryText == old(recoveryText) && recoveryCardClass == old(recoveryCardClass) &&
        hrvText == old(hrvText) && rhrText == old(rhrText)
      ensures !Decide(response).ShowsError? ==> errorTitle == old(errorTitle) && errorText == old(errorText)
    {
      ShowState(LoadingPanel);
      if response.Unreachable? {
        ShowError(ConnectionTitle, ConnectionMessage);
        return;
      }
      var status, body := response.status, response.body;
      if status == 401 {
        location := Some("/");
        return;
      }
      if !IsOk(status) {
        match body {
          case JsonNull =>
            // reading `.message` of null throws into the catch
            ShowError(ConnectionTitle, ConnectionMessage);
          case Unparseable =>
            ShowError(GenericTitle, GenericMessage);
          case JsonObject(message, _, _, _, _) =>
            ShowError(GenericTitle, if message == "" then GenericMessage else message);
        }
        return;
      }
      if !body.JsonObject? {
        // `response.json()` rejects, or `data.scoreState` of null throws
        ShowError(ConnectionTitle, ConnectionMessage);
        return;
      }
      if body.scoreState != "SCORED" {
        var hasPartialData := NotNull(body.recoveryScore) || NotNull(body.hrvRmssdMilli) || NotNull(body.restingHeartRate);
        if hasPartialData {
          RenderMetrics(body.recoveryScore, body.hrvRmssdMilli, body.restingHeartRate);
        } else {
          ShowState(NoDataPanel);
        }
        return;
      }
      RenderMetrics(body.recoveryScore, body.hrvRmssdMilli, body.restingHeartRate);
    }
  }
}
