/** The dashboard page: the figures derived from the averages the server
    reports (speaking speed and its pacing status, the recording bars, the
    metric tiles), the choice of which view to show, and the handling of the
    dashboard request's outcome. Numbers are reals. */
module Dashboard {
  import opened Text

  datatype AcousticMetrics = AcousticMetrics(pitchMonotonyScore: real)

  datatype Averages = Averages(
    clarityScore: real, overallWpm: real, fillerCount: real, strategicPauses: real,
    hesitationGaps: real, relevanceScore: real, acousticMetrics: AcousticMetrics)

  datatype DashboardData = DashboardData(averages: Option<Averages>, totalRecordings: int, analyzedRecordings: int)

  // ---------------------------------------------------------------------------
  // Speaking speed

  const FastAbove: real := 160.0
  const SlowBelow: real := 100.0

  /** `dashboardData?.averages?.overall_wpm || 0`. */
  function Wpm(data: Option<DashboardData>): (wpm: real)
    ensures data.None? || data.value.averages.None? ==> wpm == 0.0
    ensures data.Some? && data.value.averages.Some? ==> wpm == data.value.averages.value.overallWpm
  {
    if data.Some? && data.value.averages.Some? && data.value.averages.value.overallWpm != 0.0
    then data.value.averages.value.overallWpm
    else 0.0
  }

  datatype PacingStatus = VeryFast | VerySlow | WithinRange

  /** `pacingStatus`: above 160 is too fast, below 100 too slow, and both
      bounds are within range. */
  function Pacing(wpm: real): (status: PacingStatus)
    ensures status == VeryFast <==> wpm > FastAbove
    ensures status == VerySlow <==> wpm < SlowBelow
    ensures status == WithinRange <==> SlowBelow <= wpm <= FastAbove
  {
    if wpm > FastAbove then VeryFast else if wpm < SlowBelow then VerySlow else WithinRange
  }

  /** The position of a status on the speed scale, slowest first. */
  function Rank(status: PacingStatus): nat
  {
    match status
    case VerySlow => 0
    case WithinRange => 1
    case VeryFast => 2
  }

  /** A faster speaker never gets a slower status. */
  lemma PacingMonotone(a: real, b: real)
    requires a <= b
    ensures Rank(Pacing(a)) <= Rank(Pacing(b))
  {
  }

  /** Without data, without averages, or with a zero average the speed shown is
      0 and the status is "Very slow". */
  lemma NoSpeedIsSlow(data: Option<DashboardData>)
    requires data.None? || data.value.averages.None? || data.value.averages.value.overallWpm == 0.0
    ensures Wpm(data) == 0.0 && Pacing(Wpm(data)) == VerySlow
  {
  }

  // ---------------------------------------------------------------------------
  // The recording bars and the metric tiles

  /** The height of a count's bar, in percent: full when there is any. */
  function CountBar(count: int): (height: real)
    ensures count > 0 ==> height == 100.0
    ensures count <= 0 ==> height == 10.0
  {
    if count > 0 then 100.0 else 10.0
  }

  /** The success-rate bar, in percent: the analyzed share of all recordings, or
      10 when there are none. */
  function SuccessBar(data: DashboardData): (height: real)
    ensures data.totalRecordings > 0 ==>
      height * data.totalRecordings as real == data.analyzedRecordings as real * 100.0
    ensures data.totalRecordings <= 0 ==> height == 10.0
  {
    if data.totalRecordings > 0
    then (data.analyzedRecordings as real / data.totalRecordings as real) * 100.0
    else 10.0
  }

  /** When no more recordings are analyzed than exist, the success bar is a
      percentage, and it is full exactly when every recording is analyzed. */
  lemma SuccessBarIsPercentage(data: DashboardData)
    requires 0 <= data.analyzedRecordings <= data.totalRecordings
    requires data.totalRecordings > 0
    ensures 0.0 <= SuccessBar(data) <= 100.0
    ensures SuccessBar(data) == 100.0 <==> data.analyzedRecordings == data.totalRecordings
    ensures SuccessBar(data) <= CountBar(data.totalRecordings)
  {
    var h, t, a := SuccessBar(data), data.totalRecordings as real, data.analyzedRecordings as real;
    assert h * t == a * 100.0;
    if h == 100.0 {
      assert 100.0 * t == a * 100.0;
    }
  }

  /** `Math.round(x)`: the nearest integer, halves rounded up. */
  function Round(x: real): (n: int)
    ensures n as real - 0.5 <= x < n as real + 0.5
  {
    (x + 0.5).Floor
  }

  /** The four metric tiles, rounded: clarity, average speed, strategic pauses and
      pitch variety, each 0 when there are no averages. */
  datatype Tiles = Tiles(clarity: int, wpm: int, strategicPauses: int, pitchVariety: int)

  function MetricTiles(data: DashboardData): (tiles: Tiles)
    ensures data.averages.None? ==> tiles == Tiles(0, 0, 0, 0)
    ensures data.averages.Some? ==>
      var av := data.averages.value;
      && tiles.clarity as real - 0.5 <= av.clarityScore < tiles.clarity as real + 0.5
      && tiles.wpm as real - 0.5 <= av.overallWpm < tiles.wpm as real + 0.5
      && tiles.strategicPauses as real - 0.5 <= av.strategicPauses < tiles.strategicPauses as real + 0.5
      && tiles.pitchVariety as real - 0.5 <= av.acousticMetrics.pitchMonotonyScore < tiles.pitchVariety as real + 0.5
  {
    match data.averages
    case None => Tiles(0, 0, 0, 0)
    case Some(av) =>
      Tiles(Round(av.clarityScore), Round(av.overallWpm), Round(av.strategicPauses),
            Round(av.acousticMetrics.pitchMonotonyScore))
  }

  // ---------------------------------------------------------------------------
  // Choosing the view

  const NoDataMessage := "No data available"

  datatype View = Loading | Failed(message: string) | NoRecordings | Full

  /** The early returns of the page, in order: the spinner while loading, the
      error card when there is an error or no data, the empty state when there
      are no recordings, and the full dashboard otherwise. */
  function SelectView(isLoading: bool, error: Option<string>, data: Option<DashboardData>): (view: View)
    ensures view == Loading <==> isLoading
    ensures view.Failed? <==> !isLoading && (Truthy(error) || data.None?)
    ensures view.Failed? ==> view.message == OrElse(error, NoDataMessage) && view.message != ""
    ensures view == NoRecordings <==>
      !isLoading && !Truthy(error) && data.Some? && data.value.totalRecordings == 0
    ensures view == Full <==>
      !isLoading && !Truthy(error) && data.Some? && data.value.totalRecordings != 0
  {
    if isLoading then Loading
    else if Truthy(error) || data.None? then Failed(OrElse(error, NoDataMessage))
    else if data.value.totalRecordings == 0 then NoRecordings
    else Full
  }

  // ---------------------------------------------------------------------------
  // The page

  const FetchFailedMessage := "Failed to fetch dashboard data"
  const LoadFailedMessage := "Failed to load dashboard data"

  /** The outcome of `GET /dashboard`: the reply body, or a thrown error with its
      response body's message and its own message. */
  datatype DashboardReply =
    | Body(success: bool, message: Option<string>, data: Option<DashboardData>)
    | Threw(responseMessage: Option<string>, errorMessage: Option<string>)

  class Page {
    var dashboardData: Option<DashboardData>
    var isLoading: bool
    var error: Option<string>

    constructor ()
      ensures dashboardData == None && isLoading && error == None
      ensures SelectView(isLoading, error, dashboardData) == Loading
    {
      dashboardData, isLoading, error := None, true, None;
    }

    /** `fetchDashboardData`: a successful reply with data is stored and clears
        the error; a refusal keeps the old data and records the server's message
        or a default; a thrown error records the response's message, else the
        error's own, else a default. Loading ends either way. */
    method FetchDashboardData(reply: DashboardReply)
      modifies this
      ensures !isLoading
      ensures reply.Body? && reply.success && reply.data.Some? ==>
        dashboardData == reply.data && error == None
      ensures reply.Body? && !(reply.success && reply.data.Some?) ==>
        dashboardData == old(dashboardData) && error == Some(OrElse(reply.message, FetchFailedMessage))
      ensures reply.Threw? ==>
        && dashboardData == old(dashboardData)
        && error == Some(OrElse(reply.responseMessage, OrElse(reply.errorMessage, LoadFailedMessage)))
      ensures error.Some? ==> SelectView(isLoading, error, dashboardData) == Failed(error.value)
      ensures error.None? ==> SelectView(isLoading, error, dashboardData) != Loading
    {
      isLoading := true;
      error := None;
      match reply {
        case Body(success, message, data) =>
          if success && data.Some? {
            dashboardData := data;
          } else {
            error := Some(OrElse(message, FetchFailedMessage));
          }
        case Threw(responseMessage, errorMessage) =>
          error := Some(OrElse(responseMessage, OrElse(errorMessage, LoadFailedMessage)));
      }
      isLoading := false;
    }
  }
}
