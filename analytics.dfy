/** Pieces the two analytics pages (`Profit`, `Revenue`) share word for word. */
module Analytics {
  import opened Wrappers
  import opened Ui

  /** A picked day; its `format('YYYY-MM-DD')` text is taken as given. */
  datatype Day = Day(ymd: string)

  /** `d ? d.format('YYYY-MM-DD') : ''`: a missing bound is sent as the empty string. */
  function BoundText(d: Option<Day>): (s: string)
    ensures d.None? ==> s == ""
    ensures d.Some? ==> s == d.value.ymd
  {
    match d
    case Some(day) => day.ymd
    case None => ""
  }

  datatype Screen<D> = Spinner | ErrorAlert(message: string) | Dashboard(data: Option<D>)

  /**
   * View precedence: the spinner only while loading with nothing to show yet,
   * then a truthy error, then the dashboard over whatever data is held.
   */
  function Render<D>(loading: bool, data: Option<D>, error: Option<string>): (s: Screen<D>)
    ensures s.Spinner? <==> loading && data.None?
    ensures s.ErrorAlert? <==> !(loading && data.None?) && Truthy(error)
    ensures s.ErrorAlert? ==> s.message == error.value
    ensures s.Dashboard? ==> s.data == data
  {
    if loading && data.None? then Spinner
    else if Truthy(error) then ErrorAlert(error.value)
    else Dashboard(data)
  }

  /** A re-fetch over data already on screen keeps the dashboard up (no flicker) unless an error is held. */
  lemma RefetchKeepsDashboard<D>(data: D, error: Option<string>)
    requires !Truthy(error)
    ensures Render(true, Some(data), error) == Dashboard(Some(data))
  {
  }
}
