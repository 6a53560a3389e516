/**
 * The `Profit` page: profit analytics filtered by a date range and a source
 * type, with its table labels and row keys. `getProfitAnalytics` is not
 * exported by the api module; the page's call is modelled as the abstract
 * query it would issue.
 */
module Profit {
  import opened Wrappers
  import opened Ui
  import opened Analytics

  datatype DailyProfit = DailyProfit(date: string, sourceType: string, grossProfit: int, gatewayFee: int, netProfit: int)

  datatype ProfitData = ProfitData(dailySummary: seq<DailyProfit>, totalGrossProfit: int, totalGatewayFee: int, totalNetProfit: int)

  /** The three arguments `fetchProfit` hands to `getProfitAnalytics`. */
  datatype ProfitQuery = ProfitQuery(startDate: string, endDate: string, sourceType: string)

  const LoadError := "Gagal memuat data profit."

  /** Column and chart label of a `source_type`: `utama` is the service side, all else e-commerce. */
  function SourceLabel(sourceType: string): (text: string)
    ensures text == "Jasa" <==> sourceType == "utama"
    ensures text == "Jasa" || text == "E-commerce"
  {
    if sourceType == "utama" then "Jasa" else "E-commerce"
  }

  /** The table's `rowKey`: date and source type joined by a hyphen. */
  function RowKey(row: DailyProfit): (k: string)
    ensures |k| == |row.date| + 1 + |row.sourceType|
    ensures k[..|row.date|] == row.date && k[|row.date|] == '-' && k[|row.date| + 1..] == row.sourceType
  {
    row.date + "-" + row.sourceType
  }

  /**
   * Row keys tell rows apart by date and source: source types carry no hyphen
   * (`utama`, `ecommerce`), so the last hyphen of a key separates the two,
   * even though dates contain hyphens themselves.
   */
  lemma RowKeyInjective(a: DailyProfit, b: DailyProfit)
    requires '-' !in a.sourceType && '-' !in b.sourceType
    requires RowKey(a) == RowKey(b)
    ensures a.date == b.date && a.sourceType == b.sourceType
  {
    var k := RowKey(a);
    var m, n := |a.sourceType|, |b.sourceType|;
    assert k[|k| - 1 - m] == '-';
    assert k[|k| - 1 - n] == '-';
    assert m == n by {
      if m != n {
        assert false;
      }
    }
    assert a.sourceType == k[|k| - m..] == b.sourceType;
    assert a.date == k[..|k| - 1 - m] == b.date;
  }

  class ProfitPage {
    var data: Option<ProfitData>
    var loading: bool
    var error: Option<string>
    var dateRange: Option<DateRange<Day>>
    var sourceType: string

    constructor ()
      ensures data == None && loading && error == None && dateRange == None && sourceType == ""
    {
      data := None;
      loading := true;
      error := None;
      dateRange := None;
      sourceType := "";
    }

    /** `fetchProfit` up to its await: `loading` on, `error` cleared, missing bounds sent as "". */
    method BeginFetch(start: Option<Day>, end: Option<Day>, source: string) returns (q: ProfitQuery)
      modifies this`loading, this`error
      ensures loading && error == None
      ensures q == ProfitQuery(BoundText(start), BoundText(end), source)
    {
      loading := true;
      error := None;
      q := ProfitQuery(BoundText(start), BoundText(end), source);
    }

    /** `fetchProfit` after its await: data replaced only on success, `error` set on failure. */
    method CompleteFetch(outcome: Fetched<ProfitData>)
      modifies this`data, this`error, this`loading
      ensures !loading
      ensures outcome.Loaded? ==> data == Some(outcome.value) && error == old(error)
      ensures outcome.Failed? ==> data == old(data) && error == Some(LoadError)
    {
      match outcome {
        case Loaded(d) => data := Some(d);
        case Failed => error := Some(LoadError);
      }
      loading := false;
    }

    /** The mount effect: no dates, every source. */
    method Mount() returns (q: ProfitQuery)
      modifies this`loading, this`error
      ensures q == ProfitQuery("", "", "")
      ensures loading && error == None
    {
      q := BeginFetch(None, None, "");
    }

    /** `handleDateChange`: stores the range and fetches with its bounds and the held source. */
    method HandleDateChange(dates: Option<DateRange<Day>>) returns (q: ProfitQuery)
      modifies this`dateRange, this`loading, this`error
      ensures dateRange == dates
      ensures dates.Some? ==> q == ProfitQuery(BoundText(dates.value.start), BoundText(dates.value.end), sourceType)
      ensures dates.None? ==> q == ProfitQuery("", "", sourceType)
      ensures loading && error == None
    {
      dateRange := dates;
      if dates.Some? {
        q := BeginFetch(dates.value.start, dates.value.end, sourceType);
      } else {
        q := BeginFetch(None, None, sourceType);
      }
    }

    /** `handleSourceChange`: stores the source and fetches with it and the held range. */
    method HandleSourceChange(value: string) returns (q: ProfitQuery)
      modifies this`sourceType, this`loading, this`error
      ensures sourceType == value
      ensures dateRange.Some? ==> q == ProfitQuery(BoundText(dateRange.value.start), BoundText(dateRange.value.end), value)
      ensures dateRange.None? ==> q == ProfitQuery("", "", value)
      ensures loading && error == None
    {
      sourceType := value;
      if dateRange.Some? {
        q := BeginFetch(dateRange.value.start, dateRange.value.end, value);
      } else {
        q := BeginFetch(None, None, value);
      }
    }

    /** The page's screen: a spinner only before any data arrives, then a truthy error, then the dashboard. */
    function View(): (s: Screen<ProfitData>)
      reads this
      ensures s.Spinner? <==> loading && data.None?
      ensures s.ErrorAlert? <==> !(loading && data.None?) && Truthy(error)
      ensures s.ErrorAlert? ==> s.message == error.value
      ensures s.Dashboard? ==> s.data == data
    {
      Render(loading, data, error)
    }
  }
}
