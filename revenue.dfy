/** The `Revenue` page: revenue analytics over an optional date range, and the spreadsheet export. */
module Revenue {
  import opened Wrappers
  import opened Ui
  import opened Analytics
  import Api
  import Query

  datatype RevenueData = RevenueData(totalRevenue: int, revenueByService: int, revenueByProduct: int)

  /** The two arguments `fetchRevenue` hands to `getRevenueAnalytics`. */
  datatype RevenueQuery = RevenueQuery(startDate: string, endDate: string)

  /** The exported workbook's bytes. */
  datatype Spreadsheet = Spreadsheet(bytes: seq<bv8>)

  const LoadError := "Gagal memuat data pendapatan."
  const ExportSucceeded := "Laporan berhasil diunduh"
  const ExportFailed := "Gagal mengunduh laporan"
  const FilePrefix := "transaksi_agrolink_"
  const FileSuffix := ".xlsx"

  /** `s.slice(0, n)` for `n >= 0`: the first `n` characters, or all of a shorter string. */
  function Slice(s: string, n: nat): (r: string)
    ensures |r| == if n <= |s| then n else |s|
    ensures r <= s
  {
    if n <= |s| then s[..n] else s
  }

  /** The download name: the prefix, the day part of the ISO timestamp, `.xlsx`. */
  function ExportFilename(iso: string): (name: string)
    ensures FilePrefix <= name && name[|name| - |FileSuffix|..] == FileSuffix
    ensures |iso| >= 10 ==> name == FilePrefix + iso[..10] + FileSuffix
    ensures |iso| < 10 ==> name == FilePrefix + iso + FileSuffix
  {
    FilePrefix + Slice(iso, 10) + FileSuffix
  }

  /** Two exports get the same file name exactly when their timestamps fall on the same (UTC) day. */
  lemma ExportFilenameByDay(a: string, b: string)
    requires |a| >= 10 && |b| >= 10
    ensures ExportFilename(a) == ExportFilename(b) <==> a[..10] == b[..10]
  {
    var fa, fb := ExportFilename(a), ExportFilename(b);
    if fa == fb {
      assert fa[|FilePrefix|..|FilePrefix| + 10] == a[..10];
      assert fb[|FilePrefix|..|FilePrefix| + 10] == b[..10];
    }
  }

  /** The request `fetchRevenue` sends for `q`: an absent bound leaves its parameter out. */
  method Send(q: RevenueQuery) returns (r: Api.Request)
    ensures r.verb == Api.Get && r.body == Api.NoBody
    ensures r.path == "/admin/revenue/analytics?" + Query.Serialize(Api.RevenueParams(q.startDate, q.endDate))
  {
    r := Api.GetRevenueAnalytics(q.startDate, q.endDate);
  }

  class RevenuePage {
    var data: Option<RevenueData>
    var loading: bool
    var error: Option<string>
    var exporting: bool
    var dateRange: Option<DateRange<Day>>

    constructor ()
      ensures data == None && loading && error == None && !exporting && dateRange == None
    {
      data := None;
      loading := true;
      error := None;
      exporting := false;
      dateRange := None;
    }

    /** `fetchRevenue` up to its await: `loading` on, `error` cleared, missing bounds sent as "". */
    method BeginFetch(start: Option<Day>, end: Option<Day>) returns (q: RevenueQuery)
      modifies this`loading, this`error
      ensures loading && error == None
      ensures q == RevenueQuery(BoundText(start), BoundText(end))
    {
      loading := true;
      error := None;
      q := RevenueQuery(BoundText(start), BoundText(end));
    }

    /** `fetchRevenue` after its await: data replaced only on success, `error` set on failure. */
    method CompleteFetch(outcome: Fetched<RevenueData>)
      modifies this`data, this`error, this`loading
      ensures !loading
      ensures outcome.Loaded? ==> data == Some(outcome.value) && error == old(error)
      ensures outcome.Failed? ==> data == old(data) && error == Some(LoadError)
    {
      match outcome {
        case Loaded(d) => data := Some(d);
        case Failed => error := Some(LoadError);
      }
      loading := false;
    }

    /** The mount effect: `fetchRevenue()` with no bounds (the backend's default period). */
    method Mount() returns (q: RevenueQuery)
      modifies this`loading, this`error
      ensures q == RevenueQuery("", "")
      ensures loading && error == None
    {
      q := BeginFetch(None, None);
    }

    /** `handleDateChange`: stores the range and fetches with its bounds; a cleared range is the default. */
    method HandleDateChange(dates: Option<DateRange<Day>>) returns (q: RevenueQuery)
      modifies this`dateRange, this`loading, this`error
      ensures dateRange == dates
      ensures dates.Some? ==> q == RevenueQuery(BoundText(dates.value.start), BoundText(dates.value.end))
      ensures dates.None? ==> q == RevenueQuery("", "")
      ensures loading && error == None
    {
      dateRange := dates;
      if dates.Some? {
        q := BeginFetch(dates.value.start, dates.value.end);
      } else {
        q := BeginFetch(None, None);
      }
    }

    /** `handleExport` up to its await: the busy flag goes on and the export is requested. */
    method BeginExport() returns (req: Api.Request)
      modifies this`exporting
      ensures exporting && req == Api.ExportTransactions()
    {
      exporting := true;
      req := Api.ExportTransactions();
    }

    /**
     * `handleExport` after its await, at ISO time `nowIso`: success names the
     * download; either way the busy flag ends false.
     */
    method CompleteExport(outcome: Fetched<Spreadsheet>, nowIso: string) returns (download: Option<string>, toast: Toast)
      modifies this`exporting
      ensures !exporting
      ensures outcome.Loaded? ==> download == Some(ExportFilename(nowIso)) && toast == SuccessToast(ExportSucceeded)
      ensures outcome.Failed? ==> download == None && toast == ErrorToast(ExportFailed)
    {
      if outcome.Loaded? {
        download := Some(ExportFilename(nowIso));
        toast := SuccessToast(ExportSucceeded);
      } else {
        download := None;
        toast := ErrorToast(ExportFailed);
      }
      exporting := false;
    }

    /** The page's screen: a spinner only before any data arrives, then a truthy error, then the dashboard. */
    function View(): (s: Screen<RevenueData>)
      reads this
      ensures s.Spinner? <==> loading && data.None?
      ensures s.ErrorAlert? <==> !(loading && data.None?) && Truthy(error)
      ensures s.ErrorAlert? ==> s.message == error.value
      ensures s.Dashboard? ==> s.data == data
    {
      Render(loading, data, error)
    }
  }
}
