/**
 * The axios client: the request interceptor that attaches the bearer token,
 * and the request each exported endpoint function issues. A request is the
 * config axios would send (method, path below the base URL, headers, body).
 */
module Api {
  import opened Wrappers
  import opened Text
  import opened Query
  import Storage
  import Ui

  datatype Method = Get | Post

  datatype ResponseType = Json | Blob

  /** A file chosen in an antd Upload control. */
  datatype File = File(uid: string, name: string)

  /** Review decision body: `{ status: "approved" | "rejected", notes }`. */
  datatype ReviewPayload = ReviewPayload(status: string, notes: Option<string>)

  datatype Body =
    | NoBody
    | Credentials(email: string, password: string)
    | Review(payload: ReviewPayload)
    | FormData(parts: seq<(string, File)>)

  datatype Request = Request(verb: Method, path: string, headers: map<string, string>, body: Body, responseType: ResponseType)

  function GetRequest(path: string): Request {
    Request(Get, path, map[], NoBody, Json)
  }

  // ---------------------------------------------------------------------------
  // Request interceptor

  /**
   * The request interceptor: reads `"adminToken"` from the store at send time
   * and, when it is truthy, sets `Authorization: Bearer <token>`; otherwise the
   * config goes out untouched.
   */
  method Intercept(storage: Storage.LocalStorage, config: Request) returns (sent: Request)
    ensures var stored := storage.GetItem(Storage.AdminTokenKey);
      Ui.Truthy(stored) ==>
        sent == config.(headers := config.headers["Authorization" := "Bearer " + stored.value])
    ensures !Ui.Truthy(storage.GetItem(Storage.AdminTokenKey)) ==> sent == config
    ensures "Authorization" !in config.headers ==>
      ("Authorization" in sent.headers <==> Ui.Truthy(storage.GetItem(Storage.AdminTokenKey)))
  {
    var token := storage.GetItem(Storage.AdminTokenKey);
    sent := config;
    if Ui.Truthy(token) {
      sent := sent.(headers := sent.headers["Authorization" := "Bearer " + token.value]);
    }
  }

  // ---------------------------------------------------------------------------
  // Endpoints

  /** `POST /public/auth/login` with `{ email, password }` and no extra headers. */
  function LoginAdmin(email: string, password: string): (r: Request)
    ensures r.verb == Post && r.path == "/public/auth/login"
    ensures r.body == Credentials(email, password) && r.headers == map[]
  {
    Request(Post, "/public/auth/login", map[], Credentials(email, password), Json)
  }

  function GetDashboardStats(): Request {
    GetRequest("/admin/dashboard-stats")
  }

  function GetPendingPayouts(): Request {
    GetRequest("/admin/payouts/pending")
  }

  function GetPendingVerifications(): Request {
    GetRequest("/admin/verifications/pending")
  }

  function ExportTransactions(): (r: Request)
    ensures r.verb == Get && r.path == "/admin/transactions/export" && r.responseType == Blob
  {
    Request(Get, "/admin/transactions/export", map[], NoBody, Blob)
  }

  const PayoutsPrefix := "/admin/payouts/"
  const CompleteSuffix := "/complete"
  const VerificationsPrefix := "/admin/verifications/"
  const ReviewSuffix := "/review"

  function PayoutCompletePath(payoutId: string): string {
    PayoutsPrefix + payoutId + CompleteSuffix
  }

  function ReviewPath(verificationId: string): string {
    VerificationsPrefix + verificationId + ReviewSuffix
  }

  /** The multipart completion of one payout: posts the form data to that payout's path. */
  function MarkPayoutAsCompleted(payoutId: string, formData: seq<(string, File)>): (r: Request)
    ensures r.verb == Post && r.body == FormData(formData)
    ensures r.headers == map["Content-Type" := "multipart/form-data"]
    ensures IdBetween(r.path, PayoutsPrefix, CompleteSuffix) == Some(payoutId)
  {
    PathRoundTrip(PayoutsPrefix, payoutId, CompleteSuffix);
    Request(Post, PayoutCompletePath(payoutId), map["Content-Type" := "multipart/form-data"], FormData(formData), Json)
  }

  /** The review of one verification: posts the payload, unchanged, as JSON to that verification's path. */
  function ReviewVerification(verificationId: string, payload: ReviewPayload): (r: Request)
    ensures r.verb == Post && r.body == Review(payload) && r.headers == map[]
    ensures IdBetween(r.path, VerificationsPrefix, ReviewSuffix) == Some(verificationId)
  {
    PathRoundTrip(VerificationsPrefix, verificationId, ReviewSuffix);
    Request(Post, ReviewPath(verificationId), map[], Review(payload), Json)
  }

  /** Reference reading of a per-id path: the text between a fixed prefix and suffix. */
  function IdBetween(path: string, prefix: string, suffix: string): Option<string> {
    if |prefix| + |suffix| <= |path| && path[..|prefix|] == prefix && path[|path| - |suffix|..] == suffix
    then Some(path[|prefix|..|path| - |suffix|])
    else None
  }

  lemma PathRoundTrip(prefix: string, id: string, suffix: string)
    ensures IdBetween(prefix + id + suffix, prefix, suffix) == Some(id)
  {
    var p := prefix + id + suffix;
    assert p[..|prefix|] == prefix;
    assert p[|p| - |suffix|..] == suffix;
    assert p[|prefix|..|p| - |suffix|] == id;
  }

  /** Distinct payouts are completed at distinct paths (and likewise for reviews). */
  lemma PerIdPathsInjective(a: string, b: string)
    ensures PayoutCompletePath(a) == PayoutCompletePath(b) ==> a == b
    ensures ReviewPath(a) == ReviewPath(b) ==> a == b
  {
    PathRoundTrip(PayoutsPrefix, a, CompleteSuffix);
    PathRoundTrip(PayoutsPrefix, b, CompleteSuffix);
    PathRoundTrip(VerificationsPrefix, a, ReviewSuffix);
    PathRoundTrip(VerificationsPrefix, b, ReviewSuffix);
  }

  /** `getAllTransactions(page = 1, limit = 10)`: a template string with both parameters. */
  function GetAllTransactions(page: Option<int>, limit: Option<int>): (r: Request)
    ensures r.verb == Get && r.body == NoBody && r.headers == map[]
    ensures r.path == "/admin/transactions?"
      + Serialize([("page", Decimal(page.GetOr(1))), ("limit", Decimal(limit.GetOr(10)))])
  {
    GetRequest("/admin/transactions?page=" + Decimal(page.GetOr(1)) + "&limit=" + Decimal(limit.GetOr(10)))
  }

  /** The pairs `getAllUsers` appends: page, limit, then search and role only when non-empty. */
  function UsersParams(page: int, limit: int, search: string, role: string): seq<Param> {
    [("page", Decimal(page)), ("limit", Decimal(limit))]
      + (if search != "" then [("search", search)] else [])
      + (if role != "" then [("role", role)] else [])
  }

  /** `getAllUsers(page = 1, limit = 10, search = "", role = "")`, built by successive appends. */
  method GetAllUsers(page: Option<int>, limit: Option<int>, search: Option<string>, role: Option<string>)
    returns (r: Request)
    ensures r.verb == Get && r.body == NoBody && r.headers == map[]
    ensures r.path == "/admin/users?"
      + Serialize(UsersParams(page.GetOr(1), limit.GetOr(10), search.GetOr(""), role.GetOr("")))
  {
    var s := search.GetOr("");
    var ro := role.GetOr("");
    var params := new SearchParams();
    params.Append("page", Decimal(page.GetOr(1)));
    params.Append("limit", Decimal(limit.GetOr(10)));
    if s != "" {
      params.Append("search", s);
    }
    if ro != "" {
      params.Append("role", ro);
    }
    assert params.pairs == UsersParams(page.GetOr(1), limit.GetOr(10), s, ro);
    r := GetRequest("/admin/users?" + params.ToString());
  }

  /** The pairs `getRevenueAnalytics` appends: each date bound only when non-empty, start first. */
  function RevenueParams(startDate: string, endDate: string): seq<Param> {
    (if startDate != "" then [("start_date", startDate)] else [])
      + (if endDate != "" then [("end_date", endDate)] else [])
  }

  method GetRevenueAnalytics(startDate: string, endDate: string) returns (r: Request)
    ensures r.verb == Get && r.body == NoBody && r.headers == map[]
    ensures r.path == "/admin/revenue/analytics?" + Serialize(RevenueParams(startDate, endDate))
    ensures startDate == "" && endDate == "" ==> r.path == "/admin/revenue/analytics?"
  {
    var params := new SearchParams();
    if startDate != "" {
      params.Append("start_date", startDate);
    }
    if endDate != "" {
      params.Append("end_date", endDate);
    }
    assert params.pairs == RevenueParams(startDate, endDate);
    r := GetRequest("/admin/revenue/analytics?" + params.ToString());
  }

  // ---------------------------------------------------------------------------
  // What the backend reads from those query strings

  /** First value under `name`, as `URLSearchParams.get` returns it. */
  function Lookup(ps: seq<Param>, name: string): Option<string>
    decreases |ps|
  {
    if ps == [] then None else if ps[0].0 == name then Some(ps[0].1) else Lookup(ps[1..], name)
  }

  lemma DecimalPlain(name: string, n: int)
    requires '&' !in name && '=' !in name
    ensures Plain((name, Decimal(n)))
  {
  }

  lemma LookupCons(p: Param, rest: seq<Param>, name: string)
    ensures Lookup([p] + rest, name) == if p.0 == name then Some(p.1) else Lookup(rest, name)
  {
    assert ([p] + rest)[1..] == rest;
  }

  /**
   * Reading back the users query: `page` and `limit` always carry their
   * numbers, `search` and `role` are there exactly when non-empty.
   */
  lemma UsersQueryLookup(page: int, limit: int, search: string, role: string)
    requires Plain(("search", search)) && Plain(("role", role))
    ensures var q := Parse(Serialize(UsersParams(page, limit, search, role)));
      && Lookup(q, "page") == Some(Decimal(page))
      && Lookup(q, "limit") == Some(Decimal(limit))
      && Lookup(q, "search") == (if search != "" then Some(search) else None)
      && Lookup(q, "role") == (if role != "" then Some(role) else None)
  {
    var ps := UsersParams(page, limit, search, role);
    DecimalPlain("page", page);
    DecimalPlain("limit", limit);
    assert forall k :: 0 <= k < |ps| ==> Plain(ps[k]);
    ParseSerialize(ps);
    var tail := if role != "" then [("role", role)] else [];
    var mid := (if search != "" then [("search", search)] else []) + tail;
    assert ps == [("page", Decimal(page))] + ([("limit", Decimal(limit))] + mid);
    LookupCons(("page", Decimal(page)), [("limit", Decimal(limit))] + mid, "limit");
    LookupCons(("limit", Decimal(limit)), mid, "limit");
    LookupCons(("page", Decimal(page)), [("limit", Decimal(limit))] + mid, "search");
    LookupCons(("limit", Decimal(limit)), mid, "search");
    LookupCons(("page", Decimal(page)), [("limit", Decimal(limit))] + mid, "role");
    LookupCons(("limit", Decimal(limit)), mid, "role");
    if search != "" {
      LookupCons(("search", search), tail, "search");
      LookupCons(("search", search), tail, "role");
    } else {
      assert mid == tail;
    }
  }

  /** Reading back the revenue query: each bound is there exactly when non-empty. */
  lemma RevenueQueryLookup(startDate: string, endDate: string)
    requires Plain(("start_date", startDate)) && Plain(("end_date", endDate))
    ensures var q := Parse(Serialize(RevenueParams(startDate, endDate)));
      && Lookup(q, "start_date") == (if startDate != "" then Some(startDate) else None)
      && Lookup(q, "end_date") == (if endDate != "" then Some(endDate) else None)
  {
    var ps := RevenueParams(startDate, endDate);
    ParseSerialize(ps);
    if startDate != "" {
      assert ps[1..] == (if endDate != "" then [("end_date", endDate)] else []);
    }
  }
}
