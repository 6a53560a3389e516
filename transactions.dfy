/** The `Transactions` page: a paginated transaction history. */
module Transactions {
  import opened Wrappers
  import opened Ui
  import Api
  import Query
  import Text

  datatype TransactionRow = TransactionRow(transactionId: string, transactionType: string, amountPaid: int, status: string)

  /** The arguments one `fetchTransactions` call passes on to `getAllTransactions`. */
  datatype TransactionsQuery = TransactionsQuery(page: int, pageSize: int)

  const LoadError := "Gagal memuat data transaksi."

  class TransactionsPage {
    var data: seq<TransactionRow>
    var loading: bool
    var error: Option<string>
    var pagination: Pagination

    constructor ()
      ensures data == [] && !loading && error == None
      ensures pagination == Pagination(1, 10, 0)
    {
      data := [];
      loading := false;
      error := None;
      pagination := Pagination(1, 10, 0);
    }

    /** `fetchTransactions` up to its await: `loading` on, `error` cleared, the query issued. */
    method BeginFetch(page: int, pageSize: int) returns (q: TransactionsQuery)
      modifies this`loading, this`error
      ensures loading && error == None
      ensures q == TransactionsQuery(page, pageSize)
    {
      loading := true;
      error := None;
      q := TransactionsQuery(page, pageSize);
    }

    /**
     * `fetchTransactions` after its await for query `q`: success takes page and
     * total from the server and the size from `q`; failure sets only `error`.
     */
    method CompleteFetch(q: TransactionsQuery, outcome: Fetched<PageResult<TransactionRow>>)
      modifies this`data, this`pagination, this`error, this`loading
      ensures !loading
      ensures outcome.Loaded? ==>
        && data == outcome.value.data
        && pagination == Pagination(outcome.value.currentPage, q.pageSize, outcome.value.totalItems)
        && error == old(error)
      ensures outcome.Failed? ==>
        data == old(data) && pagination == old(pagination) && error == Some(LoadError)
    {
      match outcome {
        case Loaded(result) =>
          data := result.data;
          pagination := Pagination(result.currentPage, q.pageSize, result.totalItems);
        case Failed =>
          error := Some(LoadError);
      }
      loading := false;
    }

    /** The mount effect: a fetch with the held page and size. */
    method Mount() returns (q: TransactionsQuery)
      modifies this`loading, this`error
      ensures q == TransactionsQuery(pagination.current, pagination.pageSize)
      ensures loading && error == None
    {
      q := BeginFetch(pagination.current, pagination.pageSize);
    }

    /** `handleTableChange`: exactly the new page and size. */
    method HandleTableChange(next: Pagination) returns (q: TransactionsQuery)
      modifies this`loading, this`error
      ensures q == TransactionsQuery(next.current, next.pageSize)
      ensures loading && error == None
    {
      q := BeginFetch(next.current, next.pageSize);
    }

    function View(): ListScreen<TransactionRow>
      reads this
    {
      RenderList(data, loading, error, pagination)
    }
  }

  /** The request `fetchTransactions` sends for `q`: page and size as given. */
  function Send(q: TransactionsQuery): (r: Api.Request)
    ensures r.verb == Api.Get && r.body == Api.NoBody
    ensures r.path == "/admin/transactions?"
      + Query.Serialize([("page", Text.Decimal(q.page)), ("limit", Text.Decimal(q.pageSize))])
  {
    Api.GetAllTransactions(Some(q.page), Some(q.pageSize))
  }

  /** A freshly mounted page fetches page 1 of 10 rows. */
  method MountFresh() returns (page: TransactionsPage, q: TransactionsQuery)
    ensures fresh(page)
    ensures q == TransactionsQuery(1, 10)
    ensures page.loading && page.error == None && page.data == []
  {
    page := new TransactionsPage();
    q := page.Mount();
  }
}
