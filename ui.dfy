/** Values shared by the pages: toasts, fetch outcomes, table pagination, router locations. */
module Ui {
  import opened Wrappers

  /** An antd `message.error` / `message.success` toast. */
  datatype Toast = ErrorToast(text: string) | SuccessToast(text: string)

  /**
   * How an awaited request ended, supplied from outside the model:
   * `Loaded` carries the response's `data.data`, `Failed` stands for a thrown error.
   */
  datatype Fetched<T> = Loaded(value: T) | Failed

  /** antd Table pagination state. */
  datatype Pagination = Pagination(current: int, pageSize: int, total: int)

  /** The server's paginated envelope: `data`, `current_page`, `total_items`. */
  datatype PageResult<T> = PageResult(data: seq<T>, currentPage: int, totalItems: int)

  /** A react-router location. */
  datatype Location = Location(pathname: string, search: string)

  /** JavaScript truthiness of a nullable string: present and not empty. */
  predicate Truthy(s: Option<string>) {
    s.Some? && s.value != ""
  }

  /** A range picker's value: either bound may be missing. */
  datatype DateRange<D> = DateRange(start: Option<D>, end: Option<D>)

  /** What a paginated list page shows: an error banner above the table, never in place of it. */
  datatype ListScreen<R> = ListScreen(banner: Option<string>, rows: seq<R>, busy: bool, pagination: Pagination)

  function RenderList<R>(data: seq<R>, loading: bool, error: Option<string>, pagination: Pagination): (s: ListScreen<R>)
    ensures s.banner.Some? <==> Truthy(error)
    ensures s.banner.Some? ==> s.banner == error
    ensures s.rows == data && s.busy == loading && s.pagination == pagination
  {
    ListScreen(if Truthy(error) then error else None, data, loading, pagination)
  }
}
