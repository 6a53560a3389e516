/** The `Users` page: a paginated user list with a search box and a role filter. */
module Users {
  import opened Wrappers
  import opened Ui
  import Api
  import Query

  datatype UserRow = UserRow(id: string, name: string, email: string, role: string)

  /** The arguments one `fetchUsers` call passes on to `getAllUsers`. */
  datatype UsersQuery = UsersQuery(page: int, pageSize: int, search: string, role: string)

  const LoadError := "Gagal memuat data pengguna."

  class UsersPage {
    var data: seq<UserRow>
    var loading: bool
    var error: Option<string>
    var pagination: Pagination
    var searchText: string
    var roleFilter: string

    constructor ()
      ensures data == [] && !loading && error == None
      ensures pagination == Pagination(1, 10, 0) && searchText == "" && roleFilter == ""
    {
      data := [];
      loading := false;
      error := None;
      pagination := Pagination(1, 10, 0);
      searchText := "";
      roleFilter := "";
    }

    /** `fetchUsers` up to its await: `loading` on, `error` cleared, the query issued. */
    method BeginFetch(page: int, pageSize: int, search: string, role: string) returns (q: UsersQuery)
      modifies this`loading, this`error
      ensures loading && error == None
      ensures q == UsersQuery(page, pageSize, search, role)
    {
      loading := true;
      error := None;
      q := UsersQuery(page, pageSize, search, role);
    }

    /**
     * `fetchUsers` after its await for query `q`. Success replaces the rows,
     * takes page and total from the server and the page size from `q`;
     * failure sets only `error`. Filters are never touched.
     */
    method CompleteFetch(q: UsersQuery, outcome: Fetched<PageResult<UserRow>>)
      modifies this`data, this`pagination, this`error, this`loading
      ensures !loading
      ensures outcome.Loaded? ==>
        && data == outcome.value.data
        && pagination == Pagination(outcome.value.currentPage, q.pageSize, outcome.value.totalItems)
        && error == old(error)
      ensures outcome.Failed? ==>
        data == old(data) && pagination == old(pagination) && error == Some(LoadError)
    {
      match outcome {
        case Loaded(result) =>
          data := result.data;
          pagination := Pagination(result.currentPage, q.pageSize, result.totalItems);
        case Failed =>
          error := Some(LoadError);
      }
      loading := false;
    }

    /** The filter effect on mount: page 1, the current page size and filters. */
    method Mount() returns (q: UsersQuery)
      modifies this`loading, this`error
      ensures q == UsersQuery(1, pagination.pageSize, searchText, roleFilter)
      ensures loading && error == None
    {
      q := BeginFetch(1, pagination.pageSize, searchText, roleFilter);
    }

    /**
     * Typing in the search box. The effect re-runs only when the text really
     * changed, and then fetches page 1 with the current size and role.
     */
    method SetSearchText(value: string) returns (q: Option<UsersQuery>)
      modifies this`searchText, this`loading, this`error
      ensures searchText == value
      ensures q.Some? <==> value != old(searchText)
      ensures q.Some? ==> q.value == UsersQuery(1, pagination.pageSize, value, roleFilter) && loading && error == None
      ensures q.None? ==> loading == old(loading) && error == old(error)
    {
      var changed := value != searchText;
      searchText := value;
      if changed {
        var issued := BeginFetch(1, pagination.pageSize, searchText, roleFilter);
        q := Some(issued);
      } else {
        q := None;
      }
    }

    /**
     * Choosing or clearing a role (`value || ''`): clearing stores "" so that
     * `role` drops out of the query. A real change fetches page 1.
     */
    method SetRoleFilter(selection: Option<string>) returns (q: Option<UsersQuery>)
      modifies this`roleFilter, this`loading, this`error
      ensures roleFilter == selection.GetOr("")
      ensures selection.None? ==> roleFilter == ""
      ensures q.Some? <==> roleFilter != old(roleFilter)
      ensures q.Some? ==> q.value == UsersQuery(1, pagination.pageSize, searchText, roleFilter) && loading && error == None
      ensures q.None? ==> loading == old(loading) && error == old(error)
    {
      var value := selection.GetOr("");
      var changed := value != roleFilter;
      roleFilter := value;
      if changed {
        var issued := BeginFetch(1, pagination.pageSize, searchText, roleFilter);
        q := Some(issued);
      } else {
        q := None;
      }
    }

    /** `handleTableChange`: the requested page and size, with both filters as they are. */
    method HandleTableChange(next: Pagination) returns (q: UsersQuery)
      modifies this`loading, this`error
      ensures q == UsersQuery(next.current, next.pageSize, searchText, roleFilter)
      ensures loading && error == None
    {
      q := BeginFetch(next.current, next.pageSize, searchText, roleFilter);
    }

    function View(): ListScreen<UserRow>
      reads this
    {
      RenderList(data, loading, error, pagination)
    }
  }

  /** The request `fetchUsers` sends for `q`: every argument is passed, so no default of `getAllUsers` applies. */
  method Send(q: UsersQuery) returns (r: Api.Request)
    ensures r.verb == Api.Get && r.body == Api.NoBody
    ensures r.path == "/admin/users?" + Query.Serialize(Api.UsersParams(q.page, q.pageSize, q.search, q.role))
  {
    r := Api.GetAllUsers(Some(q.page), Some(q.pageSize), Some(q.search), Some(q.role));
  }

  /**
   * Example from the server's side: a role filter on page 1 that returns three
   * farmers leaves exactly that page on screen, with no error.
   */
  method FilterByRole(page: UsersPage, rows: seq<UserRow>) returns (q: Option<UsersQuery>)
    requires page.roleFilter == "" && |rows| == 3
    modifies page
    ensures q == Some(UsersQuery(1, old(page.pagination.pageSize), old(page.searchText), "farmer"))
    ensures page.data == rows && page.pagination == Pagination(1, old(page.pagination.pageSize), 3)
    ensures !page.loading && page.error == None && page.roleFilter == "farmer"
  {
    q := page.SetRoleFilter(Some("farmer"));
    page.CompleteFetch(q.value, Loaded(PageResult(rows, 1, 3)));
  }
}
