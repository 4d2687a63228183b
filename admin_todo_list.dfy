/**
 * The admin list (`AdminTodoList`): its own filters and pagination, held
 * locally and updated by its handlers, and its page-button rules. Unlike the
 * personal list it has no order select and resets the page on a page size
 * change.
 */
module AdminTodoList {
  import opened Wrappers
  import opened TodoTypes
  import opened Decimal
  import opened StatusSelect
  import opened Api
  import TodoListView

  /** Empty filters, page 1 of 10 rows, ascending, and no sort key. */
  const AdminInitial := ListState(Filters(None), PaginationParams(1, 10, None, Asc))

  /** `handlePageChange(n)`: only the page moves. */
  function PageChanged(s: ListState, n: int): ListState {
    s.(pagination := s.pagination.(page := n))
  }

  /** `handleFiltersChange(p)`: merge the patch, back to page 1. */
  function FiltersChanged(s: ListState, p: FiltersPatch): ListState {
    ListState(MergeFilters(s.filters, p), s.pagination.(page := 1))
  }

  /** `handleStatusChange(v)`: the status mapping, or no change for an unknown value. */
  function StatusChanged(s: ListState, value: string): ListState {
    if StatusPatch(value).Some? then FiltersChanged(s, StatusPatch(value).value) else s
  }

  /** The limit select: new page size and back to page 1. */
  function LimitChanged(s: ListState, n: int): ListState {
    s.(pagination := s.pagination.(limit := n, page := 1))
  }

  class AdminList {
    var filters: Filters
    var pagination: PaginationParams

    function State(): ListState
      reads this
    {
      ListState(filters, pagination)
    }

    constructor ()
      ensures State() == AdminInitial
    {
      filters := Filters(None);
      pagination := PaginationParams(1, 10, None, Asc);
    }

    method HandlePageChange(n: int)
      modifies this
      ensures State() == PageChanged(old(State()), n)
      ensures filters == old(filters) && pagination == old(pagination).(page := n)
    {
      pagination := pagination.(page := n);
    }

    method HandleFiltersChange(p: FiltersPatch)
      modifies this
      ensures State() == FiltersChanged(old(State()), p)
      ensures pagination.page == 1 && pagination.limit == old(pagination).limit
    {
      filters := MergeFilters(filters, p);
      pagination := pagination.(page := 1);
    }

    method HandleStatusChange(value: string)
      modifies this
      ensures State() == StatusChanged(old(State()), value)
      ensures value !in StatusOptions ==> State() == old(State())
    {
      var patch := StatusPatch(value);
      if patch.Some? {
        HandleFiltersChange(patch.value);
      }
    }

    /** `setPagination(prev => ({...prev, limit: Number(val), page: 1}))`. */
    method HandleLimitChange(val: string)
      requires ParseNat(val).Some?
      modifies this
      ensures State() == LimitChanged(old(State()), ParseNat(val).value)
      ensures pagination.page == 1 && filters == old(filters)
    {
      pagination := pagination.(limit := ParseNat(val).value, page := 1);
    }
  }

  /** The current page is `pagination.page` as it is, without a default. */
  predicate PreviousDisabled(s: ListState) {
    s.pagination.page <= 1
  }

  predicate NextDisabled(s: ListState, totalPages: int) {
    s.pagination.page >= totalPages
  }

  /** The pagination controls show whenever there is more than one page, even for an empty page. */
  predicate ShowsControls(totalPages: int) {
    totalPages > 1
  }

  /** Filter changes and page size changes both land on page 1; other fields stay. */
  lemma ChangesResetPage(s: ListState, p: FiltersPatch, n: int)
    ensures FiltersChanged(s, p).pagination == s.pagination.(page := 1)
    ensures LimitChanged(s, n).pagination.page == 1 && LimitChanged(s, n).pagination.limit == n
    ensures LimitChanged(s, n).filters == s.filters
    ensures PageChanged(s, n).filters == s.filters && PageChanged(s, n).pagination.limit == s.pagination.limit
  {
  }

  /** The status select round-trips here as in the filter bar, and ignores unknown values. */
  lemma AdminStatusRoundTrip(s: ListState, value: string)
    ensures value in StatusOptions ==> StatusValue(StatusChanged(s, value).filters) == value
    ensures value in StatusOptions ==> StatusChanged(s, value).pagination.page == 1
    ensures value !in StatusOptions ==> StatusChanged(s, value) == s
  {
    if value in StatusOptions {
      StatusRoundTrip(s.filters, value);
    }
  }

  /**
   * The page count defaults as in the personal list; Previous is disabled
   * exactly on page 1 or below, Next exactly from the last page on.
   */
  lemma AdminButtons(s: ListState, totalPage: Option<int>)
    ensures TodoListView.TotalPages(None) == 1
    ensures PreviousDisabled(s) <==> s.pagination.page <= 1
    ensures NextDisabled(s, TodoListView.TotalPages(totalPage)) <==>
      s.pagination.page >= (if totalPage.None? || totalPage.value == 0 then 1 else totalPage.value)
  {
  }

  /**
   * From a page inside `1..totalPages`, an enabled button moves to a page
   * again inside that range; Previous is disabled exactly on page 1 and
   * Next exactly on the last page.
   */
  lemma AdminPageButtonsStayInRange(s: ListState, total: int)
    requires 1 <= s.pagination.page <= total
    ensures !PreviousDisabled(s) ==> 1 <= PageChanged(s, s.pagination.page - 1).pagination.page <= total
    ensures !NextDisabled(s, total) ==> 1 <= PageChanged(s, s.pagination.page + 1).pagination.page <= total
    ensures PreviousDisabled(s) <==> s.pagination.page == 1
    ensures NextDisabled(s, total) <==> s.pagination.page == total
  {
  }

  /**
   * Without the `|| 1` default a page of 0 behaves differently from the
   * personal list: Previous is disabled, and Next moves to page 1, where the
   * personal list, reading page 0 as 1, moves to page 2.
   */
  lemma AdminPageZero(s: ListState, total: int)
    requires s.pagination.page == 0 && total >= 1
    ensures PreviousDisabled(s) && !NextDisabled(s, total)
    ensures PageChanged(s, s.pagination.page + 1).pagination.page == 1
    ensures TodoListView.CurrentPage(s.pagination.page) + 1 == 2
  {
  }

  /** A user action on the admin list. */
  datatype Event =
    | StatusSelected(value: string)
    | LimitSelected(value: string)
    | PreviousClicked(totalPage: Option<int>)
    | NextClicked(totalPage: Option<int>)

  predicate Enabled(s: ListState, e: Event) {
    match e
    case StatusSelected(v) => v in StatusOptions
    case LimitSelected(v) => v in {"5", "10", "20", "50"}
    case PreviousClicked(t) => ShowsControls(TodoListView.TotalPages(t)) && !PreviousDisabled(s)
    case NextClicked(t) => ShowsControls(TodoListView.TotalPages(t)) && !NextDisabled(s, TodoListView.TotalPages(t))
  }

  function Step(s: ListState, e: Event): ListState
    requires Enabled(s, e)
  {
    match e
    case StatusSelected(v) => StatusChanged(s, v)
    case LimitSelected(v) =>
      assert |v| >= 1 && AllDigits(v);
      LimitChanged(s, ParseNat(v).value)
    case PreviousClicked(_) => PageChanged(s, s.pagination.page - 1)
    case NextClicked(_) => PageChanged(s, s.pagination.page + 1)
  }

  ghost predicate AllEnabled(s: ListState, es: seq<Event>)
    decreases |es|
  {
    es == [] || (Enabled(s, es[0]) && AllEnabled(Step(s, es[0]), es[1..]))
  }

  ghost function Run(s: ListState, es: seq<Event>): ListState
    requires AllEnabled(s, es)
    decreases |es|
  {
    if es == [] then s else Run(Step(s, es[0]), es[1..])
  }

  /** What holds of every state the admin list can reach. */
  ghost predicate Reachable(s: ListState) {
    && s.pagination.page >= 1
    && s.pagination.limit in {5, 10, 20, 50}
    && s.pagination.orderKey.None?
    && s.pagination.orderRule == Asc
  }

  lemma StepKeepsReachable(s: ListState, e: Event)
    requires Reachable(s) && Enabled(s, e)
    ensures Reachable(Step(s, e))
  {
    match e
    case LimitSelected(v) =>
      assert v == "5" || v == "10" || v == "20" || v == "50";
      assert |v| >= 1 && AllDigits(v) && v[0] != '0';
      NatToStringParse(v);
      assert NatToString(ParseNat(v).value) == v;
    case _ =>
  }

  /**
   * Through its controls the admin list stays on a page >= 1, with an
   * offered page size, ascending and without a sort key, so its request
   * never carries `orderKey`.
   */
  lemma {:induction false} RunKeepsReachable(s: ListState, es: seq<Event>)
    requires Reachable(s) && AllEnabled(s, es)
    ensures Reachable(Run(s, es))
    ensures TodoSent(Some(Run(s, es).filters), Some(Run(s, es).pagination), OrderKeyKey) == None
    decreases |es|
  {
    if es != [] {
      StepKeepsReachable(s, es[0]);
      RunKeepsReachable(Step(s, es[0]), es[1..]);
    }
  }

  lemma InitialReachable()
    ensures Reachable(AdminInitial)
  {
  }
}
