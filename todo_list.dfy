/**
 * The personal list (`TodoList`): what it shows for a query state, the
 * page-button rules, and the state the list can reach through its
 * controls and those of the filter bar.
 */
module TodoListView {
  import opened Wrappers
  import opened TodoTypes
  import opened Decimal
  import opened TodoStore
  import opened StatusSelect
  import opened TodoFiltersBar

  /** `pagination.page || 1`. */
  function CurrentPage(page: int): int {
    if page == 0 then 1 else page
  }

  /** `todosData?.totalPage || 1`: a missing or zero page count reads as one page. */
  function TotalPages(totalPage: Option<int>): int {
    if totalPage.None? || totalPage.value == 0 then 1 else totalPage.value
  }

  predicate PreviousDisabled(currentPage: int) {
    currentPage <= 1
  }

  predicate NextDisabled(currentPage: int, totalPages: int) {
    currentPage >= totalPages
  }

  /** The pagination controls appear only for a non-empty page of a multi-page list. */
  predicate ShowsControls(entries: nat, totalPages: int) {
    entries > 0 && totalPages > 1
  }

  /** What the list renders. */
  datatype View = Spinner | LoadFailed | Empty | Entries(count: nat, controls: bool)

  /** What the query reports: loading flag, error flag, and the page received (if any). */
  datatype QueryState = QueryState(isLoading: bool, failed: bool, data: Option<Page>)

  /** The parts of a `TodosResponse` the list reads. */
  datatype Page = Page(entries: nat, totalPage: Option<int>)

  function ViewOf(q: QueryState): View {
    if q.isLoading then Spinner
    else if q.failed then LoadFailed
    else
      var count := if q.data.Some? then q.data.value.entries else 0;
      var total := TotalPages(if q.data.Some? then q.data.value.totalPage else None);
      if count == 0 then Empty else Entries(count, ShowsControls(count, total))
  }

  /** Loading wins over an error, which wins over data. */
  lemma ViewPrecedence(q: QueryState)
    ensures q.isLoading ==> ViewOf(q) == Spinner
    ensures !q.isLoading && q.failed ==> ViewOf(q) == LoadFailed
    ensures ViewOf(q).Entries? ==> !q.isLoading && !q.failed && q.data.Some? && q.data.value.entries > 0
    ensures ViewOf(q).Entries? && ViewOf(q).controls ==> TotalPages(q.data.value.totalPage) > 1
  {
  }

  /** The page defaults: a falsy page is page 1, a missing or zero page count is one page. */
  lemma PageDefaults(page: int, totalPage: Option<int>)
    ensures page != 0 ==> CurrentPage(page) == page
    ensures CurrentPage(0) == 1
    ensures totalPage.Some? && totalPage.value != 0 ==> TotalPages(totalPage) == totalPage.value
    ensures TotalPages(None) == 1 && TotalPages(Some(0)) == 1
  {
  }

  /**
   * From a page inside `1..totalPages`, the page an enabled button moves to
   * is again inside `1..totalPages`.
   */
  lemma PageButtonsStayInRange(current: int, total: int)
    requires 1 <= current <= total
    ensures !PreviousDisabled(current) ==> 1 <= current - 1 <= total
    ensures !NextDisabled(current, total) ==> 1 <= current + 1 <= total
    ensures PreviousDisabled(current) <==> current == 1
    ensures NextDisabled(current, total) <==> current == total
  {
  }

  /** `handlePageChange(n)` is `setPagination({page: n})`. */
  function PageChange(n: int): StoreCall {
    SetPagination(NoPaginationChange.(page := Some(n)))
  }

  /** A page change moves only the page. */
  lemma PageChangeEffect(s: ListState, n: int)
    ensures Apply(s, PageChange(n)) == s.(pagination := s.pagination.(page := n))
  {
  }

  /** A user action on the personal list or its filter bar. */
  datatype Event =
    | StatusSelected(value: string)
    | LimitSelected(value: string)
    | OrderSelected(rule: OrderRule)
    | ClearClicked
    | PreviousClicked(shown: Page)
    | NextClicked(shown: Page)

  /**
   * Whether the control can fire in state `s`: selects offer only their
   * items, and a page button must be shown and not disabled for the page
   * the list last received.
   */
  predicate Enabled(s: ListState, e: Event) {
    match e
    case StatusSelected(v) => v in StatusOptions
    case LimitSelected(v) => v in LimitOptions
    case OrderSelected(_) => true
    case ClearClicked => true
    case PreviousClicked(p) =>
      ShowsControls(p.entries, TotalPages(p.totalPage)) && !PreviousDisabled(CurrentPage(s.pagination.page))
    case NextClicked(p) =>
      ShowsControls(p.entries, TotalPages(p.totalPage))
      && !NextDisabled(CurrentPage(s.pagination.page), TotalPages(p.totalPage))
  }

  /** The store call an enabled event makes. */
  function CallOf(s: ListState, e: Event): StoreCall
    requires Enabled(s, e)
  {
    match e
    case StatusSelected(v) => StatusChange(v).value
    case LimitSelected(v) =>
      assert |v| >= 1 && AllDigits(v);
      LimitChange(v)
    case OrderSelected(r) => OrderChange(r)
    case ClearClicked => ClearCall
    case PreviousClicked(_) => PageChange(CurrentPage(s.pagination.page) - 1)
    case NextClicked(_) => PageChange(CurrentPage(s.pagination.page) + 1)
  }

  ghost predicate AllEnabled(s: ListState, es: seq<Event>)
    decreases |es|
  {
    es == [] || (Enabled(s, es[0]) && AllEnabled(Apply(s, CallOf(s, es[0])), es[1..]))
  }

  /** The store state after a run of enabled events. */
  ghost function Run(s: ListState, es: seq<Event>): ListState
    requires AllEnabled(s, es)
    decreases |es|
  {
    if es == [] then s else Run(Apply(s, CallOf(s, es[0])), es[1..])
  }

  /** What holds of every state the personal list can reach. */
  ghost predicate Reachable(s: ListState) {
    && s.pagination.page >= 1
    && s.pagination.limit in {5, 10, 20, 50}
    && s.pagination.orderKey == Some(CreatedAt)
  }

  lemma StepKeepsReachable(s: ListState, e: Event)
    requires Reachable(s) && Enabled(s, e)
    ensures Reachable(Apply(s, CallOf(s, e)))
  {
    match e
    case LimitSelected(v) =>
      LimitSelectRoundTrip(s, v);
      assert v == "5" || v == "10" || v == "20" || v == "50";
    case _ =>
  }

  /**
   * Through its controls alone the personal list always stays on a page
   * >= 1, with one of the offered page sizes, sorted by creation time.
   */
  lemma {:induction false} RunKeepsReachable(s: ListState, es: seq<Event>)
    requires Reachable(s) && AllEnabled(s, es)
    ensures Reachable(Run(s, es))
    decreases |es|
  {
    if es != [] {
      StepKeepsReachable(s, es[0]);
      RunKeepsReachable(Apply(s, CallOf(s, es[0])), es[1..]);
    }
  }

  lemma InitialReachable()
    ensures Reachable(Initial)
  {
  }

  /**
   * There is no page reset on a page size change: moving to page 2 and then
   * choosing 20 rows leaves the list on page 2.
   */
  lemma LimitChangeKeepsPageTwo()
    ensures var shown := Page(5, Some(3));
      var es := [NextClicked(shown), LimitSelected("20")];
      AllEnabled(Initial, es) && Run(Initial, es).pagination.page == 2
  {
    var shown := Page(5, Some(3));
    var es := [NextClicked(shown), LimitSelected("20")];
    var s1 := Apply(Initial, CallOf(Initial, es[0]));
    assert s1.pagination.page == 2;
    LimitSelectRoundTrip(s1, "20");
    var s2 := Apply(s1, CallOf(s1, es[1]));
    assert s2.pagination.page == 2;
    assert es[1..][1..] == [];
    assert AllEnabled(s2, es[1..][1..]);
    assert AllEnabled(s1, es[1..]);
    assert AllEnabled(Initial, es);
    assert Run(Initial, es) == Run(s1, es[1..]) == Run(s2, []);
  }
}
