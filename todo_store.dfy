/**
 * The personal list's state store (`useTodoStore`): the current filters and
 * pagination, replaced by `setFilters`, `setPagination` and `resetFilters`.
 */
module TodoStore {
  import opened Wrappers
  import opened TodoTypes

  const InitialFilters := Filters(None)
  const InitialPagination := PaginationParams(1, 5, Some(CreatedAt), Asc)
  /** `resetFilters` restores a page size of 10, not the initial 5. */
  const ResetPagination := PaginationParams(1, 10, Some(CreatedAt), Asc)

  const Initial := ListState(InitialFilters, InitialPagination)

  /** A call into the store, as a component makes it. */
  datatype StoreCall =
    | SetFilters(filters: FiltersPatch)
    | SetPagination(pagination: PaginationPatch)
    | ResetFilters

  /** The state the store holds after `c`, starting from `s`. */
  function Apply(s: ListState, c: StoreCall): ListState {
    match c
    case SetFilters(p) => ListState(MergeFilters(s.filters, p), s.pagination.(page := 1))
    case SetPagination(p) => ListState(s.filters, MergePagination(s.pagination, p))
    case ResetFilters => ListState(Filters(None), ResetPagination)
  }

  class Store {
    var filters: Filters
    var pagination: PaginationParams

    function State(): ListState
      reads this
    {
      ListState(filters, pagination)
    }

    constructor ()
      ensures State() == Initial
    {
      filters := InitialFilters;
      pagination := InitialPagination;
    }

    method SetFilters(p: FiltersPatch)
      modifies this
      ensures State() == Apply(old(State()), StoreCall.SetFilters(p))
      ensures pagination.page == 1
    {
      filters := MergeFilters(filters, p);
      pagination := pagination.(page := 1);
    }

    method SetPagination(p: PaginationPatch)
      modifies this
      ensures State() == Apply(old(State()), StoreCall.SetPagination(p))
      ensures filters == old(filters)
    {
      pagination := MergePagination(pagination, p);
    }

    method ResetFilters()
      modifies this
      ensures State() == Apply(old(State()), StoreCall.ResetFilters)
      ensures filters.isDone.None? && pagination == ResetPagination
    {
      filters := Filters(None);
      pagination := ResetPagination;
    }

    /** Forwards a component's call to the matching store operation. */
    method Dispatch(c: StoreCall)
      modifies this
      ensures State() == Apply(old(State()), c)
    {
      match c
      case SetFilters(p) => SetFilters(p);
      case SetPagination(p) => SetPagination(p);
      case ResetFilters => ResetFilters();
    }
  }

  /**
   * `setFilters(p)` overwrites exactly the keys present in `p` (an explicit
   * `isDone: undefined` clears the filter), moves to page 1 and keeps
   * every other pagination field.
   */
  lemma SetFiltersEffect(s: ListState, p: FiltersPatch)
    ensures var t := Apply(s, SetFilters(p));
      && (p.isDone.Some? ==> t.filters.isDone == p.isDone.value)
      && (p.isDone.None? ==> t.filters == s.filters)
      && (p.isDone == Some(None) ==> t.filters.isDone.None?)
      && t.pagination.page == 1
      && t.pagination.limit == s.pagination.limit
      && t.pagination.orderRule == s.pagination.orderRule
      && t.pagination.orderKey == s.pagination.orderKey
  {
  }

  /** Applying the same `setFilters` twice is the same as applying it once. */
  lemma SetFiltersIdempotent(s: ListState, p: FiltersPatch)
    ensures Apply(Apply(s, SetFilters(p)), SetFilters(p)) == Apply(s, SetFilters(p))
  {
  }

  /**
   * `setPagination(p)` overwrites only the pagination keys present in `p`
   * and never touches the filters.
   */
  lemma SetPaginationEffect(s: ListState, p: PaginationPatch)
    ensures var t := Apply(s, SetPagination(p));
      && t.filters == s.filters
      && t.pagination.page == (if p.page.Some? then p.page.value else s.pagination.page)
      && t.pagination.limit == (if p.limit.Some? then p.limit.value else s.pagination.limit)
      && t.pagination.orderKey == (if p.orderKey.Some? then p.orderKey.value else s.pagination.orderKey)
      && t.pagination.orderRule == (if p.orderRule.Some? then p.orderRule.value else s.pagination.orderRule)
  {
  }

  /** The store has no automatic page reset: a page size change keeps the page. */
  lemma LimitChangeKeepsPage(s: ListState, n: int)
    ensures Apply(s, SetPagination(NoPaginationChange.(limit := Some(n)))).pagination
         == s.pagination.(limit := n)
  {
  }

  /** `resetFilters` forgets the prior state entirely and is idempotent. */
  lemma ResetIsConstant(s: ListState, s': ListState)
    ensures Apply(s, ResetFilters) == Apply(s', ResetFilters)
    ensures Apply(Apply(s, ResetFilters), ResetFilters) == Apply(s, ResetFilters)
    ensures Apply(s, ResetFilters) == ListState(Filters(None), PaginationParams(1, 10, Some(CreatedAt), Asc))
  {
  }

  /** Clearing lands on a different page size than a fresh store has (10 against 5). */
  lemma ResetDiffersFromInitial()
    ensures Apply(Initial, ResetFilters) != Initial
    ensures Initial.pagination.limit == 5 && Apply(Initial, ResetFilters).pagination.limit == 10
  {
  }
}
