/**
 * The value shapes shared by the list views, the store and the request
 * builder: users, filters, pagination parameters and the partial objects
 * that are spread over them.
 */
module TodoTypes {
  import opened Wrappers

  datatype Role = USER | ADMIN

  datatype User = User(id: string, email: string, fullName: string, role: Option<Role>)

  datatype OrderRule = Asc | Desc

  /** The only sort key the client knows: `'createdAt'`. */
  datatype OrderKey = CreatedAt

  /**
   * `TodoFilters`: `isDone` is `None` when the key is absent or `undefined`
   * (no reader of a filter object tells those apart).
   */
  datatype Filters = Filters(isDone: Option<bool>)

  /** `PaginationParams`; `page` and `limit` are JavaScript numbers, taken here as integers. */
  datatype PaginationParams = PaginationParams(page: int, limit: int, orderKey: Option<OrderKey>, orderRule: OrderRule)

  /**
   * `Partial<TodoFilters>`: the outer option says whether the key is present
   * in the object, the inner one is its value, so `{isDone: undefined}` is
   * `FiltersPatch(Some(None))` and `{}` is `FiltersPatch(None)`.
   */
  datatype FiltersPatch = FiltersPatch(isDone: Option<Option<bool>>)

  /** `Partial<PaginationParams>`, one option per key that may be present. */
  datatype PaginationPatch = PaginationPatch(
    page: Option<int>,
    limit: Option<int>,
    orderKey: Option<Option<OrderKey>>,
    orderRule: Option<OrderRule>)

  const NoPaginationChange := PaginationPatch(None, None, None, None)

  /** `{ ...f, ...p }`: every key present in `p` wins. */
  function MergeFilters(f: Filters, p: FiltersPatch): Filters {
    if p.isDone.Some? then Filters(p.isDone.value) else f
  }

  /** `{ ...g, ...p }` on pagination objects. */
  function MergePagination(g: PaginationParams, p: PaginationPatch): PaginationParams {
    PaginationParams(
      if p.page.Some? then p.page.value else g.page,
      if p.limit.Some? then p.limit.value else g.limit,
      if p.orderKey.Some? then p.orderKey.value else g.orderKey,
      if p.orderRule.Some? then p.orderRule.value else g.orderRule)
  }

  /** The list parameters one list view holds: its filters and its pagination. */
  datatype ListState = ListState(filters: Filters, pagination: PaginationParams)
}
