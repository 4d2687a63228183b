/**
 * The personal filter bar (`TodoFilters`): which store call each control
 * makes. The store itself is `TodoStore`.
 */
module TodoFiltersBar {
  import opened Wrappers
  import opened TodoTypes
  import opened Decimal
  import opened TodoStore
  import opened StatusSelect

  /** The page sizes the limit select offers. */
  const LimitOptions: set<string> := {"5", "10", "20", "50"}

  /** `handleStatusChange`: `setFilters` with the mapped patch, or no call for an unknown value. */
  function StatusChange(value: string): Option<StoreCall> {
    if StatusPatch(value).Some? then Some(SetFilters(StatusPatch(value).value)) else None
  }

  /** The limit select: `setPagination({limit: Number(val)})`. */
  function LimitChange(val: string): StoreCall
    requires ParseNat(val).Some?
  {
    SetPagination(NoPaginationChange.(limit := Some(ParseNat(val).value)))
  }

  /** The value the limit select shows: `String(pagination.limit)`. */
  function LimitValue(g: PaginationParams): string {
    IntToString(g.limit)
  }

  /** The order select: `setPagination({orderRule: val})`. */
  function OrderChange(rule: OrderRule): StoreCall {
    SetPagination(NoPaginationChange.(orderRule := Some(rule)))
  }

  /** The Clear button calls `resetFilters`. */
  const ClearCall := ResetFilters

  /**
   * `all`, `completed` and `pending` set `isDone` to undefined, true and
   * false; any other value changes nothing.
   */
  lemma StatusChangeEffect(s: ListState, value: string)
    ensures value !in StatusOptions ==> StatusChange(value).None?
    ensures value == "all" ==> StatusChange(value) == Some(SetFilters(FiltersPatch(Some(None))))
    ensures value == "completed" ==> StatusChange(value) == Some(SetFilters(FiltersPatch(Some(Some(true)))))
    ensures value == "pending" ==> StatusChange(value) == Some(SetFilters(FiltersPatch(Some(Some(false)))))
  {
  }

  /** After selecting one of the three values, the select shows that value and the list is on page 1. */
  lemma StatusChangeRoundTrip(s: ListState, value: string)
    requires value in StatusOptions
    ensures StatusChange(value).Some?
    ensures StatusValue(Apply(s, StatusChange(value).value).filters) == value
    ensures Apply(s, StatusChange(value).value).pagination.page == 1
  {
    StatusRoundTrip(s.filters, value);
  }

  /** A page size change sets only the page size: the page is kept. */
  lemma LimitChangeEffect(s: ListState, val: string)
    requires ParseNat(val).Some?
    ensures Apply(s, LimitChange(val)) == s.(pagination := s.pagination.(limit := ParseNat(val).value))
  {
  }

  /** Every offered page size reads back as its number and shows as the same text. */
  lemma LimitSelectRoundTrip(s: ListState, val: string)
    requires val in LimitOptions
    ensures ParseNat(val).Some?
    ensures LimitValue(Apply(s, LimitChange(val)).pagination) == val
  {
    assert |val| >= 1 && AllDigits(val) && val[0] != '0';
    NatToStringParse(val);
  }

  /** Re-selecting the page size the select shows changes nothing. */
  lemma LimitReselect(s: ListState)
    requires s.pagination.limit >= 0
    ensures ParseNat(LimitValue(s.pagination)).Some?
    ensures Apply(s, LimitChange(LimitValue(s.pagination))) == s
  {
    ParseNatToString(s.pagination.limit);
  }

  /** An order change sets only the order rule; Clear restores the reset defaults. */
  lemma OrderAndClearEffect(s: ListState, rule: OrderRule)
    ensures Apply(s, OrderChange(rule)) == s.(pagination := s.pagination.(orderRule := rule))
    ensures Apply(s, ClearCall) == ListState(Filters(None), PaginationParams(1, 10, Some(CreatedAt), Asc))
  {
  }
}
