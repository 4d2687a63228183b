/**
 * The status select shared by the personal filter bar and the admin list:
 * the shown value derived from `isDone`, and the filter patch a selection
 * produces.
 */
module StatusSelect {
  import opened Wrappers
  import opened TodoTypes

  const StatusOptions: set<string> := {"all", "completed", "pending"}

  /** `currentStatusValue`. */
  function StatusValue(f: Filters): (v: string)
    ensures v in StatusOptions
  {
    if f.isDone.None? then "all" else if f.isDone.value then "completed" else "pending"
  }

  /**
   * The filter patch `handleStatusChange` passes on for a selected value;
   * `None` when the value is none of the three and nothing is called.
   */
  function StatusPatch(value: string): Option<FiltersPatch> {
    if value == "all" then Some(FiltersPatch(Some(None)))
    else if value == "completed" then Some(FiltersPatch(Some(Some(true))))
    else if value == "pending" then Some(FiltersPatch(Some(Some(false))))
    else None
  }

  /** The shown value names the filter exactly: each of the three values for one `isDone`. */
  lemma StatusValueMeaning(f: Filters)
    ensures StatusValue(f) == "all" <==> f.isDone.None?
    ensures StatusValue(f) == "completed" <==> f.isDone == Some(true)
    ensures StatusValue(f) == "pending" <==> f.isDone == Some(false)
  {
  }

  /**
   * A selection is acted on exactly when it is one of the three values, and
   * then always sets `isDone` explicitly (`all` sets it to `undefined`).
   */
  lemma StatusPatchMeaning(value: string)
    ensures StatusPatch(value).Some? <==> value in StatusOptions
    ensures value == "all" ==> StatusPatch(value) == Some(FiltersPatch(Some(None)))
    ensures value == "completed" ==> StatusPatch(value) == Some(FiltersPatch(Some(Some(true))))
    ensures value == "pending" ==> StatusPatch(value) == Some(FiltersPatch(Some(Some(false))))
  {
  }

  /** Selecting a value and reading the select back gives that value, whatever the filters were. */
  lemma StatusRoundTrip(f: Filters, value: string)
    requires value in StatusOptions
    ensures StatusPatch(value).Some?
    ensures StatusValue(MergeFilters(f, StatusPatch(value).value)) == value
  {
  }

  /** The other direction: re-selecting the shown value leaves the filters as they were. */
  lemma StatusReselect(f: Filters)
    ensures StatusPatch(StatusValue(f)).Some?
    ensures MergeFilters(f, StatusPatch(StatusValue(f)).value) == f
  {
  }
}
