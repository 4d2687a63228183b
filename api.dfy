/**
 * The request layer: unwrapping the `{content, message, errors}` envelope of
 * every response, and turning filters and pagination into the ordered query
 * parameters of the list requests. The HTTP transport itself is not modelled.
 */
module Api {
  import opened Wrappers
  import opened TodoTypes
  import opened Decimal

  /** The envelope every endpoint answers with; `errors` may be missing. */
  datatype ApiResponse<T> = ApiResponse(content: T, message: string, errors: Option<seq<string>>)

  /** `xs.join(sep)`. */
  function Join(xs: seq<string>, sep: string): string
    decreases |xs|
  {
    if |xs| == 0 then ""
    else if |xs| == 1 then xs[0]
    else xs[0] + sep + Join(xs[1..], sep)
  }

  function TotalLength(xs: seq<string>): nat
    decreases |xs|
  {
    if |xs| == 0 then 0 else |xs[0]| + TotalLength(xs[1..])
  }

  /** The joined text holds every string once plus one separator between neighbours. */
  lemma {:induction false} JoinLength(xs: seq<string>, sep: string)
    requires |xs| >= 1
    ensures |Join(xs, sep)| == TotalLength(xs) + |sep| * (|xs| - 1)
    decreases |xs|
  {
    if |xs| > 1 {
      JoinLength(xs[1..], sep);
    }
  }

  /** The joined text starts with the first string and, when there are more, the separator. */
  lemma JoinStartsWithFirst(xs: seq<string>, sep: string)
    requires |xs| >= 1
    ensures Join(xs, sep)[..|xs[0]|] == xs[0]
    ensures |xs| > 1 ==> Join(xs, sep)[|xs[0]|..|xs[0]| + |sep|] == sep
  {
  }

  /**
   * `unwrap`: a non-empty `errors` list fails with the errors joined by
   * `", "`; an empty or missing list yields `content`.
   */
  function Unwrap<T>(r: ApiResponse<T>): (res: Result<T>)
    ensures res.Failure? <==> r.errors.Some? && |r.errors.value| > 0
    ensures res.Success? ==> res.value == r.content
    ensures res.Failure? ==> res.error == Join(r.errors.value, ", ")
  {
    if r.errors.Some? && |r.errors.value| > 0 then Failure(Join(r.errors.value, ", "))
    else Success(r.content)
  }

  /** A single error is reported verbatim. */
  lemma UnwrapSingleError<T>(content: T, message: string, e: string)
    ensures Unwrap(ApiResponse(content, message, Some([e]))) == Failure(e)
  {
  }

  /** The values a filter object can carry once it is read as `Object.entries`. */
  datatype JsValue = JUndefined | JBool(b: bool) | JString(s: string)

  datatype Entry = Entry(key: string, value: JsValue)

  /** The cleaning rule: `value !== undefined && value !== ''`. */
  predicate Kept(v: JsValue) {
    v != JUndefined && v != JString("")
  }

  /**
   * `Object.entries(filters).filter(...)`: the entries that survive cleaning,
   * in their original order (see `CleanEntriesAppend`).
   */
  function CleanEntries(es: seq<Entry>): (r: seq<Entry>)
    ensures forall e :: e in r <==> e in es && Kept(e.value)
    ensures forall i :: 0 <= i < |r| ==> Kept(r[i].value)
    ensures |r| <= |es|
    decreases |es|
  {
    if es == [] then []
    else (if Kept(es[0].value) then [es[0]] else []) + CleanEntries(es[1..])
  }

  /**
   * Cleaning keeps the original order: cleaning a concatenation is the
   * concatenation of the cleaned parts.
   */
  lemma {:induction false} CleanEntriesAppend(a: seq<Entry>, b: seq<Entry>)
    ensures CleanEntries(a + b) == CleanEntries(a) + CleanEntries(b)
    decreases |a|
  {
    if a == [] {
      assert a + b == b;
    } else {
      assert (a + b)[0] == a[0];
      assert (a + b)[1..] == a[1..] + b;
      CleanEntriesAppend(a[1..], b);
    }
  }

  /** A single entry survives cleaning exactly when the rule keeps its value. */
  lemma CleanEntriesSingle(e: Entry)
    ensures CleanEntries([e]) == if Kept(e.value) then [e] else []
  {
    assert [e][1..] == [];
  }

  /** Cleaning an already clean list changes nothing. */
  lemma {:induction false} CleanEntriesIdempotent(es: seq<Entry>)
    ensures CleanEntries(CleanEntries(es)) == CleanEntries(es)
    decreases |es|
  {
    if es != [] {
      CleanEntriesIdempotent(es[1..]);
      var rest := CleanEntries(es[1..]);
      if Kept(es[0].value) {
        assert CleanEntries(es) == [es[0]] + rest;
        assert ([es[0]] + rest)[1..] == rest;
      } else {
        assert CleanEntries(es) == rest;
      }
    }
  }

  /** `Object.entries` of a filter object: its one key, `isDone`. */
  function FilterEntries(f: Filters): seq<Entry> {
    [Entry("isDone", if f.isDone.Some? then JBool(f.isDone.value) else JUndefined)]
  }

  /** `JSON.stringify` of one value; strings are written without escaping. */
  function JsonValue(v: JsValue): string {
    match v
    case JBool(b) => if b then "true" else "false"
    case JString(s) => "\"" + s + "\""
    case JUndefined => ""
  }

  /** The members of a JSON object, comma separated; `undefined` members are omitted. */
  function JsonMembers(es: seq<Entry>): string
    decreases |es|
  {
    if es == [] then ""
    else if es[0].value == JUndefined then JsonMembers(es[1..])
    else
      var m := "\"" + es[0].key + "\":" + JsonValue(es[0].value);
      var rest := JsonMembers(es[1..]);
      if rest == "" then m else m + "," + rest
  }

  function JsonObject(es: seq<Entry>): string {
    "{" + JsonMembers(es) + "}"
  }

  /** The names the list requests use for their query parameters. */
  datatype QueryKey = FiltersKey | OrderRuleKey | OrderKeyKey | PageKey | RowsKey | IsDoneKey

  /** The name each parameter carries on the wire. */
  function KeyName(k: QueryKey): string {
    match k
    case FiltersKey => "filters"
    case OrderRuleKey => "orderRule"
    case OrderKeyKey => "orderKey"
    case PageKey => "page"
    case RowsKey => "rows"
    case IsDoneKey => "isDone"
  }

  /** One query-string parameter, before percent-encoding. */
  datatype Param = Param(key: QueryKey, value: string)

  function OrderRuleText(r: OrderRule): string {
    match r
    case Asc => "asc"
    case Desc => "desc"
  }

  function OrderKeyText(k: OrderKey): string {
    match k
    case CreatedAt => "createdAt"
  }

  /** Position of each parameter in the order the list requests emit them (`isDone` takes the filter's place). */
  function KeyRank(k: QueryKey): nat {
    match k
    case FiltersKey => 0
    case OrderRuleKey => 1
    case OrderKeyKey => 2
    case PageKey => 3
    case RowsKey => 4
    case IsDoneKey => 0
  }

  /** The cleaned filter entries `todoApi.getAll` serialises (`filters || {}`). */
  function CleanedFilters(filters: Option<Filters>): seq<Entry> {
    CleanEntries(if filters.Some? then FilterEntries(filters.value) else [])
  }

  /**
   * What `todoApi.getAll` sends under each parameter name: the cleaned
   * filters as JSON only when some survive; `orderRule`, `orderKey`, `page`
   * and `rows` (the page size) only when their source is truthy.
   */
  function TodoSent(filters: Option<Filters>, pagination: Option<PaginationParams>, k: QueryKey): Option<string> {
    var cleaned := CleanedFilters(filters);
    match k
    case FiltersKey => if |cleaned| > 0 then Some(JsonObject(cleaned)) else None
    case OrderRuleKey => if pagination.Some? then Some(OrderRuleText(pagination.value.orderRule)) else None
    case OrderKeyKey =>
      if pagination.Some? && pagination.value.orderKey.Some?
      then Some(OrderKeyText(pagination.value.orderKey.value)) else None
    case PageKey =>
      if pagination.Some? && pagination.value.page != 0 then Some(IntToString(pagination.value.page)) else None
    case RowsKey =>
      if pagination.Some? && pagination.value.limit != 0 then Some(IntToString(pagination.value.limit)) else None
    case IsDoneKey => None
  }

  /** The parameter a value produces under a name: one when there is a value, none otherwise. */
  function Slot(v: Option<string>, k: QueryKey): seq<Param> {
    if v.Some? then [Param(k, v.value)] else []
  }

  lemma SlotMember(v: Option<string>, k: QueryKey, p: Param)
    ensures p in Slot(v, k) <==> p.key == k && v == Some(p.value)
  {
  }

  /** Every parameter name appears after all names of lower rank: the emission order. */
  ghost predicate Ordered(r: seq<Param>) {
    forall i, j :: 0 <= i < j < |r| ==> KeyRank(r[i].key) < KeyRank(r[j].key)
  }

  ghost predicate RankedBelow(r: seq<Param>, n: nat) {
    forall i :: 0 <= i < |r| ==> KeyRank(r[i].key) < n
  }

  /** Appending the slot of a higher-ranked name keeps a parameter list in emission order. */
  lemma AppendSlot(r: seq<Param>, v: Option<string>, k: QueryKey)
    requires Ordered(r) && RankedBelow(r, KeyRank(k))
    ensures Ordered(r + Slot(v, k)) && RankedBelow(r + Slot(v, k), KeyRank(k) + 1)
  {
  }

  /** The parameters of `todoApi.getAll`, one slot per name in the order the request appends them. */
  function TodoQuery(filters: Option<Filters>, pagination: Option<PaginationParams>): seq<Param> {
    Slot(TodoSent(filters, pagination, FiltersKey), FiltersKey)
    + Slot(TodoSent(filters, pagination, OrderRuleKey), OrderRuleKey)
    + Slot(TodoSent(filters, pagination, OrderKeyKey), OrderKeyKey)
    + Slot(TodoSent(filters, pagination, PageKey), PageKey)
    + Slot(TodoSent(filters, pagination, RowsKey), RowsKey)
  }

  /**
   * `todoApi.getAll` sends exactly the values `TodoSent` gives, each name at
   * most once, in the order filters, orderRule, orderKey, page, rows.
   */
  lemma TodoQueryParams(filters: Option<Filters>, pagination: Option<PaginationParams>)
    ensures forall p: Param :: p in TodoQuery(filters, pagination) <==> TodoSent(filters, pagination, p.key) == Some(p.value)
    ensures Ordered(TodoQuery(filters, pagination))
  {
    forall p: Param ensures p in TodoQuery(filters, pagination) <==> TodoSent(filters, pagination, p.key) == Some(p.value) {
      TodoQueryMember(filters, pagination, p);
    }
    TodoQueryOrdered(filters, pagination);
  }

  lemma TodoQueryMember(filters: Option<Filters>, pagination: Option<PaginationParams>, p: Param)
    ensures p in TodoQuery(filters, pagination) <==> TodoSent(filters, pagination, p.key) == Some(p.value)
  {
    SlotMember(TodoSent(filters, pagination, FiltersKey), FiltersKey, p);
    SlotMember(TodoSent(filters, pagination, OrderRuleKey), OrderRuleKey, p);
    SlotMember(TodoSent(filters, pagination, OrderKeyKey), OrderKeyKey, p);
    SlotMember(TodoSent(filters, pagination, PageKey), PageKey, p);
    SlotMember(TodoSent(filters, pagination, RowsKey), RowsKey, p);
    assert p.key == IsDoneKey ==> TodoSent(filters, pagination, p.key) == None;
  }

  lemma TodoQueryOrdered(filters: Option<Filters>, pagination: Option<PaginationParams>)
    ensures Ordered(TodoQuery(filters, pagination))
  {
    FiveSlotsOrdered(
      TodoSent(filters, pagination, FiltersKey), TodoSent(filters, pagination, OrderRuleKey),
      TodoSent(filters, pagination, OrderKeyKey), TodoSent(filters, pagination, PageKey),
      TodoSent(filters, pagination, RowsKey));
  }

  /** Two slots of increasing rank, appended in that order, are in emission order. */
  lemma SlotsOrdered2(v1: Option<string>, k1: QueryKey, v2: Option<string>, k2: QueryKey)
    requires KeyRank(k1) < KeyRank(k2)
    ensures Ordered(Slot(v1, k1) + Slot(v2, k2)) && RankedBelow(Slot(v1, k1) + Slot(v2, k2), KeyRank(k2) + 1)
  {
    AppendSlot([], v1, k1);
    assert [] + Slot(v1, k1) == Slot(v1, k1);
    AppendSlot(Slot(v1, k1), v2, k2);
  }

  lemma SlotsOrdered3(v1: Option<string>, k1: QueryKey, v2: Option<string>, k2: QueryKey, v3: Option<string>, k3: QueryKey)
    requires KeyRank(k1) < KeyRank(k2) < KeyRank(k3)
    ensures var r := Slot(v1, k1) + Slot(v2, k2) + Slot(v3, k3);
      Ordered(r) && RankedBelow(r, KeyRank(k3) + 1)
  {
    SlotsOrdered2(v1, k1, v2, k2);
    AppendSlot(Slot(v1, k1) + Slot(v2, k2), v3, k3);
  }

  lemma SlotsOrdered4(v1: Option<string>, k1: QueryKey, v2: Option<string>, k2: QueryKey, v3: Option<string>, k3: QueryKey,
                      v4: Option<string>, k4: QueryKey)
    requires KeyRank(k1) < KeyRank(k2) < KeyRank(k3) < KeyRank(k4)
    ensures var r := Slot(v1, k1) + Slot(v2, k2) + Slot(v3, k3) + Slot(v4, k4);
      Ordered(r) && RankedBelow(r, KeyRank(k4) + 1)
  {
    SlotsOrdered3(v1, k1, v2, k2, v3, k3);
    AppendSlot(Slot(v1, k1) + Slot(v2, k2) + Slot(v3, k3), v4, k4);
  }

  /** Slots for filters, orderRule, orderKey, page and rows, appended in that order, are in emission order. */
  lemma FiveSlotsOrdered(v1: Option<string>, v2: Option<string>, v3: Option<string>, v4: Option<string>, v5: Option<string>)
    ensures Ordered(Slot(v1, FiltersKey) + Slot(v2, OrderRuleKey) + Slot(v3, OrderKeyKey) + Slot(v4, PageKey) + Slot(v5, RowsKey))
  {
    SlotsOrdered4(v1, FiltersKey, v2, OrderRuleKey, v3, OrderKeyKey, v4, PageKey);
    AppendSlot(Slot(v1, FiltersKey) + Slot(v2, OrderRuleKey) + Slot(v3, OrderKeyKey) + Slot(v4, PageKey), v5, RowsKey);
  }

  /** `todoApi.getAll` builds its parameters by appending to a `URLSearchParams` buffer. */
  method BuildTodoQuery(filters: Option<Filters>, pagination: Option<PaginationParams>) returns (params: seq<Param>)
    ensures params == TodoQuery(filters, pagination)
  {
    params := [];
    var cleaned := CleanEntries(if filters.Some? then FilterEntries(filters.value) else []);
    if |cleaned| > 0 {
      params := params + [Param(FiltersKey, JsonObject(cleaned))];
    }
    ghost var p1 := params;
    assert p1 == Slot(TodoSent(filters, pagination, FiltersKey), FiltersKey);
    if pagination.Some? {
      params := params + [Param(OrderRuleKey, OrderRuleText(pagination.value.orderRule))];
    }
    ghost var p2 := params;
    assert p2 == p1 + Slot(TodoSent(filters, pagination, OrderRuleKey), OrderRuleKey);
    if pagination.Some? && pagination.value.orderKey.Some? {
      params := params + [Param(OrderKeyKey, OrderKeyText(pagination.value.orderKey.value))];
    }
    ghost var p3 := params;
    assert p3 == p2 + Slot(TodoSent(filters, pagination, OrderKeyKey), OrderKeyKey);
    if pagination.Some? && pagination.value.page != 0 {
      params := params + [Param(PageKey, IntToString(pagination.value.page))];
    }
    ghost var p4 := params;
    assert p4 == p3 + Slot(TodoSent(filters, pagination, PageKey), PageKey);
    if pagination.Some? && pagination.value.limit != 0 {
      params := params + [Param(RowsKey, IntToString(pagination.value.limit))];
    }
    assert params == p4 + Slot(TodoSent(filters, pagination, RowsKey), RowsKey);
  }

  /**
   * The filter parameter: `{isDone: undefined}` (like no filters at all)
   * sends no `filters` key ...
   */
  lemma FilterParamAbsent(pagination: Option<PaginationParams>)
    ensures TodoSent(Some(Filters(None)), pagination, FiltersKey) == None
    ensures TodoSent(None, pagination, FiltersKey) == None
  {
    assert CleanedFilters(Some(Filters(None))) == [];
  }

  /** ... while `true` and `false` are both kept and sent as one-key JSON. */
  lemma FilterParamSent(pagination: Option<PaginationParams>, b: bool)
    ensures TodoSent(Some(Filters(Some(b))), pagination, FiltersKey)
         == Some(if b then "{\"isDone\":true}" else "{\"isDone\":false}")
  {
    var t := [Entry("isDone", JBool(b))];
    assert CleanedFilters(Some(Filters(Some(b)))) == t by {
      assert FilterEntries(Filters(Some(b))) == t;
      assert t[1..] == [];
    }
    IsDoneJson(b);
  }

  /** The JSON text of a one-key `isDone` object. */
  lemma IsDoneJson(b: bool)
    ensures JsonObject([Entry("isDone", JBool(b))]) == if b then "{\"isDone\":true}" else "{\"isDone\":false}"
  {
    var t := [Entry("isDone", JBool(b))];
    assert JsonMembers(t) == "\"isDone\":" + JsonValue(JBool(b)) by {
      assert t[1..] == [];
    }
  }

  /**
   * The page size travels under the name `rows` (no parameter is ever named
   * `limit`), and a falsy page or page size is left out.
   */
  lemma PaginationParamNames(filters: Option<Filters>, g: PaginationParams)
    ensures g.limit != 0 ==> TodoSent(filters, Some(g), RowsKey) == Some(IntToString(g.limit))
    ensures g.limit == 0 ==> TodoSent(filters, Some(g), RowsKey) == None
    ensures g.page == 0 ==> TodoSent(filters, Some(g), PageKey) == None
    ensures forall k: QueryKey :: KeyName(k) != "limit"
  {
    forall k: QueryKey ensures KeyName(k) != "limit" {
      match k
      case FiltersKey => assert KeyName(k)[0] != "limit"[0];
      case OrderRuleKey => assert KeyName(k)[0] != "limit"[0];
      case OrderKeyKey => assert KeyName(k)[0] != "limit"[0];
      case PageKey => assert KeyName(k)[0] != "limit"[0];
      case RowsKey => assert KeyName(k)[0] != "limit"[0];
      case IsDoneKey => assert KeyName(k)[0] != "limit"[0];
    }
  }

  /**
   * What `adminApi.getAllTodos` sends: `isDone` as `"true"` or `"false"`
   * when it is a boolean, `page` and `rows` when truthy, and no ordering
   * parameters at all.
   */
  function AdminSent(filters: Option<Filters>, pagination: Option<PaginationParams>, k: QueryKey): Option<string> {
    match k
    case IsDoneKey =>
      if filters.Some? && filters.value.isDone.Some?
      then Some(if filters.value.isDone.value then "true" else "false") else None
    case PageKey =>
      if pagination.Some? && pagination.value.page != 0 then Some(IntToString(pagination.value.page)) else None
    case RowsKey =>
      if pagination.Some? && pagination.value.limit != 0 then Some(IntToString(pagination.value.limit)) else None
    case _ => None
  }

  /** The parameters of `adminApi.getAllTodos`, in the order isDone, page, rows. */
  function AdminQuery(filters: Option<Filters>, pagination: Option<PaginationParams>): seq<Param> {
    Slot(AdminSent(filters, pagination, IsDoneKey), IsDoneKey)
    + Slot(AdminSent(filters, pagination, PageKey), PageKey)
    + Slot(AdminSent(filters, pagination, RowsKey), RowsKey)
  }

  /** `adminApi.getAllTodos` sends exactly the values `AdminSent` gives, in emission order. */
  lemma AdminQueryParams(filters: Option<Filters>, pagination: Option<PaginationParams>)
    ensures forall p: Param :: p in AdminQuery(filters, pagination) <==> AdminSent(filters, pagination, p.key) == Some(p.value)
    ensures Ordered(AdminQuery(filters, pagination))
  {
    forall p: Param ensures p in AdminQuery(filters, pagination) <==> AdminSent(filters, pagination, p.key) == Some(p.value) {
      SlotMember(AdminSent(filters, pagination, IsDoneKey), IsDoneKey, p);
      SlotMember(AdminSent(filters, pagination, PageKey), PageKey, p);
      SlotMember(AdminSent(filters, pagination, RowsKey), RowsKey, p);
    }
    SlotsOrdered3(
      AdminSent(filters, pagination, IsDoneKey), IsDoneKey,
      AdminSent(filters, pagination, PageKey), PageKey,
      AdminSent(filters, pagination, RowsKey), RowsKey);
  }

  /** The admin request never carries `orderRule` or `orderKey`, whatever the pagination says. */
  lemma AdminQueryHasNoOrdering(filters: Option<Filters>, pagination: Option<PaginationParams>)
    ensures forall p :: p in AdminQuery(filters, pagination) ==> p.key != OrderRuleKey && p.key != OrderKeyKey
  {
  }

  /** `adminApi.getAllTodos` appends to its `URLSearchParams` buffer in the same way. */
  method BuildAdminQuery(filters: Option<Filters>, pagination: Option<PaginationParams>) returns (params: seq<Param>)
    ensures params == AdminQuery(filters, pagination)
  {
    params := [];
    if filters.Some? && filters.value.isDone.Some? {
      params := params + [Param(IsDoneKey, if filters.value.isDone.value then "true" else "false")];
    }
    ghost var p1 := params;
    assert p1 == Slot(AdminSent(filters, pagination, IsDoneKey), IsDoneKey);
    if pagination.Some? && pagination.value.page != 0 {
      params := params + [Param(PageKey, IntToString(pagination.value.page))];
    }
    ghost var p2 := params;
    assert p2 == p1 + Slot(AdminSent(filters, pagination, PageKey), PageKey);
    if pagination.Some? && pagination.value.limit != 0 {
      params := params + [Param(RowsKey, IntToString(pagination.value.limit))];
    }
    assert params == p2 + Slot(AdminSent(filters, pagination, RowsKey), RowsKey);
  }
}
