/**
 * The length and enum rules of the validation schemas (`loginSchema`,
 * `registerSchema`, `todoSchema`, `todoFiltersSchema`). The e-mail format
 * rule is not part of this model.
 */
module Schemas {
  import opened Wrappers
  import opened TodoTypes
  import opened StatusSelect

  const PasswordMessage := "Password must be at least 6 characters"
  const NameMessage := "Name must be at least 2 characters"
  const ItemMessage := "Item is required"

  /** One failed rule: the field it is about and its fixed message. */
  datatype Issue = Issue(field: string, message: string)

  /** `z.string().min(n, message)` on one field: no issue, or its one issue. */
  function MinLength(field: string, value: string, n: nat, message: string): seq<Issue> {
    if |value| >= n then [] else [Issue(field, message)]
  }

  /** The issues `loginSchema` reports for a password. */
  function LoginIssues(password: string): (r: seq<Issue>)
    ensures r == [] <==> |password| >= 6
    ensures r != [] ==> r == [Issue("password", PasswordMessage)]
  {
    MinLength("password", password, 6, PasswordMessage)
  }

  /** The issues `registerSchema` reports, in field order: full name, then password. */
  function RegisterIssues(fullName: string, password: string): (r: seq<Issue>)
    ensures r == [] <==> |fullName| >= 2 && |password| >= 6
    ensures Issue("fullName", NameMessage) in r <==> |fullName| < 2
    ensures Issue("password", PasswordMessage) in r <==> |password| < 6
    ensures |r| <= 2
  {
    MinLength("fullName", fullName, 2, NameMessage) + MinLength("password", password, 6, PasswordMessage)
  }

  /** The issues `todoSchema` reports for an item text. */
  function TodoIssues(item: string): (r: seq<Issue>)
    ensures r == [] <==> |item| >= 1
    ensures r != [] ==> r == [Issue("item", ItemMessage)]
  {
    MinLength("item", item, 1, ItemMessage)
  }

  const StatusValues: set<string> := {"all", "completed", "pending"}

  /** `todoFiltersSchema`: every field is optional; a present status must be one of three values. */
  predicate FiltersValid(status: Option<string>, search: Option<string>, userId: Option<string>) {
    status.None? || status.value in StatusValues
  }

  /** The filter schema accepts an absent status and exactly the three named values. */
  lemma FiltersValidMeaning(status: string, search: Option<string>, userId: Option<string>)
    ensures FiltersValid(None, search, userId)
    ensures FiltersValid(Some(status), search, userId) <==> status == "all" || status == "completed" || status == "pending"
  {
  }

  /**
   * The filter schema's status enum is the status select's: every value the
   * select shows passes, and a present status passes exactly when selecting
   * it changes the filters.
   */
  lemma FiltersSchemaMatchesStatusSelect(f: Filters, v: string, search: Option<string>, userId: Option<string>)
    ensures FiltersValid(Some(StatusValue(f)), search, userId)
    ensures FiltersValid(Some(v), search, userId) <==> StatusPatch(v).Some?
  {
    StatusPatchMeaning(v);
  }

  /** Each failing rule carries its own message; no two rules share one. */
  lemma MessagesDistinct()
    ensures PasswordMessage != NameMessage && NameMessage != ItemMessage && PasswordMessage != ItemMessage
  {
    assert PasswordMessage[0] != NameMessage[0] && NameMessage[0] != ItemMessage[0] && PasswordMessage[0] != ItemMessage[0];
  }
}
