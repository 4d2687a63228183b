/**
 * The registration form (`RegisterForm`): composing the full name from the
 * first- and last-name fields, suffixing the typed mail name with the fixed
 * domain, and what happens when the register request returns.
 */
module RegisterForm {
  import opened Wrappers
  import opened TodoTypes
  import opened Schemas

  /** The characters `String.prototype.trim` removes: ECMAScript white space and line terminators. */
  predicate IsJsWhitespace(c: char) {
    var n := c as int;
    n == 0x09 || n == 0x0A || n == 0x0B || n == 0x0C || n == 0x0D || n == 0x20 || n == 0xA0
    || n == 0x1680 || (0x2000 <= n <= 0x200A) || n == 0x2028 || n == 0x2029 || n == 0x202F
    || n == 0x205F || n == 0x3000 || n == 0xFEFF
  }

  predicate AllWhitespace(s: string) {
    forall i :: 0 <= i < |s| ==> IsJsWhitespace(s[i])
  }

  /** `trimStart`: the suffix that remains after dropping the leading white space. */
  function TrimStart(s: string): (r: string)
    ensures |r| <= |s| && r == s[|s| - |r|..]
    ensures AllWhitespace(s[..|s| - |r|])
    ensures r == [] || !IsJsWhitespace(r[0])
    decreases |s|
  {
    if |s| > 0 && IsJsWhitespace(s[0]) then
      var r := TrimStart(s[1..]);
      assert s[..|s| - |r|] == [s[0]] + s[1..][..|s[1..]| - |r|];
      r
    else s
  }

  /** `trimEnd`: the prefix that remains after dropping the trailing white space. */
  function TrimEnd(s: string): (r: string)
    ensures |r| <= |s| && r == s[..|r|]
    ensures AllWhitespace(s[|r|..])
    ensures r == [] || !IsJsWhitespace(r[|r| - 1])
    decreases |s|
  {
    if |s| > 0 && IsJsWhitespace(s[|s| - 1]) then
      var r := TrimEnd(s[..|s| - 1]);
      assert s[|r|..] == s[..|s| - 1][|r|..] + [s[|s| - 1]];
      r
    else s
  }

  /** `trim`: the trimmed text neither starts nor ends with white space. */
  function Trim(s: string): (r: string)
    ensures |r| <= |s|
    ensures r == [] || (!IsJsWhitespace(r[0]) && !IsJsWhitespace(r[|r| - 1]))
  {
    var t := TrimStart(s);
    var r := TrimEnd(t);
    assert r != [] ==> r[0] == t[0];
    r
  }

  /**
   * What `trim` cuts away is white space only: the result is the slice
   * `s[i..j]` with only white space before `i` and after `j`.
   */
  lemma TrimSlice(s: string) returns (i: nat, j: nat)
    ensures i <= j <= |s| && Trim(s) == s[i..j]
    ensures AllWhitespace(s[..i]) && AllWhitespace(s[j..])
  {
    var t := TrimStart(s);
    var r := TrimEnd(t);
    i := |s| - |t|;
    j := i + |r|;
    assert r == t[..|r|];
    assert s[j..] == t[|r|..];
  }

  /** The full name written into the form: `` `${firstName} ${lastName}`.trim() ``. */
  function FullName(firstName: string, lastName: string): string {
    Trim(firstName + " " + lastName)
  }

  /** Names that are all white space (in particular two empty names) give an empty full name. */
  lemma {:induction false} BlankNamesGiveEmpty(firstName: string, lastName: string)
    requires AllWhitespace(firstName) && AllWhitespace(lastName)
    ensures FullName(firstName, lastName) == ""
  {
    var s := firstName + " " + lastName;
    assert AllWhitespace(s) by {
      forall i | 0 <= i < |s|
        ensures IsJsWhitespace(s[i])
      {
        if i < |firstName| {
          assert s[i] == firstName[i];
        } else if i > |firstName| {
          assert s[i] == lastName[i - |firstName| - 1];
        }
      }
    }
    BlankTrimsToEmpty(s);
  }

  lemma BlankTrimsToEmpty(s: string)
    requires AllWhitespace(s)
    ensures TrimStart(s) == [] && Trim(s) == []
  {
  }

  /** Two empty names fail the register schema's two-character minimum. */
  lemma EmptyNamesFailSchema(password: string)
    ensures FullName("", "") == ""
    ensures Issue("fullName", NameMessage) in RegisterIssues(FullName("", ""), password)
  {
    BlankNamesGiveEmpty("", "");
  }

  /** Names without white space at their edges are joined by exactly one space. */
  lemma PlainNamesJoined(firstName: string, lastName: string)
    requires firstName != [] && !IsJsWhitespace(firstName[0]) && !IsJsWhitespace(firstName[|firstName| - 1])
    requires lastName != [] && !IsJsWhitespace(lastName[0]) && !IsJsWhitespace(lastName[|lastName| - 1])
    ensures FullName(firstName, lastName) == firstName + " " + lastName
  {
    var s := firstName + " " + lastName;
    assert s[0] == firstName[0] && s[|s| - 1] == lastName[|lastName| - 1];
    assert TrimStart(s) == s;
  }

  /** A first name alone (empty last name) loses only the separating space. */
  lemma FirstNameOnly(firstName: string)
    requires firstName != [] && !IsJsWhitespace(firstName[0]) && !IsJsWhitespace(firstName[|firstName| - 1])
    ensures FullName(firstName, "") == firstName
  {
    var s := firstName + " " + "";
    assert s[0] == firstName[0];
    assert TrimStart(s) == s;
    assert s[..|s| - 1] == firstName;
    assert TrimEnd(firstName) == firstName;
  }

  const MailDomain := "@squareteam.com"

  /** The e-mail written into the form: the typed text followed by the fixed domain. */
  function SubmittedEmail(typed: string): (r: string)
    ensures |r| == |typed| + |MailDomain|
    ensures r[..|typed|] == typed
    ensures r[|typed|..] == MailDomain
  {
    typed + MailDomain
  }

  /** Different typed texts give different addresses: the typed text is recovered from the address. */
  lemma SubmittedEmailInjective(a: string, b: string)
    requires SubmittedEmail(a) == SubmittedEmail(b)
    ensures a == b
  {
    assert |a| == |b|;
    assert a == SubmittedEmail(a)[..|a|];
  }

  /**
   * The form's state: the two name fields the component holds, and the
   * values written into the form with `setValue` (`None` until first written).
   */
  datatype FormState = FormState(firstName: string, lastName: string, fullName: Option<string>, email: Option<string>)

  const EmptyForm := FormState("", "", None, None)

  /**
   * A keystroke in the first-name field. The field's own handler stores the
   * new name, then the form's change handler writes the full name from the
   * names of the current render, that is, from the names before this
   * keystroke.
   */
  function FirstNameTyped(f: FormState, s: string): FormState {
    f.(firstName := s, fullName := Some(FullName(f.firstName, f.lastName)))
  }

  function LastNameTyped(f: FormState, s: string): FormState {
    f.(lastName := s, fullName := Some(FullName(f.firstName, f.lastName)))
  }

  /** A keystroke in the mail field: the suffixed address, then the full name from the current names. */
  function EmailTyped(f: FormState, typed: string): FormState {
    f.(email := Some(SubmittedEmail(typed)), fullName := Some(FullName(f.firstName, f.lastName)))
  }

  /** A keystroke in any other field (password, phone, about): only the full name is rewritten. */
  function OtherTyped(f: FormState): FormState {
    f.(fullName := Some(FullName(f.firstName, f.lastName)))
  }

  class Form {
    var state: FormState

    constructor ()
      ensures state == EmptyForm
    {
      state := EmptyForm;
    }

    method TypeFirstName(s: string)
      modifies this
      ensures state == FirstNameTyped(old(state), s)
    {
      var composed := FullName(state.firstName, state.lastName);
      state := state.(firstName := s);
      state := state.(fullName := Some(composed));
    }

    method TypeLastName(s: string)
      modifies this
      ensures state == LastNameTyped(old(state), s)
    {
      var composed := FullName(state.firstName, state.lastName);
      state := state.(lastName := s);
      state := state.(fullName := Some(composed));
    }

    method TypeEmail(typed: string)
      modifies this
      ensures state == EmailTyped(old(state), typed)
    {
      state := state.(email := Some(SubmittedEmail(typed)));
      state := state.(fullName := Some(FullName(state.firstName, state.lastName)));
    }

    method TypeOther()
      modifies this
      ensures state == OtherTyped(old(state))
    {
      state := state.(fullName := Some(FullName(state.firstName, state.lastName)));
    }
  }

  /** Any keystroke outside the name fields brings the full name up to date with both names. */
  lemma LaterKeystrokeCatchesUp(f: FormState, typed: string)
    ensures OtherTyped(f).fullName == Some(FullName(f.firstName, f.lastName))
    ensures EmailTyped(f, typed).fullName == Some(FullName(f.firstName, f.lastName))
    ensures EmailTyped(f, typed).email == Some(typed + "@squareteam.com")
  {
  }

  /**
   * A name change event is one behind: pasting "Ann" into an empty
   * first-name field leaves an empty full name until the next change event
   * elsewhere.
   */
  lemma NameKeystrokeLags()
    ensures FirstNameTyped(EmptyForm, "Ann").fullName == Some("")
    ensures OtherTyped(FirstNameTyped(EmptyForm, "Ann")).fullName == Some("Ann")
  {
    BlankNamesGiveEmpty("", "");
    var s := "Ann";
    assert !IsJsWhitespace(s[0]) && !IsJsWhitespace(s[|s| - 1]);
    FirstNameOnly(s);
  }

  /**
   * A name change as written loses the last change event of the name
   * fields. With the e-mail (and password) entered first and each name
   * pasted in one change event, "Ann" and then "Lee" leave the full name
   * "Ann", which still passes the register schema, so the account is
   * created under "Ann".
   */
  lemma LastNameKeystrokeLost(f: FormState, password: string)
    requires f.firstName == "" && f.lastName == ""
    requires |password| >= 6
    ensures LastNameTyped(FirstNameTyped(f, "Ann"), "Lee").fullName == Some("Ann")
    ensures LastNameTyped(FirstNameTyped(f, "Ann"), "Lee").email == f.email
    ensures RegisterIssues("Ann", password) == []
    ensures FullName("Ann", "Lee") == "Ann" + " " + "Lee"
  {
    PastedNamesLag(f);
    AnnLeeJoined();
    AnnPassesSchema(password);
  }

  lemma AnnPassesSchema(password: string)
    requires |password| >= 6
    ensures RegisterIssues("Ann", password) == []
  {
  }

  lemma PastedNamesLag(f: FormState)
    requires f.firstName == "" && f.lastName == ""
    ensures LastNameTyped(FirstNameTyped(f, "Ann"), "Lee").fullName == Some("Ann")
  {
    var a, b := "Ann", "Lee";
    AnnLeeEdges();
    var f1 := FirstNameTyped(f, a);
    assert f1.firstName == a && f1.lastName == "";
    FirstNameOnly(a);
    assert LastNameTyped(f1, b).fullName == Some(FullName(a, ""));
  }

  /**
   * Typed letter by letter (one change event per letter) after the other
   * fields, the same names leave the full name "Ann Le": the last letter
   * typed is lost.
   */
  lemma LetterByLetterLosesLastLetter(f: FormState)
    requires f.firstName == "" && f.lastName == ""
    ensures var f3 := FirstNameTyped(FirstNameTyped(FirstNameTyped(f, "A"), "An"), "Ann");
      var f6 := LastNameTyped(LastNameTyped(LastNameTyped(f3, "L"), "Le"), "Lee");
      f6.firstName == "Ann" && f6.lastName == "Lee" && f6.fullName == Some("Ann" + " " + "Le")
  {
    var f3 := FirstNameTyped(FirstNameTyped(FirstNameTyped(f, "A"), "An"), "Ann");
    var f5 := LastNameTyped(LastNameTyped(f3, "L"), "Le");
    assert f5.firstName == "Ann" && f5.lastName == "Le";
    assert LastNameTyped(f5, "Lee").fullName == Some(FullName("Ann", "Le"));
    AnnLeeEdges();
    var a, b := "Ann", "Le";
    assert !IsJsWhitespace(b[|b| - 1]);
    PlainNamesJoined(a, b);
  }

  lemma AnnLeeEdges()
    ensures !IsJsWhitespace('A') && !IsJsWhitespace('n') && !IsJsWhitespace('L') && !IsJsWhitespace('e')
  {
  }

  /** The full name is the trimmed join of the names the form holds now. */
  predicate FullNameCurrent(f: FormState) {
    f.fullName == Some(FullName(f.firstName, f.lastName))
  }

  /** The intended first-name change: the full name from the new first name. */
  function FirstNameTypedIntended(f: FormState, s: string): (r: FormState)
    ensures FullNameCurrent(r)
    ensures r.firstName == s && r.lastName == f.lastName && r.email == f.email
  {
    f.(firstName := s, fullName := Some(FullName(s, f.lastName)))
  }

  /** The intended last-name change: the full name from the new last name. */
  function LastNameTypedIntended(f: FormState, s: string): (r: FormState)
    ensures FullNameCurrent(r)
    ensures r.lastName == s && r.firstName == f.firstName && r.email == f.email
  {
    f.(lastName := s, fullName := Some(FullName(f.firstName, s)))
  }

  /** With the intended handlers the same two names reach the form as "Ann Lee". */
  lemma IntendedKeepsLastName()
    ensures LastNameTypedIntended(FirstNameTypedIntended(EmptyForm, "Ann"), "Lee").fullName == Some("Ann" + " " + "Lee")
  {
    var a, b := "Ann", "Lee";
    AnnLeeEdges();
    var f1 := FirstNameTypedIntended(EmptyForm, a);
    assert f1.firstName == a;
    assert LastNameTypedIntended(f1, b).fullName == Some(FullName(a, b));
    AnnLeeJoined();
  }

  lemma AnnLeeJoined()
    ensures FullName("Ann", "Lee") == "Ann" + " " + "Lee"
  {
    AnnLeeEdges();
    PlainNamesJoined("Ann", "Lee");
  }

  /** How the register request ended: with a session, or with an error. */
  datatype RegisterResult =
    | Registered(user: User, token: string)
    /** An HTTP error whose response body may carry a `message`. */
    | HttpFailure(responseMessage: Option<string>)
    /** A non-empty `errors` list, thrown by `unwrap` as a plain error without a response. */
    | EnvelopeFailure(joined: string)

  datatype Toast = SuccessToast(text: string) | ErrorToast(text: string)

  /** What the mutation's callbacks do: the session installed, the page navigated to, the toast shown. */
  datatype Reaction = Reaction(setAuth: Option<(User, string)>, navigateTo: Option<string>, toast: Toast)

  /** `onSuccess` / `onError` of the register mutation. */
  function OnRegisterResult(r: RegisterResult): Reaction {
    match r
    case Registered(u, t) => Reaction(Some((u, t)), Some("/dashboard"), SuccessToast("Account created successfully!"))
    case HttpFailure(m) =>
      Reaction(None, None, ErrorToast(if m.Some? && m.value != "" then m.value else "Registration failed"))
    case EnvelopeFailure(_) => Reaction(None, None, ErrorToast("Registration failed"))
  }

  /**
   * On success the session gets exactly the returned user and token and the
   * dashboard opens; on failure nothing is installed, nothing navigates, and
   * the toast shows the server's message or the fixed fallback.
   */
  lemma RegisterReaction(r: RegisterResult)
    ensures r.Registered? ==>
              OnRegisterResult(r).setAuth == Some((r.user, r.token)) && OnRegisterResult(r).navigateTo == Some("/dashboard")
    ensures !r.Registered? ==> OnRegisterResult(r).setAuth.None? && OnRegisterResult(r).navigateTo.None?
    ensures r.HttpFailure? && r.responseMessage.Some? && r.responseMessage.value != "" ==>
      OnRegisterResult(r).toast == ErrorToast(r.responseMessage.value)
    ensures r.HttpFailure? && (r.responseMessage.None? || r.responseMessage.value == "") ==>
      OnRegisterResult(r).toast == ErrorToast("Registration failed")
    ensures r.EnvelopeFailure? ==> OnRegisterResult(r).toast == ErrorToast("Registration failed")
    ensures r.Registered? <==> OnRegisterResult(r).toast == SuccessToast("Account created successfully!")
  {
  }
}
