/**
 * Startup reconciliation (`AuthProvider.verifyAuth`): the persisted token is
 * checked with the server once, and the session store is re-affirmed or
 * cleared; children render only after that attempt.
 */
module AuthProvider {
  import opened Wrappers
  import opened TodoTypes

  /**
   * The session store's user and token with its two operations. The store
   * itself is not part of this model: `setAuth` is taken to install both
   * values and `logout` to clear both.
   */
  class SessionStore {
    var user: Option<User>
    var token: Option<string>

    constructor (user: Option<User>, token: Option<string>)
      ensures this.user == user && this.token == token
    {
      this.user := user;
      this.token := token;
    }

    method SetAuth(u: User, t: string)
      modifies this
      ensures user == Some(u) && token == Some(t)
    {
      user := Some(u);
      token := Some(t);
    }

    method Logout()
      modifies this
      ensures user.None? && token.None?
    {
      user := None;
      token := None;
    }
  }

  /** The store call `verifyAuth` ends with. */
  datatype SessionCall = NoCall | SetAuthCall(user: User, token: string) | LogoutCall

  /**
   * The decision: with no persisted token (or an empty one) nothing is
   * called; after a successful verify the stored session is re-affirmed only
   * when it has a user and holds the very token that was verified; every
   * other outcome logs out.
   */
  function Reconcile(persisted: Option<string>, verifyOk: bool, user: Option<User>, token: Option<string>): SessionCall {
    if persisted.None? || persisted.value == "" then NoCall
    else if verifyOk && user.Some? && token == Some(persisted.value) then SetAuthCall(user.value, persisted.value)
    else LogoutCall
  }

  /** Whether the verify request is sent: only for a truthy persisted token. */
  predicate VerifyCalled(persisted: Option<string>) {
    persisted.Some? && persisted.value != ""
  }

  /** The session (user, token) after a call. */
  function AfterCall(c: SessionCall, user: Option<User>, token: Option<string>): (Option<User>, Option<string>) {
    match c
    case NoCall => (user, token)
    case SetAuthCall(u, t) => (Some(u), Some(t))
    case LogoutCall => (None, None)
  }

  /**
   * Reconciliation never installs an identity: the session afterwards is
   * either the one before or empty, and it is kept after a successful
   * verify exactly when it already held a user with the verified token.
   */
  lemma ReconcileOutcome(persisted: Option<string>, verifyOk: bool, user: Option<User>, token: Option<string>)
    ensures var after := AfterCall(Reconcile(persisted, verifyOk, user, token), user, token);
      after == (user, token) || after == (None, None)
    ensures !VerifyCalled(persisted) ==> Reconcile(persisted, verifyOk, user, token) == NoCall
    ensures VerifyCalled(persisted) && !verifyOk ==> Reconcile(persisted, verifyOk, user, token) == LogoutCall
    ensures VerifyCalled(persisted) && verifyOk ==>
      (Reconcile(persisted, verifyOk, user, token).SetAuthCall? <==> user.Some? && token == persisted)
  {
  }

  /** A session that ends non-empty after a verify is one whose token is the persisted, verified one. */
  lemma KeptSessionIsVerified(persisted: Option<string>, verifyOk: bool, user: Option<User>, token: Option<string>)
    requires VerifyCalled(persisted)
    ensures var after := AfterCall(Reconcile(persisted, verifyOk, user, token), user, token);
      after.0.Some? ==> verifyOk && after.1 == persisted
  {
  }

  /** The provider's loading gate. */
  class Provider {
    var isLoading: bool
    const session: SessionStore

    constructor (session: SessionStore)
      ensures isLoading && this.session == session
    {
      isLoading := true;
      this.session := session;
    }

    /** Children render only once loading is over. */
    predicate RendersChildren()
      reads this
    {
      !isLoading
    }

    /**
     * `verifyAuth`, with the persisted token and the verify outcome as
     * inputs; reports whether verify was called and which store call was made.
     */
    method VerifyAuth(persisted: Option<string>, verifyOk: bool) returns (verified: bool, call: SessionCall)
      modifies this, session
      ensures !isLoading && RendersChildren()
      ensures verified == VerifyCalled(persisted)
      ensures call == Reconcile(persisted, verifyOk, old(session.user), old(session.token))
      ensures (session.user, session.token) == AfterCall(call, old(session.user), old(session.token))
    {
      if persisted.None? || persisted.value == "" {
        isLoading := false;
        return false, NoCall;
      }
      verified := true;
      var token := persisted.value;
      if verifyOk {
        if session.user.Some? && session.token == Some(token) {
          call := SetAuthCall(session.user.value, token);
          session.SetAuth(session.user.value, token);
        } else {
          call := LogoutCall;
          session.Logout();
        }
      } else {
        call := LogoutCall;
        session.Logout();
      }
      isLoading := false;
    }
  }
}
