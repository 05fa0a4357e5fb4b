/**
 * The session store (`useAuth`): the signed-in user, a `loading` flag, an
 * `error` slot and the run-once bootstrap that reads the current session
 * and subscribes to session-change notifications.
 */
module Auth {
  import opened Remote

  /** The identity the auth service reports. */
  datatype AuthUser = AuthUser(id: string, email: string)

  /** A call issued to the auth service. */
  datatype AuthRequest =
    | GetSessionRequest
    | SignUpRequest(email: string, password: string)
    | SignInRequest(email: string, password: string)
    | SignOutRequest

  class SessionStore {
    var user: Option<AuthUser>
    var loading: bool
    var error: Option<ErrorInfo>
    /** The bootstrap guard. */
    var initialized: bool
    /** Live session-change subscriptions. */
    ghost var subscriptions: nat
    /** The auth-service calls issued so far, oldest first. */
    ghost var requests: seq<AuthRequest>

    /** Exactly one subscription is live once bootstrapped, none before. */
    ghost predicate Valid()
      reads this
    {
      subscriptions == if initialized then 1 else 0
    }

    /** The module-level state before the bootstrap runs. */
    constructor ()
      ensures Valid()
      ensures user == None && !loading && error == None && !initialized && requests == []
    {
      user, loading, error, initialized := None, false, None, false;
      subscriptions, requests := 0, [];
    }

    /** `isAuthenticated`, derived from `user` on every read. */
    predicate IsAuthenticated()
      reads this
    {
      user.Some?
    }

    /**
     * `initSession`: the first call reads the session (its data, null on an
     * error, becomes `user`) and subscribes; every later call does nothing.
     */
    method InitSession(session: Reply<AuthUser>)
      requires Valid()
      modifies this`initialized, this`user, this`subscriptions, this`requests
      ensures Valid() && initialized
      ensures old(initialized) ==>
        user == old(user) && requests == old(requests) && subscriptions == old(subscriptions)
      ensures !old(initialized) ==>
        user == session.data && requests == old(requests) + [GetSessionRequest]
    {
      if initialized {
        return;
      }
      initialized := true;
      requests := requests + [GetSessionRequest];
      user := session.data;
      subscriptions := subscriptions + 1;
    }

    /** A session-change notification overwrites `user`, possibly with null. */
    method OnSessionChange(authUser: Option<AuthUser>)
      requires subscriptions > 0
      modifies this`user
      ensures user == authUser
      ensures IsAuthenticated() <==> authUser.Some?
    {
      user := authUser;
    }

    /** The hot-reload teardown: unsubscribe and allow the bootstrap to run again. */
    method Dispose()
      requires Valid() && initialized
      modifies this`initialized, this`subscriptions
      ensures Valid() && !initialized
    {
      subscriptions := subscriptions - 1;
      initialized := false;
    }

    /** `signUp`: on success the returned identity becomes `user`; on error `user` is kept. */
    method SignUp(email: string, password: string, reply: Reply<AuthUser>) returns (ok: bool)
      modifies this`user, this`loading, this`error, this`requests
      ensures requests == old(requests) + [SignUpRequest(email, password)]
      ensures !loading
      ensures reply.error.Some? ==> !ok && error == reply.error && user == old(user)
      ensures reply.error.None? ==> ok && error == None && user == reply.data
    {
      loading := true;
      error := None;
      requests := requests + [SignUpRequest(email, password)];
      loading := false;
      if reply.error.Some? {
        error := reply.error;
        return false;
      }
      user := reply.data;
      return true;
    }

    /** `signIn`: the same contract as `signUp`, against the sign-in call. */
    method SignIn(email: string, password: string, reply: Reply<AuthUser>) returns (ok: bool)
      modifies this`user, this`loading, this`error, this`requests
      ensures requests == old(requests) + [SignInRequest(email, password)]
      ensures !loading
      ensures reply.error.Some? ==> !ok && error == reply.error && user == old(user)
      ensures reply.error.None? ==> ok && error == None && user == reply.data
    {
      loading := true;
      error := None;
      requests := requests + [SignInRequest(email, password)];
      loading := false;
      if reply.error.Some? {
        error := reply.error;
        return false;
      }
      user := reply.data;
      return true;
    }

    /** `signOut`: on success nobody is signed in, whoever was; on error `user` is kept. */
    method SignOut(reply: Reply<()>)
      modifies this`user, this`loading, this`error, this`requests
      ensures requests == old(requests) + [SignOutRequest]
      ensures !loading
      ensures reply.error.Some? ==> error == reply.error && user == old(user)
      ensures reply.error.None? ==> error == None && user == None && !IsAuthenticated()
    {
      loading := true;
      error := None;
      requests := requests + [SignOutRequest];
      loading := false;
      if reply.error.Some? {
        error := reply.error;
        return;
      }
      user := None;
    }

    /** `clearError`: only the error slot changes. */
    method ClearError()
      modifies this`error
      ensures error == None
    {
      error := None;
    }
  }
}
