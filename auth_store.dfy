/**
 * The client's authentication store (src/stores/useAuthStore.ts): the
 * signed-in user, the token, a loading flag and `isAuthenticated`, together
 * with the browser's `localStorage` entry `auth_token` that the actions write
 * and remove. Only the token, the user and `isAuthenticated` are persisted.
 */
module AuthStore {
  import opened Wrappers
  import opened Http
  import opened Domain
  import opened ClientApi
  import AuthRoutes

  /** The fields of a `Partial<User>`; each present one overrides. */
  datatype UserPatch = UserPatch(
    id: Option<Id>,
    email: Option<string>,
    name: Option<string>,
    plan: Option<Plan>,
    strategiesUsed: Option<int>,
    maxStrategies: Option<int>,
    createdAt: Option<Timestamp>,
    updatedAt: Option<Timestamp>)

  /** `{ ...user, ...updates }`. */
  function Patched(user: User, updates: UserPatch): (u: User)
    ensures updates.id.Some? ==> u.id == updates.id.value
    ensures updates.id.None? ==> u.id == user.id
    ensures updates.email.Some? ==> u.email == updates.email.value
    ensures updates.email.None? ==> u.email == user.email
    ensures updates.name.Some? ==> u.name == updates.name.value
    ensures updates.name.None? ==> u.name == user.name
    ensures updates.plan.Some? ==> u.plan == updates.plan.value
    ensures updates.plan.None? ==> u.plan == user.plan
    ensures updates.strategiesUsed.Some? ==> u.strategiesUsed == updates.strategiesUsed.value
    ensures updates.strategiesUsed.None? ==> u.strategiesUsed == user.strategiesUsed
    ensures updates.maxStrategies.Some? ==> u.maxStrategies == updates.maxStrategies.value
    ensures updates.maxStrategies.None? ==> u.maxStrategies == user.maxStrategies
    ensures updates.createdAt.Some? ==> u.createdAt == updates.createdAt.value
    ensures updates.createdAt.None? ==> u.createdAt == user.createdAt
    ensures updates.updatedAt.Some? ==> u.updatedAt == updates.updatedAt.value
    ensures updates.updatedAt.None? ==> u.updatedAt == user.updatedAt
  {
    User(
      updates.id.GetOr(user.id),
      updates.email.GetOr(user.email),
      updates.name.GetOr(user.name),
      updates.plan.GetOr(user.plan),
      updates.strategiesUsed.GetOr(user.strategiesUsed),
      updates.maxStrategies.GetOr(user.maxStrategies),
      updates.createdAt.GetOr(user.createdAt),
      updates.updatedAt.GetOr(user.updatedAt))
  }

  const NoUpdates := UserPatch(None, None, None, None, None, None, None, None)

  /** An empty update keeps the user. */
  lemma PatchWithoutUpdates(user: User)
    ensures Patched(user, NoUpdates) == user
  {
  }

  /** Applying the same update twice is applying it once. */
  lemma PatchIdempotent(user: User, updates: UserPatch)
    ensures Patched(Patched(user, updates), updates) == Patched(user, updates)
  {
  }

  /** What `partialize` keeps of the state. */
  datatype PersistedAuth = PersistedAuth(token: Option<string>, user: Option<User>, isAuthenticated: bool)

  class Store {
    var user: Option<User>
    var token: Option<string>
    var isLoading: bool
    var isAuthenticated: bool
    /** `localStorage.getItem('auth_token')`. */
    var storedToken: Option<string>

    /** The store is signed in exactly when it holds a token. */
    ghost predicate Valid()
      reads this
    {
      isAuthenticated <==> token.Some?
    }

    /** A fresh store; the browser may already hold a token from an earlier visit. */
    constructor(storedToken: Option<string>)
      ensures Valid()
      ensures user == None && token == None && !isLoading && !isAuthenticated
      ensures this.storedToken == storedToken
    {
      user, token, isLoading, isAuthenticated := None, None, false, false;
      this.storedToken := storedToken;
    }

    /** `partialize`: the persisted part, which keeps the signed-in invariant. */
    function Persisted(): (p: PersistedAuth)
      reads this
      requires Valid()
      ensures p.isAuthenticated <==> p.token.Some?
      ensures p.token == token && p.user == user
    {
      PersistedAuth(token, user, isAuthenticated)
    }

    /** What `login` and `register` share once the call settles. */
    method SignIn(result: ApiResult<AuthRoutes.Session>) returns (outcome: Outcome<()>)
      requires Valid()
      modifies this
      ensures Valid()
      ensures Delivered(result) ==>
                var session := result.data.value;
                outcome == Resolved(())
                && storedToken == Some(session.token) && token == Some(session.token)
                && user == Some(session.user) && isAuthenticated && !isLoading
      ensures result.Answer? && !Delivered(result) ==>
                outcome == Resolved(())
                && user == old(user) && token == old(token) && isAuthenticated == old(isAuthenticated)
                && storedToken == old(storedToken) && isLoading
      ensures result.Failure? ==>
                outcome == Rejected(ErrorText(result.message, ""))
                && user == old(user) && token == old(token) && isAuthenticated == old(isAuthenticated)
                && storedToken == old(storedToken) && !isLoading
    {
      isLoading := true;
      match result
      case Failure(message) =>
        isLoading := false;
        outcome := Rejected(ErrorText(message, ""));
      case Answer(success, data) =>
        if success && data.Some? {
          storedToken := Some(data.value.token);
          user, token, isAuthenticated, isLoading := Some(data.value.user), Some(data.value.token), true, false;
        }
        outcome := Resolved(());
    }

    /** `login(email, password)`, given how the call settles. */
    method Login(result: ApiResult<AuthRoutes.Session>) returns (outcome: Outcome<()>)
      requires Valid()
      modifies this
      ensures Valid()
      ensures Delivered(result) ==>
                outcome == Resolved(()) && storedToken == Some(result.data.value.token)
                && token == Some(result.data.value.token) && user == Some(result.data.value.user)
                && isAuthenticated && !isLoading
      ensures !Delivered(result) ==>
                user == old(user) && token == old(token) && isAuthenticated == old(isAuthenticated)
                && storedToken == old(storedToken) && (isLoading <==> result.Answer?)
                && (outcome.Rejected? <==> result.Failure?)
    {
      outcome := SignIn(result);
    }

    /** `register(email, password, name)`, given how the call settles. */
    method Register(result: ApiResult<AuthRoutes.Session>) returns (outcome: Outcome<()>)
      requires Valid()
      modifies this
      ensures Valid()
      ensures Delivered(result) ==>
                outcome == Resolved(()) && storedToken == Some(result.data.value.token)
                && token == Some(result.data.value.token) && user == Some(result.data.value.user)
                && isAuthenticated && !isLoading
      ensures !Delivered(result) ==>
                user == old(user) && token == old(token) && isAuthenticated == old(isAuthenticated)
                && storedToken == old(storedToken) && (isLoading <==> result.Answer?)
                && (outcome.Rejected? <==> result.Failure?)
    {
      outcome := SignIn(result);
    }

    /** `logout`: forgets the user and the token, here and in the browser. */
    method Logout()
      requires Valid()
      modifies this
      ensures Valid()
      ensures user == None && token == None && !isAuthenticated && storedToken == None
      ensures isLoading == old(isLoading)
    {
      storedToken := None;
      user, token, isAuthenticated := None, None, false;
    }

    /** `loadProfile`: without a stored token nothing happens; a failed call
        signs the store out and forgets the stored token. */
    method LoadProfile(result: ApiResult<User>)
      requires Valid()
      modifies this
      ensures Valid()
      ensures Missing(old(storedToken)) ==>
                user == old(user) && token == old(token) && isAuthenticated == old(isAuthenticated)
                && isLoading == old(isLoading) && storedToken == old(storedToken)
      ensures !Missing(old(storedToken)) && Delivered(result) ==>
                user == result.data && token == old(storedToken) && isAuthenticated && !isLoading
                && storedToken == old(storedToken)
      ensures !Missing(old(storedToken)) && result.Answer? && !Delivered(result) ==>
                user == old(user) && token == old(token) && isAuthenticated == old(isAuthenticated)
                && isLoading && storedToken == old(storedToken)
      ensures !Missing(old(storedToken)) && result.Failure? ==>
                user == None && token == None && !isAuthenticated && !isLoading && storedToken == None
    {
      if Missing(storedToken) {
        return;
      }
      isLoading := true;
      match result
      case Failure(_) =>
        storedToken := None;
        user, token, isAuthenticated, isLoading := None, None, false, false;
      case Answer(success, data) =>
        if success && data.Some? {
          user, token, isAuthenticated, isLoading := data, storedToken, true, false;
        }
    }

    /** `updateUser`: merges the updates into the user, if there is one. */
    method UpdateUser(updates: UserPatch)
      requires Valid()
      modifies this
      ensures Valid()
      ensures user == if old(user).Some? then Some(Patched(old(user).value, updates)) else None
      ensures token == old(token) && isAuthenticated == old(isAuthenticated)
      ensures isLoading == old(isLoading) && storedToken == old(storedToken)
    {
      if user.Some? {
        user := Some(Patched(user.value, updates));
      }
    }
  }
}
