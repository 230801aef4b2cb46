/** The session store: who is signed in, whether a sign-in or sign-up call is in
    flight, the mock sign-in and sign-up calls behind it, and the part of the
    state written to local storage. */
module AuthStore {
  import opened Wrappers

  /** A signed-in user. `createdAt` is an ISO timestamp. */
  datatype User = User(id: string, email: string, name: string, avatar: Option<string>, createdAt: string)

  const DemoEmail := "demo@60secads.com"
  const DemoPassword := "demo123"
  const DemoAvatar := "https://images.unsplash.com/photo-1472099645785-5658abf4ff4e?w=150&h=150&fit=crop&crop=face"
  const InvalidCredentials := "Invalid credentials"

  /** The demo account's user, created at `now`. */
  function DemoUser(now: string): User {
    User("1", DemoEmail, "Demo User", Some(DemoAvatar), now)
  }

  /** `mockSignIn`: only the demo account's credentials succeed; anything else is
      rejected with `Invalid credentials`. `now` stands for the clock read. */
  function MockSignIn(email: string, password: string, now: string): (r: Result<User, string>)
    ensures r.Ok? <==> email == DemoEmail && password == DemoPassword
    ensures r.Ok? ==> r.value.email == email && r.value.createdAt == now && r.value.avatar.Some?
    ensures r.Ok? ==> r.value == DemoUser(now) && r.value.id == "1" && r.value.name == "Demo User"
    ensures r.Ok? ==> r.value.avatar == Some(DemoAvatar)
    ensures r.Err? ==> r.error == InvalidCredentials
  {
    if email == DemoEmail && password == DemoPassword then Ok(DemoUser(now))
    else Err(InvalidCredentials)
  }

  /** `mockSignUp`: always succeeds with a user carrying the given name and email
      and no avatar. `randomId` stands for the random id, `now` for the clock. */
  function MockSignUp(name: string, email: string, password: string, randomId: string, now: string): (u: User)
    ensures u.name == name && u.email == email && u.avatar == None
    ensures u.id == randomId && u.createdAt == now
  {
    User(randomId, email, name, None, now)
  }

  /** `Partial<User>`: each field is either given (`Some`) or left alone. */
  datatype UserPatch = UserPatch(
    id: Option<string>, email: Option<string>, name: Option<string>,
    avatar: Option<string>, createdAt: Option<string>)

  const NoChanges := UserPatch(None, None, None, None, None)

  /** `{ ...user, ...updates }`: each given field replaces the user's. */
  function Merge(u: User, p: UserPatch): (r: User)
    ensures r.id == p.id.GetOr(u.id) && r.email == p.email.GetOr(u.email)
    ensures r.name == p.name.GetOr(u.name) && r.createdAt == p.createdAt.GetOr(u.createdAt)
    ensures r.avatar == if p.avatar.Some? then p.avatar else u.avatar
  {
    User(
      if p.id.Some? then p.id.value else u.id,
      if p.email.Some? then p.email.value else u.email,
      if p.name.Some? then p.name.value else u.name,
      if p.avatar.Some? then p.avatar else u.avatar,
      if p.createdAt.Some? then p.createdAt.value else u.createdAt)
  }

  /** An empty patch changes nothing, and applying the same patch twice is
      applying it once. */
  lemma MergeLaws(u: User, p: UserPatch)
    ensures Merge(u, NoChanges) == u
    ensures Merge(Merge(u, p), p) == Merge(u, p)
  {
  }

  /** Patching with `p` and then `q` is patching once with `q` laid over `p`. */
  lemma MergeCompose(u: User, p: UserPatch, q: UserPatch)
    ensures Merge(Merge(u, p), q) == Merge(u, Overlay(p, q))
  {
  }

  /** `{ ...p, ...q }` on two patches. */
  function Overlay(p: UserPatch, q: UserPatch): UserPatch {
    UserPatch(
      if q.id.Some? then q.id else p.id,
      if q.email.Some? then q.email else p.email,
      if q.name.Some? then q.name else p.name,
      if q.avatar.Some? then q.avatar else p.avatar,
      if q.createdAt.Some? then q.createdAt else p.createdAt)
  }

  /** What `persist` writes to local storage under `auth-storage`. */
  datatype Snapshot = Snapshot(user: Option<User>, isAuthenticated: bool)

  /** The store's state. */
  class SessionStore {
    var user: Option<User>
    var isAuthenticated: bool
    var isLoading: bool

    /** The store reports a session exactly when it holds a user. */
    ghost predicate Valid()
      reads this
    {
      isAuthenticated <==> user.Some?
    }

    /** The initial state: nobody signed in, nothing in flight. */
    constructor ()
      ensures Valid()
      ensures user == None && !isAuthenticated && !isLoading
    {
      user := None;
      isAuthenticated := false;
      isLoading := false;
    }

    /** `signIn`: loading on, then either the demo user and a session, or loading
        off with the session untouched and the rejection passed on. */
    method SignIn(email: string, password: string, now: string) returns (outcome: Result<(), string>)
      requires Valid()
      modifies this
      ensures Valid()
      ensures !isLoading
      ensures outcome.Ok? <==> email == DemoEmail && password == DemoPassword
      ensures outcome.Ok? ==> user == Some(DemoUser(now)) && isAuthenticated
      ensures outcome.Err? ==> outcome.error == InvalidCredentials
      ensures outcome.Err? ==> user == old(user) && isAuthenticated == old(isAuthenticated)
    {
      isLoading := true;
      var r := MockSignIn(email, password, now);
      if r.Ok? {
        user, isAuthenticated, isLoading := Some(r.value), true, false;
        outcome := Ok(());
      } else {
        isLoading := false;
        outcome := Err(r.error);
      }
    }

    /** `signUp`: the mock call never rejects, so the new user is always signed
        in. */
    method SignUp(name: string, email: string, password: string, randomId: string, now: string)
      modifies this
      ensures Valid()
      ensures user.Some? && user.value.name == name && user.value.email == email
      ensures user == Some(MockSignUp(name, email, password, randomId, now))
      ensures isAuthenticated && !isLoading
    {
      isLoading := true;
      var u := MockSignUp(name, email, password, randomId, now);
      user, isAuthenticated, isLoading := Some(u), true, false;
    }

    /** `signOut`: the session is cleared; `isLoading` is left as it was. */
    method SignOut()
      modifies this
      ensures Valid()
      ensures user == None && !isAuthenticated
      ensures isLoading == old(isLoading)
    {
      user, isAuthenticated := None, false;
    }

    /** `updateUser`: merges the patch into the current user; without a user
        nothing happens. */
    method UpdateUser(updates: UserPatch)
      requires Valid()
      modifies this
      ensures Valid()
      ensures user == if old(user).Some? then Some(Merge(old(user).value, updates)) else None
      ensures isAuthenticated == old(isAuthenticated) && isLoading == old(isLoading)
    {
      var current := user;
      if current.Some? {
        user := Some(Merge(current.value, updates));
      }
    }

    /** `partialize`: the persisted part of the state. */
    function Partialize(): (s: Snapshot)
      reads this
      ensures s.user == user && s.isAuthenticated == isAuthenticated
    {
      Snapshot(user, isAuthenticated)
    }
  }

  /** Whatever `isLoading` holds, the snapshot is the same, and the snapshot of a
      valid store keeps the session invariant. */
  lemma PartializeIgnoresLoading(a: SessionStore, b: SessionStore)
    requires a.user == b.user && a.isAuthenticated == b.isAuthenticated
    ensures a.Partialize() == b.Partialize()
  {
  }

  lemma SnapshotKeepsInvariant(a: SessionStore)
    requires a.Valid()
    ensures a.Partialize().isAuthenticated <==> a.Partialize().user.Some?
  {
  }
}
