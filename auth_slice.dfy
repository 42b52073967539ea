/** The mock authentication store (store/slices/authSlice.ts): whether someone
    is signed in, who it is, and the three case reducers `login`, `logout` and
    `updateUser`. The exported reducer is modelled as the pure function
    `Reduce`; the store whose draft the case reducers assign is the class
    `AuthStore`, whose methods are proved against `Reduce`. */
module AuthSlice {

  /** A value that may be missing (`null` / `undefined`). */
  datatype Option<T> = None | Some(value: T)

  /** The role union `'admin' | 'user'`. */
  datatype Role = AdminRole | UserRole

  /** The text the role union carries. */
  function RoleName(r: Role): (s: string)
    ensures s == "admin" <==> r == AdminRole
    ensures s == "user" <==> r == UserRole
  {
    match r
    case AdminRole => "admin"
    case UserRole => "user"
  }

  /** The `User` record; `avatar` is optional. */
  datatype User = User(id: string, name: string, email: string, role: Role, avatar: Option<string>)

  /** The `AuthState` record. */
  datatype AuthState = AuthState(isAuthenticated: bool, user: Option<User>)

  /** One key of a `Partial<User>` payload: left out, or present with a value.
      Presence is what the object spread looks at, so a present key whose value
      is `undefined` still overwrites (for `avatar`, `Present(None)`). */
  datatype Key<T> = Absent | Present(value: T)

  /** A `Partial<User>` payload: every key of `User`, each optional. */
  datatype UserPatch = UserPatch(
    id: Key<string>, name: Key<string>, email: Key<string>,
    role: Key<Role>, avatar: Key<Option<string>>)

  /** The payload `{}`. */
  const EmptyPatch := UserPatch(Absent, Absent, Absent, Absent, Absent)

  /** The keys of `User`, and the values they hold, so that a merge can be
      specified key by key. */
  datatype UserKey = IdKey | NameKey | EmailKey | RoleKey | AvatarKey
  datatype FieldValue = Text(text: string) | RoleValue(role: Role) | AvatarValue(avatar: Option<string>)

  function Get(u: User, k: UserKey): FieldValue {
    match k
    case IdKey => Text(u.id)
    case NameKey => Text(u.name)
    case EmailKey => Text(u.email)
    case RoleKey => RoleValue(u.role)
    case AvatarKey => AvatarValue(u.avatar)
  }

  function Lookup(p: UserPatch, k: UserKey): Key<FieldValue> {
    match k
    case IdKey => if p.id.Present? then Present(Text(p.id.value)) else Absent
    case NameKey => if p.name.Present? then Present(Text(p.name.value)) else Absent
    case EmailKey => if p.email.Present? then Present(Text(p.email.value)) else Absent
    case RoleKey => if p.role.Present? then Present(RoleValue(p.role.value)) else Absent
    case AvatarKey => if p.avatar.Present? then Present(AvatarValue(p.avatar.value)) else Absent
  }

  /** Two users that agree on every key are the same user. */
  lemma UserExtensional(a: User, b: User)
    requires forall k :: Get(a, k) == Get(b, k)
    ensures a == b
  {
    assert Get(a, IdKey) == Get(b, IdKey);
    assert Get(a, NameKey) == Get(b, NameKey);
    assert Get(a, EmailKey) == Get(b, EmailKey);
    assert Get(a, RoleKey) == Get(b, RoleKey);
    assert Get(a, AvatarKey) == Get(b, AvatarKey);
  }

  /** `{ ...u, ...p }`: every key present in `p` takes `p`'s value, every other
      key keeps `u`'s. */
  function Merge(u: User, p: UserPatch): (r: User)
    ensures forall k :: Get(r, k) == (if Lookup(p, k).Present? then Lookup(p, k).value else Get(u, k))
  {
    User(
      if p.id.Present? then p.id.value else u.id,
      if p.name.Present? then p.name.value else u.name,
      if p.email.Present? then p.email.value else u.email,
      if p.role.Present? then p.role.value else u.role,
      if p.avatar.Present? then p.avatar.value else u.avatar)
  }

  /** `{ ...p, ...q }` on two payloads: the keys of both, `q` winning. */
  function Overlay(p: UserPatch, q: UserPatch): (r: UserPatch)
    ensures forall k :: Lookup(r, k) == (if Lookup(q, k).Present? then Lookup(q, k) else Lookup(p, k))
  {
    UserPatch(
      if q.id.Present? then q.id else p.id,
      if q.name.Present? then q.name else p.name,
      if q.email.Present? then q.email else p.email,
      if q.role.Present? then q.role else p.role,
      if q.avatar.Present? then q.avatar else p.avatar)
  }

  /** An empty payload leaves the user as it was. */
  lemma MergeEmpty(u: User)
    ensures Merge(u, EmptyPatch) == u
  {
    UserExtensional(Merge(u, EmptyPatch), u);
  }

  /** Merging the same payload twice is merging it once. */
  lemma MergeIdempotent(u: User, p: UserPatch)
    ensures Merge(Merge(u, p), p) == Merge(u, p)
  {
    UserExtensional(Merge(Merge(u, p), p), Merge(u, p));
  }

  /** Two successive merges are one merge of the overlaid payloads. */
  lemma MergeOverlay(u: User, p: UserPatch, q: UserPatch)
    ensures Merge(Merge(u, p), q) == Merge(u, Overlay(p, q))
  {
    UserExtensional(Merge(Merge(u, p), q), Merge(u, Overlay(p, q)));
  }

  /** The store's invariant: signed in exactly when a user is present. */
  predicate Consistent(s: AuthState) {
    s.isAuthenticated <==> s.user.Some?
  }

  /** The mock user the store is seeded with. */
  const MockUser := User("1", "John Doe", "john.doe@example.com", AdminRole, None)

  /** The seeded state: signed in as the mock user. */
  const InitialState := AuthState(true, Some(MockUser))

  lemma InitialStateSeeded()
    ensures InitialState.isAuthenticated && InitialState.user == Some(MockUser)
    ensures MockUser.name == "John Doe" && RoleName(MockUser.role) == "admin"
    ensures MockUser.avatar.None?
    ensures Consistent(InitialState)
  {
  }

  /** The three actions the slice exports. */
  datatype AuthAction = Login(user: User) | Logout | UpdateUser(patch: UserPatch)

  /** The slice's reducer. */
  function Reduce(s: AuthState, a: AuthAction): (r: AuthState)
    ensures Consistent(s) ==> Consistent(r)
    ensures a.UpdateUser? ==> r.isAuthenticated == s.isAuthenticated && r.user.Some? == s.user.Some?
    ensures a.UpdateUser? && s.user.None? ==> r == s
  {
    match a
    case Login(u) => AuthState(true, Some(u))
    case Logout => AuthState(false, None)
    case UpdateUser(p) =>
      if s.user.Some? then AuthState(s.isAuthenticated, Some(Merge(s.user.value, p))) else s
  }

  /** `login(u)` signs `u` in whatever the state was before. */
  lemma LoginForgetsPrior(s: AuthState, t: AuthState, u: User)
    ensures Reduce(s, Login(u)) == Reduce(t, Login(u))
    ensures Reduce(s, Login(u)).isAuthenticated && Reduce(s, Login(u)).user == Some(u)
  {
  }

  /** `logout` signs out, and a second `logout` changes nothing. */
  lemma LogoutIdempotent(s: AuthState)
    ensures Reduce(s, Logout) == AuthState(false, None)
    ensures Reduce(Reduce(s, Logout), Logout) == Reduce(s, Logout)
  {
  }

  /** With a user present, `updateUser(p)` merges `p` into it; an empty payload
      leaves the state as it was. */
  lemma UpdateUserMerges(s: AuthState, p: UserPatch)
    requires s.user.Some?
    ensures Reduce(s, UpdateUser(p)).user == Some(Merge(s.user.value, p))
    ensures Reduce(s, UpdateUser(EmptyPatch)) == s
  {
    MergeEmpty(s.user.value);
  }

  /** The state after a run of actions, applied first to last. */
  function ReduceAll(s: AuthState, acts: seq<AuthAction>): AuthState
    decreases |acts|
  {
    if acts == [] then s else Reduce(ReduceAll(s, acts[..|acts| - 1]), acts[|acts| - 1])
  }

  /** No run of actions breaks the invariant. */
  lemma {:induction false} ConsistentAfterAll(s: AuthState, acts: seq<AuthAction>)
    requires Consistent(s)
    ensures Consistent(ReduceAll(s, acts))
    decreases |acts|
  {
    if acts != [] {
      ConsistentAfterAll(s, acts[..|acts| - 1]);
    }
  }

  /** Every state the store can reach from its seed is consistent. */
  lemma ReachableConsistent(acts: seq<AuthAction>)
    ensures Consistent(ReduceAll(InitialState, acts))
  {
    ConsistentAfterAll(InitialState, acts);
  }

  /** A run of `updateUser` calls never signs anybody in or out. */
  lemma {:induction false} UpdatesKeepSession(s: AuthState, acts: seq<AuthAction>)
    requires forall i :: 0 <= i < |acts| ==> acts[i].UpdateUser?
    ensures ReduceAll(s, acts).isAuthenticated == s.isAuthenticated
    ensures ReduceAll(s, acts).user.Some? == s.user.Some?
    decreases |acts|
  {
    if acts != [] {
      UpdatesKeepSession(s, acts[..|acts| - 1]);
    }
  }

  /** The store itself: the fields the case reducers assign on the draft. */
  class AuthStore {
    var isAuthenticated: bool
    var user: Option<User>

    function State(): AuthState
      reads this
    {
      AuthState(isAuthenticated, user)
    }

    /** `initialState`. */
    constructor ()
      ensures State() == InitialState
    {
      isAuthenticated := true;
      user := Some(MockUser);
    }

    /** `login`: sign `u` in. */
    method Login(u: User)
      modifies this
      ensures isAuthenticated && user == Some(u)
      ensures State() == Reduce(old(State()), AuthAction.Login(u))
    {
      isAuthenticated := true;
      user := Some(u);
    }

    /** `logout`: sign out and drop the user. */
    method Logout()
      modifies this
      ensures !isAuthenticated && user == None
      ensures State() == Reduce(old(State()), AuthAction.Logout)
    {
      isAuthenticated := false;
      user := None;
    }

    /** `updateUser`: merge `p` into the user when there is one. */
    method UpdateUser(p: UserPatch)
      modifies this
      ensures isAuthenticated == old(isAuthenticated)
      ensures old(user).None? ==> user == None
      ensures old(user).Some? ==> user == Some(Merge(old(user).value, p))
      ensures State() == Reduce(old(State()), AuthAction.UpdateUser(p))
    {
      if user.Some? {
        user := Some(Merge(user.value, p));
      }
    }
  }
}
