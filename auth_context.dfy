/**
 * `authReducer` of the authentication context (frontend/src/contexts/AuthContext.jsx).
 * The user is null or a plain object; its field values are of any type `V`.
 */
module AuthContext {
  import opened JsObject

  datatype State<V> = State(user: Option<Dict<string, V>>)

  datatype Action<V> =
    | Login(payload: Dict<string, V>)
    | Logout
    | UpdateProfile(profile: V)
    | UnknownAction

  const ProfileKey: string := "profile"

  /** `{ ...user, profile }`: spreading null copies nothing. */
  function WithProfile<V>(user: Option<Dict<string, V>>, profile: V): Dict<string, V> {
    Put(if user.Some? then user.value else Empty(), ProfileKey, profile)
  }

  function Reduce<V>(s: State<V>, a: Action<V>): (r: State<V>)
    ensures a.Login? ==> r.user == Some(a.payload)
    ensures a.Logout? ==> r.user.None?
    ensures a.UpdateProfile? ==>
      r.user.Some? && ProfileKey in r.user.value.vals && r.user.value.vals[ProfileKey] == a.profile
    ensures a.UnknownAction? ==> r == s
  {
    match a
    case Login(u) => State(Some(u))
    case Logout => State(None)
    case UpdateProfile(p) => State(Some(WithProfile(s.user, p)))
    case UnknownAction => s
  }

  /** Logging out twice is logging out once. */
  lemma {:induction false} LogoutIdempotent<V>(s: State<V>)
    ensures Reduce(Reduce(s, Logout), Logout) == Reduce(s, Logout)
  {
  }

  /**
   * Updating the profile keeps every other field of the user, with its value
   * and its place in the key order; `profile` keeps its place when it was
   * there and comes last otherwise; a well-formed user stays well formed.
   */
  lemma {:induction false} UpdateKeepsOtherFields<V>(u: Dict<string, V>, p: V)
    requires u.Valid()
    ensures var r := Reduce(State(Some(u)), UpdateProfile(p)).user.value;
      && r.Valid()
      && (forall k :: k != ProfileKey ==> (k in r.vals <==> k in u.vals))
      && (forall k :: k in u.vals && k != ProfileKey ==> r.vals[k] == u.vals[k])
      && (ProfileKey in u.vals ==> r.keys == u.keys)
      && (ProfileKey !in u.vals ==> r.keys == u.keys + [ProfileKey])
  {
    PutValid(u, ProfileKey, p);
  }

  /** Updating the profile of a null user yields an object whose only field is `profile`. */
  lemma {:induction false} UpdateFromNull<V>(p: V)
    ensures var r := Reduce(State(None), UpdateProfile(p)).user.value;
      r.keys == [ProfileKey] && r.vals == map[ProfileKey := p]
  {
  }
}
