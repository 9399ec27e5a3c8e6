/** Values shared by the server actions and components: optional values, the signed-in user,
    and JavaScript's `||` fallback on strings. */
module Common {

  /** An optional value: `undefined`/`null` is `None`. */
  datatype Option<+T> = None | Some(value: T)

  /** The user record returned by the identity provider; only its id is consulted. */
  datatype User = User(id: string)

  /** `user?.id` is truthy: a user is present and has a non-empty id. */
  predicate SignedIn(user: Option<User>)
  {
    user.Some? && user.value.id != ""
  }

  /** JavaScript's `a || d` where `a` is an optional string: an absent or empty string falls
      through to the default `d`, any other string is kept. */
  function OrElse(a: Option<string>, d: string): (r: string)
    ensures a.Some? && a.value != "" ==> r == a.value
    ensures a.None? || a.value == "" ==> r == d
  {
    if a.Some? && a.value != "" then a.value else d
  }
}
