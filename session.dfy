/** The signed-in user as every page sees it. The authentication context
    itself is not part of this model; what the pages rely on is modelled
    here: the current user (or none) and `updateUser`, which merges some
    fields into that user and does nothing when nobody is signed in. */
module Session {
  import opened Types

  /** The field sets the pages pass to `updateUser`. */
  datatype UserPatch =
    | PointsPatch(greenPoints: int)
    | ProfilePatch(name: string, email: string)

  /** Object spread of the patch over the user: the patched fields take the new values. */
  function Merge(u: User, patch: UserPatch): (r: User)
    ensures r.id == u.id && r.role == u.role && r.avatar == u.avatar && r.joinedAt == u.joinedAt
  {
    match patch
    case PointsPatch(points) => u.(greenPoints := points)
    case ProfilePatch(name, email) => u.(name := name, email := email)
  }

  /** The session user after `points` more Green Points (fewer when negative). */
  function Credited(user: Option<User>, points: int): Option<User>
  {
    if user.Some? then Some(user.value.(greenPoints := user.value.greenPoints + points)) else None
  }

  /** Green Points of the session user, if any. */
  function Balance(user: Option<User>): int
  {
    if user.Some? then user.value.greenPoints else 0
  }

  /** Credits add up: two credits in a row are one credit of their sum. */
  lemma CreditsCompose(user: Option<User>, a: int, b: int)
    ensures Credited(Credited(user, a), b) == Credited(user, a + b)
    ensures Balance(Credited(user, a)) == if user.Some? then Balance(user) + a else 0
  {
  }

  /** A points patch sets the balance outright: the pages compute the new
      balance themselves, so of two patches in a row only the last counts. */
  lemma PointsPatchLastWins(u: User, first: int, second: int)
    ensures Merge(Merge(u, PointsPatch(first)), PointsPatch(second)) == Merge(u, PointsPatch(second))
    ensures Some(Merge(u, PointsPatch(u.greenPoints + first))) == Credited(Some(u), first)
  {
  }

  class AuthSession {
    var user: Option<User>

    constructor (user: Option<User>)
      ensures this.user == user
    {
      this.user := user;
    }

    method UpdateUser(patch: UserPatch)
      modifies this
      ensures user == if old(user).Some? then Some(Merge(old(user).value, patch)) else None
    {
      if user.Some? {
        user := Some(Merge(user.value, patch));
      }
    }
  }
}
