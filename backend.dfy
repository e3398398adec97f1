/**
 * What the pages receive from the hosted backend, as plain values: the
 * authenticated user, the session, failures thrown by a call, and the
 * profiles table read by primary key.
 */
module Backend {
  import opened Types

  /** The user object of the auth service: an id and a possibly missing email. */
  datatype User = User(id: string, email: Option<string>)

  /** A session of the auth service; only its presence is inspected. */
  datatype Session = Session(accessToken: string)

  /** A value thrown by a backend call and caught by a handler. */
  datatype Thrown = ErrorInstance(message: string) | OtherValue

  /** The `catch` arm every handler shares:
      `error instanceof Error ? error.message : fallback`. */
  function CaughtMessage(t: Thrown, fallback: string): (m: string)
    ensures t.ErrorInstance? ==> m == t.message
    ensures t.OtherValue? ==> m == fallback
  {
    match t
    case ErrorInstance(m) => m
    case OtherValue => fallback
  }

  /** The profiles table, keyed by its primary key `id`. */
  type ProfileTable = map<string, Profile>

  /** Every row is stored under its own id. */
  ghost predicate KeyedById(profiles: ProfileTable)
  {
    forall k :: k in profiles ==> profiles[k].id == k
  }

  /** `from("profiles").select("*").eq("id", id).single()`: the row with that
      primary key, or no data when there is none. */
  function LookupProfile(profiles: ProfileTable, id: string): (r: Option<Profile>)
    ensures r.Some? <==> id in profiles
    ensures r.Some? ==> r.value == profiles[id]
    ensures r.Some? && KeyedById(profiles) ==> r.value.id == id
  {
    if id in profiles then Some(profiles[id]) else None
  }
}
