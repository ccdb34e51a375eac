/**
 * The hosted database as the pages see it: the `invites` table keyed by token
 * and the `profiles` table keyed by user id. Whatever the platform decides on
 * its own (an insert refused, a sign-up or sign-in answer) reaches the model
 * as a parameter; only the table contents are state.
 */
module Backend {
  import opened Wrappers
  import opened Roles

  /** A row of the `invites` table; `expiresAt` is a time in milliseconds. */
  datatype Invite = Invite(email: string, role: string, token: string, invitedBy: string, expiresAt: int, used: bool)

  /** An error object returned by a table operation: a Postgres error code and a message. */
  datatype DbError = DbError(code: string, message: string)

  /** A call a page makes to the auth service: `signUp` or `signInWithPassword`, with what it sends. */
  datatype AuthCall = SignUp(email: string, password: string, fullName: string) | SignIn(email: string, password: string)

  predicate KeyedByToken(invites: map<string, Invite>)
  {
    forall t :: t in invites ==> invites[t].token == t
  }

  predicate KeyedById(profiles: map<string, Profile>)
  {
    forall id :: id in profiles ==> profiles[id].id == id
  }

  /**
   * `.from("invites").select("*").eq("token", token).eq("used", false).single()`:
   * the row with this token if it is unused. A used row and a missing row give
   * the same answer.
   */
  function UnusedInvite(invites: map<string, Invite>, token: string): (r: Option<Invite>)
    ensures r.Some? <==> token in invites && !invites[token].used
    ensures r.Some? ==> r.value == invites[token]
  {
    if token in invites && !invites[token].used then Some(invites[token]) else None
  }

  /** `.from("profiles").select(...).eq("id", id).single()`: the profile row, if there is one. */
  function ProfileById(profiles: map<string, Profile>, id: string): (r: Option<Profile>)
    ensures r.Some? <==> id in profiles
    ensures r.Some? ==> r.value == profiles[id]
  {
    if id in profiles then Some(profiles[id]) else None
  }

  class Db {
    var invites: map<string, Invite>
    var profiles: map<string, Profile>

    ghost predicate Valid()
      reads this
    {
      KeyedByToken(invites) && KeyedById(profiles)
    }

    constructor (invites: map<string, Invite>, profiles: map<string, Profile>)
      requires KeyedByToken(invites) && KeyedById(profiles)
      ensures Valid()
      ensures this.invites == invites && this.profiles == profiles
    {
      this.invites := invites;
      this.profiles := profiles;
    }

    /**
     * `.from("invites").insert([row]).select().single()`. The database either
     * stores the row or refuses it with an error (`rejected`); which one it does
     * is its own business (no constraint of the database is modelled here).
     */
    method Insert(row: Invite, rejected: Option<DbError>) returns (err: Option<DbError>)
      requires Valid()
      modifies this
      ensures Valid()
      ensures err == rejected
      ensures invites == if rejected.None? then old(invites)[row.token := row] else old(invites)
      ensures profiles == old(profiles)
    {
      err := rejected;
      if rejected.None? {
        invites := invites[row.token := row];
      }
    }
  }
}
