/**
 * Issuing an invite (src/components/InviteUserModal.jsx): the modal's form
 * state, and its submit handler, which builds the invite row, inserts it,
 * maps the duplicate-invite error, builds the link and resets the form.
 * The random token, the clock, the signed-in user and the database's answer
 * to the insert are parameters of the handler.
 */
module InviteModal {
  import opened Wrappers
  import opened Text
  import opened Roles
  import opened Backend

  const DayMs: int := 86_400_000
  /** Invites expire seven days after they are issued. */
  const InviteLifetimeMs: int := 7 * DayMs

  /** The Postgres code for a unique-constraint violation. */
  const UniqueViolation: string := "23505"
  const DuplicateInviteMessage: string := "An active invite already exists for this email."
  const FallbackMessage: string := "Failed to create invite. Please try again."
  /** What the browser's TypeError says when the handler reads `user.id` with no signed-in user. */
  const NoUserMessage: string := "Cannot read properties of null (reading 'id')"

  /** `email.toLowerCase().trim()`: no whitespace is left at either end, and nothing is added. */
  function NormaliseEmail(email: string): (e: string)
    ensures IsTrimmed(e)
    ensures |e| <= |email|
  {
    Trim(ToLower(email))
  }

  /** A normalised address has no upper-case letter and no whitespace at either end. */
  lemma NormalisedShape(email: string)
    ensures IsTrimmed(NormaliseEmail(email))
    ensures forall i :: 0 <= i < |NormaliseEmail(email)| ==> !IsUpper(NormaliseEmail(email)[i])
  {
    var lowered := ToLower(email);
    forall i | 0 <= i < |NormaliseEmail(email)|
      ensures !IsUpper(NormaliseEmail(email)[i])
    {
      TrimKeepsCharacters(lowered, i);
    }
  }

  /** Normalising an address twice gives what normalising it once gave. */
  lemma NormaliseIdempotent(email: string)
    ensures NormaliseEmail(NormaliseEmail(email)) == NormaliseEmail(email)
  {
    var once := NormaliseEmail(email);
    NormalisedShape(email);
    ToLowerOfLower(once);
    TrimOfTrimmed(once);
  }

  /**
   * The row the handler inserts: unused, naming its issuer, holding the
   * normalised email and the chosen role, and expiring seven days after `now`.
   */
  function NewInvite(email: string, role: string, token: string, invitedBy: string, now: int): (r: Invite)
    ensures !r.used && r.invitedBy == invitedBy && r.token == token
    ensures r.email == NormaliseEmail(email) && r.role == role
    ensures r.expiresAt - now == 7 * 24 * 60 * 60 * 1000
  {
    Invite(NormaliseEmail(email), role, token, invitedBy, now + InviteLifetimeMs, false)
  }

  /** What the link puts in front of the token. */
  function LinkPrefix(origin: string): string
  {
    origin + "/create-account?token="
  }

  /** `${origin}/create-account?token=${token}`: the link starts with the page's address and ends with the token. */
  function InviteLink(origin: string, token: string): (link: string)
    ensures StartsWith(link, origin + "/create-account?token=")
    ensures EndsWith(link, token)
  {
    LinkPrefix(origin) + token
  }

  /** The `token` query parameter of a link issued under `origin`: the text after the fixed prefix. */
  function TokenOfLink(origin: string, link: string): (t: Option<string>)
    ensures t.Some? <==> StartsWith(link, LinkPrefix(origin))
    ensures t.Some? ==> link == LinkPrefix(origin) + t.value
    ensures t.Some? ==> InviteLink(origin, t.value) == link
  {
    if StartsWith(link, LinkPrefix(origin)) then Some(link[|LinkPrefix(origin)|..]) else None
  }

  /** The token the link carries is the token of the row that was stored. */
  lemma LinkCarriesStoredToken(origin: string, email: string, role: string, token: string, invitedBy: string, now: int)
    ensures TokenOfLink(origin, InviteLink(origin, token)) == Some(NewInvite(email, role, token, invitedBy, now).token)
  {
    assert InviteLink(origin, token)[..|LinkPrefix(origin)|] == LinkPrefix(origin);
    assert InviteLink(origin, token)[|LinkPrefix(origin)|..] == token;
  }

  /** The error the modal shows when the insert is refused: never empty, so a failure is always visible. */
  function InsertErrorMessage(e: DbError): (m: string)
    ensures m != ""
  {
    if e.code == UniqueViolation then DuplicateInviteMessage
    else if e.message != "" then e.message
    else FallbackMessage
  }

  /** Code 23505 becomes the duplicate-invite message; any other error shows its own message. */
  lemma InsertErrorMapping(e: DbError)
    ensures e.code == UniqueViolation ==> InsertErrorMessage(e) == DuplicateInviteMessage
    ensures e.code != UniqueViolation && e.message != "" ==> InsertErrorMessage(e) == e.message
    ensures e.code != UniqueViolation && e.message == "" ==> InsertErrorMessage(e) == FallbackMessage
  {
  }

  /** The calls the modal makes to its parent: `onSuccess(link, email, role)` and `onClose()`. */
  datatype ModalEvent = Succeeded(link: string, email: string, role: string) | Closed

  class Modal {
    var email: string
    var role: string
    var loading: bool
    var error: string
    /** Every call made to the parent's callbacks, oldest first. */
    var events: seq<ModalEvent>

    constructor ()
      ensures email == "" && role == Client && !loading && error == "" && events == []
    {
      email, role, loading, error, events := "", Client, false, "", [];
    }

    /** The email input's `onChange`. */
    method EditEmail(value: string)
      modifies this`email
      ensures email == value
    {
      email := value;
    }

    /** The role select's `onChange`. */
    method EditRole(value: string)
      modifies this`role
      ensures role == value
    {
      role := value;
    }

    /** The close and cancel buttons: the parent hears `onClose()` and the form is kept as it is. */
    method Dismiss()
      modifies this`events
      ensures events == old(events) + [Closed]
    {
      events := events + [Closed];
    }

    /**
     * `handleSubmit`. `user` is the signed-in user's id (`None` when there is
     * no session), `token` the freshly drawn UUID, `now` the clock, and
     * `rejected` the database's answer to the insert.
     */
    method Submit(db: Db, user: Option<string>, token: string, now: int, origin: string, rejected: Option<DbError>)
      requires db.Valid()
      modifies this, db
      ensures db.Valid() && db.profiles == old(db.profiles)
      ensures !loading
      // No signed-in user: reading `user.id` throws before anything is inserted.
      ensures user.None? ==>
        db.invites == old(db.invites) && error == NoUserMessage
        && events == old(events) && email == old(email) && role == old(role)
      // The insert is refused: the mapped message, no callback, the form kept.
      ensures user.Some? && rejected.Some? ==>
        db.invites == old(db.invites) && error == InsertErrorMessage(rejected.value)
        && events == old(events) && email == old(email) && role == old(role)
      // The insert succeeds: the row is stored, the parent hears of the link with
      // the email as typed, the form is reset and the modal closes.
      ensures user.Some? && rejected.None? ==>
        db.invites == old(db.invites)[token := NewInvite(old(email), old(role), token, user.value, now)]
        && events == old(events) + [Succeeded(InviteLink(origin, token), old(email), old(role)), Closed]
        && error == "" && email == "" && role == Client
    {
      error := "";
      loading := true;
      if user.None? {
        error := NoUserMessage;
        loading := false;
        return;
      }
      var row := NewInvite(email, role, token, user.value, now);
      assert row == NewInvite(old(email), old(role), token, user.value, now);
      var err := db.Insert(row, rejected);
      if err.Some? {
        error := InsertErrorMessage(err.value);
        loading := false;
        return;
      }
      var link := InviteLink(origin, token);
      events := events + [Succeeded(link, email, role)];
      email := "";
      role := Client;
      events := events + [Closed];
      assert events == old(events) + [Succeeded(link, old(email), old(role)), Closed];
      loading := false;
    }
  }
}
