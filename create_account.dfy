/**
 * The account-creation page (src/pages/CreateAccountPage.jsx): checking the
 * invite token from the link, then creating the account for the invite's
 * email (password checks, sign-up, sign-in, profile check, navigation by role).
 * The sign-up and sign-in answers, the clock and a failing lookup are
 * parameters; the database is read and never written.
 */
module CreateAccount {
  import opened Wrappers
  import opened Text
  import opened Roles
  import opened Backend

  const MissingTokenMessage: string := "Invalid or missing invite link."
  const InvalidOrUsedMessage: string := "This invite link is invalid or has already been used."
  const ExpiredMessage: string := "This invite link has expired."
  const LookupFailedMessage: string := "Failed to validate invite. Please try again."
  const ShortPasswordMessage: string := "Password must be at least 8 characters long."
  const MismatchMessage: string := "Passwords do not match."
  const NoUserCreatedMessage: string := "Failed to create user account."
  /**
   * The profile-missing text, written as its two sentences joined: proving a
   * single literal of this length free of the letter `y` is far costlier.
   */
  const ProfileMissingMessage: string := "Profile creation failed." + " Please contact support."
  const AlreadyRegisteredMessage: string := "This email is already registered. Please use the login page."
  const CreateFailedMessage: string := "Failed to create account. Please try again."
  const MinPasswordLength: nat := 8

  /** `!token` is false: the query parameter is there and not empty. */
  predicate Present(token: Option<string>)
  {
    token.Some? && token.value != ""
  }

  datatype Validation = MissingToken | InvalidOrUsed | Expired | Accepted(invite: Invite)

  /**
   * The checks of `validateToken`, in order: a token at all, an unused row
   * with that token, a row that has not expired (`expires_at < now` is expired).
   */
  function Validate(token: Option<string>, invites: map<string, Invite>, now: int): (v: Validation)
    requires KeyedByToken(invites)
    ensures v.Accepted? <==>
      Present(token) && token.value in invites && !invites[token.value].used && now <= invites[token.value].expiresAt
    ensures v.Accepted? ==> v.invite == invites[token.value] && v.invite.token == token.value
  {
    if !Present(token) then MissingToken
    else match UnusedInvite(invites, token.value)
      case None => InvalidOrUsed
      case Some(row) => if row.expiresAt < now then Expired else Accepted(row)
  }

  /** The message each rejection shows. */
  function ValidationMessage(v: Validation): (m: string)
    requires !v.Accepted?
    ensures m != ""
    ensures v.MissingToken? ==> m == MissingTokenMessage
    ensures v.InvalidOrUsed? ==> m == InvalidOrUsedMessage
    ensures v.Expired? ==> m == ExpiredMessage
  {
    match v
    case MissingToken => MissingTokenMessage
    case InvalidOrUsed => InvalidOrUsedMessage
    case Expired => ExpiredMessage
  }

  /** Different rejections show different texts; in particular an expired link is not reported as invalid or used. */
  lemma RejectionMessagesDistinct(v: Validation, w: Validation)
    requires !v.Accepted? && !w.Accepted? && v != w
    ensures ValidationMessage(v) != ValidationMessage(w)
  {
  }

  /** A used token and a token never issued get the same answer. */
  lemma UsedLooksUnknown(token: string, invites: map<string, Invite>, now: int)
    requires KeyedByToken(invites) && token != ""
    requires token !in invites || invites[token].used
    ensures Validate(Some(token), invites, now) == InvalidOrUsed
  {
  }

  /** An unused row past its expiry is reported as expired, not as invalid. */
  lemma ExpiredIsReportedAsSuch(token: string, invites: map<string, Invite>, now: int)
    requires KeyedByToken(invites) && token != ""
    requires token in invites && !invites[token].used && invites[token].expiresAt < now
    ensures Validate(Some(token), invites, now) == Expired
  {
  }

  /** An invite is still good at the very instant it expires. */
  lemma GoodAtExpiryInstant(token: string, invites: map<string, Invite>)
    requires KeyedByToken(invites) && token != ""
    requires token in invites && !invites[token].used
    ensures Validate(Some(token), invites, invites[token].expiresAt) == Accepted(invites[token])
  {
  }

  /** Without a token no row is consulted: the answer is the same for any table. */
  lemma MissingTokenIgnoresTable(token: Option<string>, a: map<string, Invite>, b: map<string, Invite>, now: int)
    requires KeyedByToken(a) && KeyedByToken(b) && !Present(token)
    ensures Validate(token, a, now) == Validate(token, b, now) == MissingToken
  {
  }

  /** The auth service's answer to `signUp`: an error, no user, or the new user's id. */
  datatype SignUpReply = SignUpFailed(message: string) | SignUpNoUser | SignUpOk(userId: string)

  /** The auth service's answer to `signInWithPassword`. */
  datatype SignInReply = SignInFailed(message: string) | SignInOk

  /** The `catch` block: registration errors point to the login page; any other message shows as it is. */
  function FailureMessage(message: string): (m: string)
    ensures m != ""
    ensures Contains(message, "already registered") ==> m == AlreadyRegisteredMessage
    ensures Contains(message, "already been registered") ==> m == AlreadyRegisteredMessage
    ensures !Contains(message, "already registered") && !Contains(message, "already been registered") && message != ""
      ==> m == message
    ensures message == "" ==> m == CreateFailedMessage
  {
    if Contains(message, "already registered") || Contains(message, "already been registered") then AlreadyRegisteredMessage
    else if message != "" then message
    else CreateFailedMessage
  }

  /** A message without the letter `y` cannot mention registration, so the `catch` block shows it unchanged. */
  lemma {:induction false} NoRegistrationMention(message: string)
    requires message != "" && 'y' !in message
    ensures FailureMessage(message) == message
  {
    assert "already registered"[6] == 'y' && "already been registered"[6] == 'y';
    if Contains(message, "already registered") {
      ContainedCharsOccur(message, "already registered", 'y');
    }
    if Contains(message, "already been registered") {
      ContainedCharsOccur(message, "already been registered", 'y');
    }
  }

  /** No letter `y` in the profile-missing text, checked sentence by sentence. */
  lemma ProfileMissingHasNoY()
    ensures 'y' !in ProfileMissingMessage
  {
    assert 'y' !in "Profile creation failed.";
    assert 'y' !in " Please contact support.";
  }

  /** No letter `y` in the no-user text. */
  lemma NoUserCreatedHasNoY()
    ensures 'y' !in NoUserCreatedMessage
  {
    assert NoUserCreatedMessage == "Failed to create" + " user account.";
    assert 'y' !in "Failed to create" && 'y' !in " user account.";
  }

  /** The page's own failure texts pass through the `catch` block unchanged. */
  lemma OwnMessagesPassThrough()
    ensures FailureMessage(ProfileMissingMessage) == ProfileMissingMessage
    ensures FailureMessage(NoUserCreatedMessage) == NoUserCreatedMessage
  {
    ProfileMissingHasNoY();
    NoRegistrationMention(ProfileMissingMessage);
    NoUserCreatedHasNoY();
    NoRegistrationMention(NoUserCreatedMessage);
  }

  /**
   * Where the page sends a new account, by the role of its profile: the home
   * path for a role it does not know, and otherwise a path of its own.
   */
  function RouteForRole(role: string): (path: string)
    ensures path == "/" <==> role != SuperAdmin && role != Admin && role != Client
    ensures role == SuperAdmin ==> path == "/super-admin"
    ensures role == Admin ==> path == "/admin"
    ensures role == Client ==> path == "/client"
    ensures |path| >= 1 && path[0] == '/'
  {
    if role == SuperAdmin then "/super-admin"
    else if role == Admin then "/admin"
    else if role == Client then "/client"
    else "/"
  }

  /** The page's state: what its `useState` hooks hold, plus what it has asked of the auth service and the router. */
  class Page {
    /** The `token` query parameter. */
    const token: Option<string>
    var loading: bool
    var submitting: bool
    var error: string
    var inviteData: Option<Invite>
    var fullName: string
    var password: string
    var confirmPassword: string
    /** Calls made to the auth service, oldest first. */
    var authCalls: seq<AuthCall>
    /** Paths passed to `navigate`, oldest first. */
    var navigations: seq<string>

    constructor (token: Option<string>)
      ensures this.token == token
      ensures loading && !submitting && error == "" && inviteData.None?
      ensures fullName == "" && password == "" && confirmPassword == ""
      ensures authCalls == [] && navigations == []
    {
      this.token := token;
      loading, submitting, error, inviteData := true, false, "", None;
      fullName, password, confirmPassword := "", "", "";
      authCalls, navigations := [], [];
    }

    /** Past the spinner, the page shows either an error or an invite. */
    predicate Settled()
      reads this
    {
      !loading && (error != "" || inviteData.Some?)
    }

    /** The form inputs' `onChange` handlers. */
    method EditForm(name: string, pass: string, confirm: string)
      modifies this`fullName, this`password, this`confirmPassword
      ensures fullName == name && password == pass && confirmPassword == confirm
    {
      fullName, password, confirmPassword := name, pass, confirm;
    }

    /**
     * `validateToken`, run when the page mounts. `lookupThrows` says whether
     * the query to the invites table throws instead of answering.
     */
    method ValidateToken(db: Db, now: int, lookupThrows: bool)
      requires db.Valid()
      modifies this`loading, this`error, this`inviteData
      ensures unchanged(db)
      ensures !loading
      ensures old(error) == "" ==> Settled()
      ensures Present(token) && lookupThrows ==>
        error == LookupFailedMessage && inviteData == old(inviteData)
      ensures !(Present(token) && lookupThrows) ==>
        var v := Validate(token, db.invites, now);
        if v.Accepted? then inviteData == Some(v.invite) && error == old(error)
        else error == ValidationMessage(v) && inviteData == old(inviteData)
    {
      if !Present(token) {
        error := MissingTokenMessage;
        loading := false;
        return;
      }
      if lookupThrows {
        error := LookupFailedMessage;
        loading := false;
        return;
      }
      var data := UnusedInvite(db.invites, token.value);
      if data.None? {
        error := InvalidOrUsedMessage;
        loading := false;
        return;
      }
      if data.value.expiresAt < now {
        error := ExpiredMessage;
        loading := false;
        return;
      }
      inviteData := data;
      loading := false;
    }

    /**
     * `handleSubmit`. The form is on screen only past the spinner and with an
     * invite loaded, and its submit button is disabled while a submission
     * runs, which is what the precondition says. The sign-up and
     * sign-in answers are parameters; the profile is looked up in `db`.
     */
    method HandleSubmit(db: Db, signUp: SignUpReply, signIn: SignInReply)
      requires !loading && !submitting && inviteData.Some?
      modifies this`error, this`submitting, this`authCalls, this`navigations
      ensures unchanged(db)
      ensures !submitting
      // The email sent to the auth service is always the invite's.
      ensures forall k :: |old(authCalls)| <= k < |authCalls| ==> authCalls[k].email == inviteData.value.email
      // Password checks come first and stop before any call.
      ensures |password| < MinPasswordLength ==>
        error == ShortPasswordMessage && authCalls == old(authCalls) && navigations == old(navigations)
      ensures |password| >= MinPasswordLength && password != confirmPassword ==>
        error == MismatchMessage && authCalls == old(authCalls) && navigations == old(navigations)
      ensures |password| >= MinPasswordLength && password == confirmPassword ==>
        var up := SignUp(inviteData.value.email, password, fullName);
        var inCall := SignIn(inviteData.value.email, password);
        match signUp
        case SignUpFailed(m) =>
          authCalls == old(authCalls) + [up] && error == FailureMessage(m) && navigations == old(navigations)
        case SignUpNoUser =>
          authCalls == old(authCalls) + [up] && error == NoUserCreatedMessage && navigations == old(navigations)
        case SignUpOk(uid) =>
          authCalls == old(authCalls) + [up, inCall] &&
          match signIn
          case SignInFailed(m) => error == FailureMessage(m) && navigations == old(navigations)
          case SignInOk =>
            match ProfileById(db.profiles, uid)
            case None => error == ProfileMissingMessage && navigations == old(navigations)
            case Some(p) => error == "" && navigations == old(navigations) + [RouteForRole(p.role)]
    {
      error := "";
      if |password| < MinPasswordLength {
        error := ShortPasswordMessage;
        return;
      }
      if password != confirmPassword {
        error := MismatchMessage;
        return;
      }
      submitting := true;
      var email := inviteData.value.email;
      authCalls := authCalls + [SignUp(email, password, fullName)];
      match signUp {
        case SignUpFailed(m) =>
          error := FailureMessage(m);
        case SignUpNoUser =>
          // Thrown and caught: the `catch` block shows it as it is (OwnMessagesPassThrough).
          error := NoUserCreatedMessage;
        case SignUpOk(uid) =>
          authCalls := authCalls + [SignIn(email, password)];
          match signIn {
            case SignInFailed(m) =>
              error := FailureMessage(m);
            case SignInOk =>
              var profile := ProfileById(db.profiles, uid);
              if profile.None? {
                // Thrown and caught: shown as it is (OwnMessagesPassThrough).
                error := ProfileMissingMessage;
              } else {
                navigations := navigations + [RouteForRole(profile.value.role)];
              }
          }
      }
      submitting := false;
    }
  }
}
