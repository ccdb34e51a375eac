/**
 * The login page (src/pages/LoginPage.jsx): the dashboard each role is sent
 * to, the translation of sign-in errors into messages, and the page's two
 * handlers (the session check on mount and the form's submit). The auth
 * service's answers are parameters; profiles are read from the database.
 */
module Login {
  import opened Wrappers
  import opened Text
  import opened Roles
  import opened Backend

  const SuperAdminDashboardPath: string := "/super-admin/dashboard"
  const AdminDashboardPath: string := "/admin/dashboard"
  const ClientDashboardPath: string := "/client/dashboard"
  const UnauthorizedPath: string := "/unauthorized"

  const BadCredentialsText: string := "Invalid login credentials"
  const UnconfirmedText: string := "Email not confirmed"
  const BadCredentialsMessage: string := "Invalid email or password. Please try again."
  const UnconfirmedMessage: string := "Please verify your email before logging in."
  const UnexpectedMessage: string := "An unexpected error occurred. Please try again."

  /** `redirectToDashboard`: each known role has its dashboard, anything else the unauthorized page. */
  function DashboardFor(role: string): (path: string)
    ensures path == UnauthorizedPath <==> role != SuperAdmin && role != Admin && role != Client
  {
    if role == SuperAdmin then SuperAdminDashboardPath
    else if role == Admin then AdminDashboardPath
    else if role == Client then ClientDashboardPath
    else UnauthorizedPath
  }

  /** Different roles are sent to different dashboards. */
  lemma DashboardsDistinct(r1: string, r2: string)
    requires r1 in [SuperAdmin, Admin, Client] && r2 in [SuperAdmin, Admin, Client]
    requires DashboardFor(r1) == DashboardFor(r2)
    ensures r1 == r2
  {
  }

  /** The message shown for a sign-in error: the first matching rule wins, otherwise the raw text. */
  function LoginErrorMessage(raw: string): (m: string)
    ensures m == raw || m == BadCredentialsMessage || m == UnconfirmedMessage
    ensures m != raw ==> Contains(raw, BadCredentialsText) || Contains(raw, UnconfirmedText)
  {
    if Contains(raw, BadCredentialsText) then BadCredentialsMessage
    else if Contains(raw, UnconfirmedText) then UnconfirmedMessage
    else raw
  }

  /** The three cases of the translation, with bad credentials checked first. */
  lemma LoginErrorRules(raw: string)
    ensures Contains(raw, BadCredentialsText) ==> LoginErrorMessage(raw) == BadCredentialsMessage
    ensures !Contains(raw, BadCredentialsText) && Contains(raw, UnconfirmedText) ==> LoginErrorMessage(raw) == UnconfirmedMessage
    ensures !Contains(raw, BadCredentialsText) && !Contains(raw, UnconfirmedText) ==> LoginErrorMessage(raw) == raw
  {
  }

  /** An error text that mentions both problems is reported as bad credentials, wherever each appears. */
  lemma {:induction false} BadCredentialsWins(before: string, middle: string, after: string)
    ensures LoginErrorMessage(before + BadCredentialsText + middle + UnconfirmedText + after) == BadCredentialsMessage
    ensures LoginErrorMessage(before + UnconfirmedText + middle + BadCredentialsText + after) == BadCredentialsMessage
  {
    ContainsInfix(before, BadCredentialsText, middle + UnconfirmedText + after);
    assert before + BadCredentialsText + middle + UnconfirmedText + after
        == before + BadCredentialsText + (middle + UnconfirmedText + after);
    ContainsInfix(before + UnconfirmedText + middle, BadCredentialsText, after);
  }

  /** The navigation a fetched profile leads to: none without a profile row, else its dashboard. */
  function RedirectFor(profile: Option<Profile>): (moves: seq<string>)
    ensures |moves| <= 1
    ensures moves != [] <==> profile.Some?
    ensures profile.Some? ==> moves[0] == DashboardFor(profile.value.role)
  {
    match profile
    case None => []
    case Some(p) => [DashboardFor(p.role)]
  }

  /** The auth service's answer to `signInWithPassword`: an error, no session, a session for a user, or a thrown exception. */
  datatype SignInReply = SignInFailed(message: string) | NoSession | SignedIn(userId: string) | Threw

  class Page {
    var email: string
    var password: string
    var error: string
    var loading: bool
    /** Paths passed to `navigate`, oldest first. */
    var navigations: seq<string>
    /** User ids whose profile row was fetched, oldest first. */
    var lookups: seq<string>
    /** Calls made to the auth service, oldest first. */
    var authCalls: seq<AuthCall>

    constructor ()
      ensures email == "" && password == "" && error == "" && !loading
      ensures navigations == [] && lookups == [] && authCalls == []
    {
      email, password, error, loading := "", "", "", false;
      navigations, lookups, authCalls := [], [], [];
    }

    /** The email input's `onChange`: takes the value and clears the error. */
    method EditEmail(value: string)
      modifies this`email, this`error
      ensures email == value && error == ""
    {
      email := value;
      error := "";
    }

    /** The password input's `onChange`: takes the value and clears the error. */
    method EditPassword(value: string)
      modifies this`password, this`error
      ensures password == value && error == ""
    {
      password := value;
      error := "";
    }

    /** The mount effect: with an existing session, fetch the profile and go to its dashboard. */
    method CheckSession(db: Db, session: Option<string>)
      modifies this`navigations, this`lookups
      ensures session.None? ==> navigations == old(navigations) && lookups == old(lookups)
      ensures session.Some? ==> lookups == old(lookups) + [session.value]
      ensures session.Some? ==> navigations == old(navigations) + RedirectFor(ProfileById(db.profiles, session.value))
    {
      if session.Some? {
        lookups := lookups + [session.value];
        var profile := ProfileById(db.profiles, session.value);
        if profile.Some? {
          navigations := navigations + [DashboardFor(profile.value.role)];
        }
      }
    }

    /** `handleLogin`, given the auth service's answer to the sign-in. */
    method HandleLogin(db: Db, reply: SignInReply)
      modifies this`error, this`loading, this`navigations, this`lookups, this`authCalls
      ensures !loading
      // The form's email and password are sent to the auth service, whatever it answers.
      ensures authCalls == old(authCalls) + [SignIn(email, password)]
      // A sign-in error shows its translation; nothing is fetched and nobody moves.
      ensures reply.SignInFailed? ==>
        error == LoginErrorMessage(reply.message) && navigations == old(navigations) && lookups == old(lookups)
      ensures reply.Threw? ==>
        error == UnexpectedMessage && navigations == old(navigations) && lookups == old(lookups)
      ensures reply.NoSession? ==>
        error == "" && navigations == old(navigations) && lookups == old(lookups)
      // A session: the profile is fetched, and only a profile that exists moves the user.
      ensures reply.SignedIn? ==>
        error == "" && lookups == old(lookups) + [reply.userId]
        && navigations == old(navigations) + RedirectFor(ProfileById(db.profiles, reply.userId))
    {
      error := "";
      loading := true;
      authCalls := authCalls + [SignIn(email, password)];
      match reply {
        case Threw =>
          error := UnexpectedMessage;
        case SignInFailed(message) =>
          error := LoginErrorMessage(message);
          loading := false;
          return;
        case NoSession =>
        case SignedIn(uid) =>
          lookups := lookups + [uid];
          var profile := ProfileById(db.profiles, uid);
          if profile.Some? {
            navigations := navigations + [DashboardFor(profile.value.role)];
          }
      }
      loading := false;
    }
  }
}
