/**
 * The `send-invite-email` edge function (supabase/functions/send-invite-email/index.ts):
 * an ordered series of checks (preflight, authorization header, caller,
 * super-admin role, request body, API key), then one call to the email
 * provider whose answer selects the response. Also the email's text
 * pieces: the readable role name, the inviter's name, the role colour and
 * the subject line. The caller lookup, the profile table, the API key and
 * the provider's answer are parameters.
 */
module InviteEmail {
  import opened Wrappers
  import opened Text
  import opened Roles
  import opened Backend

  const MissingAuthMessage: string := "Missing authorization header"
  const UnauthorizedMessage: string := "Unauthorized"
  const NotSuperAdminMessage: string := "Only super admins can send invites"
  const MissingFieldsMessage: string := "Missing required fields"
  const MisconfiguredMessage: string := "Server misconfiguration: missing RESEND_API_KEY"
  const SentMessage: string := "Email sent successfully"
  const DefaultInviterName: string := "Your Administrator"
  const ClientColor: string := "#f97316"
  const OtherColor: string := "#ffffff"
  const SubjectPrefix: string := "You're invited to join Agency Portal as "

  /** A JavaScript string value is truthy: present and not empty. */
  predicate Truthy(s: Option<string>)
  {
    s.Some? && s.value != ""
  }

  /** `word.charAt(0).toUpperCase() + word.slice(1)` */
  function Capitalize(word: string): (r: string)
    ensures |r| == |word|
  {
    if word == [] then [] else [UpperChar(word[0])] + word[1..]
  }

  /** `words.map(capitalize)` */
  function CapitalizeAll(words: seq<string>): (r: seq<string>)
    ensures |r| == |words|
  {
    if words == [] then [] else [Capitalize(words[0])] + CapitalizeAll(words[1..])
  }

  /** `role.replace("_", " ").split(" ").map(capitalize).join(" ")` */
  function RoleName(role: string): (name: string)
    ensures name == CapitalizeWords(ReplaceFirst(role, '_', ' '), true)
    ensures |name| == |role|
  {
    SplitCapitalizeJoin(ReplaceFirst(role, '_', ' '));
    Join(CapitalizeAll(Split(ReplaceFirst(role, '_', ' '), ' ')), ' ')
  }

  /**
   * The same result described character by character: each character that
   * starts a word (the first one, or one right after a space) is upper-cased,
   * and every other character is kept.
   */
  function CapitalizeWords(s: string, atStart: bool): (r: string)
    ensures |r| == |s|
  {
    if s == [] then []
    else [if atStart then UpperChar(s[0]) else s[0]] + CapitalizeWords(s[1..], s[0] == ' ')
  }

  lemma {:induction false} CapitalizeWordsAt(s: string, atStart: bool, i: nat)
    requires i < |s|
    ensures CapitalizeWords(s, atStart)[i] ==
      if (i == 0 && atStart) || (i > 0 && s[i - 1] == ' ') then UpperChar(s[i]) else s[i]
  {
    if i > 0 {
      CapitalizeWordsAt(s[1..], s[0] == ' ', i - 1);
    }
  }

  /**
   * Splitting on spaces, capitalising each word and joining with spaces is
   * the character-by-character description; the second form is for a text
   * whose first word is not to be capitalised.
   */
  lemma {:induction false} SplitCapitalizeJoin(s: string)
    ensures Join(CapitalizeAll(Split(s, ' ')), ' ') == CapitalizeWords(s, true)
    ensures Join([Split(s, ' ')[0]] + CapitalizeAll(Split(s, ' ')[1..]), ' ') == CapitalizeWords(s, false)
  {
    if s != [] {
      var rest := Split(s[1..], ' ');
      SplitCapitalizeJoin(s[1..]);
      var tail := CapitalizeAll(rest[1..]);
      assert CapitalizeAll(rest) == [Capitalize(rest[0])] + tail;
      if s[0] == ' ' {
        assert Split(s, ' ') == [""] + rest;
        assert ([""] + rest)[1..] == rest;
        assert CapitalizeAll([""] + rest) == [""] + CapitalizeAll(rest);
        assert ([""] + CapitalizeAll(rest))[1..] == CapitalizeAll(rest);
        assert UpperChar(' ') == ' ';
      } else {
        var first := [s[0]] + rest[0];
        assert Split(s, ' ') == [first] + rest[1..];
        assert ([first] + rest[1..])[1..] == rest[1..];
        assert Capitalize(first) == [UpperChar(s[0])] + rest[0];
        assert CapitalizeAll([first] + rest[1..]) == [Capitalize(first)] + tail;
        JoinExtendFirst(UpperChar(s[0]), [rest[0]] + tail, ' ');
        JoinExtendFirst(s[0], [rest[0]] + tail, ' ');
        assert [[UpperChar(s[0])] + rest[0]] + tail == [[UpperChar(s[0])] + ([rest[0]] + tail)[0]] + ([rest[0]] + tail)[1..];
        assert [first] + tail == [[s[0]] + ([rest[0]] + tail)[0]] + ([rest[0]] + tail)[1..];
      }
    }
  }

  /**
   * The readable role name, character by character: the role with its first
   * underscore turned into a space, each word's first character upper-cased.
   */
  lemma RoleNameAt(role: string, i: nat)
    requires i < |role|
    ensures |RoleName(role)| == |role|
    ensures var s := ReplaceFirst(role, '_', ' ');
      RoleName(role)[i] == if i == 0 || s[i - 1] == ' ' then UpperChar(s[i]) else s[i]
  {
    CapitalizeWordsAt(ReplaceFirst(role, '_', ' '), true, i);
  }

  /** A role of two words joined by an underscore reads as the two words capitalised, with a space between. */
  lemma TwoWordRoleName(first: string, second: string)
    requires '_' !in first && ' ' !in first && ' ' !in second
    ensures RoleName(first + ['_'] + second) == Capitalize(first) + [' '] + Capitalize(second)
  {
    ReplaceFirstSplits(first, second, '_', ' ');
    SplitAtFirst(first, second, ' ');
    SplitWithoutSeparator(second, ' ');
    var words := [first, second];
    assert words[1..] == [second];
    assert Split(first + [' '] + second, ' ') == words;
    assert CapitalizeAll(words) == [Capitalize(first), Capitalize(second)];
    assert [Capitalize(first), Capitalize(second)][1..] == [Capitalize(second)];
    assert Join([Capitalize(first), Capitalize(second)], ' ') == Capitalize(first) + [' '] + Capitalize(second);
    assert ReplaceFirst(first + ['_'] + second, '_', ' ') == first + [' '] + second;
  }

  /** A role of one word reads as that word capitalised. */
  lemma OneWordRoleName(role: string)
    requires '_' !in role && ' ' !in role
    ensures RoleName(role) == Capitalize(role)
  {
    SplitWithoutSeparator(role, ' ');
  }

  /** The spelling `super_admin` is assembled from. */
  lemma SuperAdminSpelling()
    ensures SuperAdmin == "super" + ['_'] + "admin"
    ensures '_' !in "super" && ' ' !in "super" && ' ' !in "admin"
    ensures Capitalize("super") + [' '] + Capitalize("admin") == "Super Admin"
  {
  }

  /** The one-word roles have neither an underscore nor a space. */
  lemma OneWordSpellings()
    ensures '_' !in Admin && ' ' !in Admin && '_' !in Client && ' ' !in Client
    ensures Capitalize(Admin) == "Admin" && Capitalize(Client) == "Client"
  {
  }

  /** The names the three roles are shown under. */
  lemma RoleNamesShown(role: string)
    ensures role == SuperAdmin ==> RoleName(role) == "Super Admin"
    ensures role == Admin ==> RoleName(role) == "Admin"
    ensures role == Client ==> RoleName(role) == "Client"
  {
    if role == SuperAdmin {
      SuperAdminSpelling();
      TwoWordRoleName("super", "admin");
    } else if role == Admin || role == Client {
      OneWordSpellings();
      OneWordRoleName(role);
    }
  }

  /**
   * Only the first underscore becomes a space: in `a_b_c` the second one stays
   * inside the second word, so `a_b_c` reads as `A B_c`.
   */
  lemma OnlyFirstUnderscoreReplaced(a: string, b: string, c: string)
    requires '_' !in a && ' ' !in a && ' ' !in b && ' ' !in c
    ensures RoleName(a + ['_'] + b + ['_'] + c) == Capitalize(a) + [' '] + Capitalize(b + ['_'] + c)
  {
    assert a + ['_'] + b + ['_'] + c == a + ['_'] + (b + ['_'] + c);
    TwoWordRoleName(a, b + ['_'] + c);
  }

  /** `invitedByName || profile?.full_name || "Your Administrator"`: never empty. */
  function InviterName(invitedByName: Option<string>, profile: Option<Profile>): (name: string)
    ensures name != ""
    ensures Truthy(invitedByName) ==> name == invitedByName.value
    ensures !Truthy(invitedByName) && profile.Some? && Truthy(profile.value.fullName) ==> name == profile.value.fullName.value
    ensures !Truthy(invitedByName) && !(profile.Some? && Truthy(profile.value.fullName)) ==> name == DefaultInviterName
  {
    if Truthy(invitedByName) then invitedByName.value
    else if profile.Some? && Truthy(profile.value.fullName) then profile.value.fullName.value
    else DefaultInviterName
  }

  /** The highlight colour of the role name in the email. */
  function RoleColor(role: string): (color: string)
    ensures color == ClientColor <==> role == Client
    ensures role != Client ==> color == OtherColor
  {
    if role == Client then ClientColor else OtherColor
  }

  /** The subject line: the fixed invitation text, then the role's readable name. */
  function Subject(roleName: string): (subject: string)
    ensures StartsWith(subject, SubjectPrefix)
    ensures subject[|SubjectPrefix|..] == roleName
  {
    SubjectPrefix + roleName
  }

  /** The JSON body of the request, or the reason it could not be read. */
  datatype Payload =
    | Payload(email: Option<string>, role: Option<string>, inviteLink: Option<string>, invitedByName: Option<string>)
    | Unreadable(reason: string)

  datatype Request = Request(verb: string, authorization: Option<string>, body: Payload)

  /** The provider's answer: accepted with an id, refused with a status and body, or a failure to reach it. */
  datatype ProviderReply =
    | Delivered(id: string)
    | Refused(status: nat, message: Option<string>, rawBody: string)
    // No usable answer: the request failed, or the reply could not be read as
    // JSON (even after a send went through); `reason` is the thrown error's text.
    | Unreachable(reason: string)

  /** What is sent to the provider. */
  datatype Email = Email(to: string, subject: string, inviterName: string, roleName: string, roleColor: string, link: string)

  /** The preflight answer, `{success: true, message, emailId}` or `{success: false, error}`. */
  datatype Response = Preflight | Sent(message: string, emailId: string) | Failed(error: string)

  function StatusOf(r: Response): (status: nat)
    ensures status == 400 <==> r.Failed?
    ensures !r.Failed? ==> status == 200
  {
    if r.Failed? then 400 else 200
  }

  /** The first three checks pass: a header, a caller it resolves to, and that caller's row has role `super_admin`. */
  predicate CallerCleared(req: Request, caller: Option<string>, profiles: map<string, Profile>)
  {
    Truthy(req.authorization) && caller.Some? && IsSuperAdminRow(ProfileById(profiles, caller.value))
  }

  /** The body was read and its three required fields are truthy. */
  predicate FieldsPresent(body: Payload)
  {
    body.Payload? && Truthy(body.email) && Truthy(body.role) && Truthy(body.inviteLink)
  }

  /**
   * The checks before the provider call, in order; the first that fails
   * names the error. `caller` is the user the bearer token resolves to.
   */
  function FirstFailure(req: Request, caller: Option<string>, profiles: map<string, Profile>, apiKey: Option<string>): (f: Option<string>)
    ensures f.None? <==> CallerCleared(req, caller, profiles) && FieldsPresent(req.body) && Truthy(apiKey)
    // Each check, once the earlier ones pass, reports its own message.
    ensures !Truthy(req.authorization) ==> f == Some(MissingAuthMessage)
    ensures Truthy(req.authorization) && caller.None? ==> f == Some(UnauthorizedMessage)
    ensures Truthy(req.authorization) && caller.Some? && !IsSuperAdminRow(ProfileById(profiles, caller.value))
      ==> f == Some(NotSuperAdminMessage)
    ensures CallerCleared(req, caller, profiles) && req.body.Unreadable? ==> f == Some(req.body.reason)
    ensures CallerCleared(req, caller, profiles) && req.body.Payload? && !FieldsPresent(req.body)
      ==> f == Some(MissingFieldsMessage)
    ensures CallerCleared(req, caller, profiles) && FieldsPresent(req.body) && !Truthy(apiKey)
      ==> f == Some(MisconfiguredMessage)
  {
    if !Truthy(req.authorization) then Some(MissingAuthMessage)
    else if caller.None? then Some(UnauthorizedMessage)
    else if !IsSuperAdminRow(ProfileById(profiles, caller.value)) then Some(NotSuperAdminMessage)
    else if req.body.Unreadable? then Some(req.body.reason)
    else if !Truthy(req.body.email) || !Truthy(req.body.role) || !Truthy(req.body.inviteLink) then Some(MissingFieldsMessage)
    else if !Truthy(apiKey) then Some(MisconfiguredMessage)
    else None
  }

  /** `profile?.role === "super_admin"`: only the role is looked at, not `is_active`. */
  predicate IsSuperAdminRow(profile: Option<Profile>)
    ensures IsSuperAdmin(profile) ==> IsSuperAdminRow(profile)
    ensures IsSuperAdminRow(profile) && Active(profile) ==> IsSuperAdmin(profile)
  {
    profile.Some? && profile.value.role == SuperAdmin
  }

  /** The email composed from a request that passed every check. */
  function Compose(body: Payload, profile: Option<Profile>): (e: Email)
    requires body.Payload? && body.email.Some? && body.role.Some? && body.inviteLink.Some?
    ensures e.to == body.email.value && e.link == body.inviteLink.value
    ensures e.roleName == RoleName(body.role.value) && |e.roleName| == |body.role.value|
    ensures StartsWith(e.subject, SubjectPrefix) && e.subject[|SubjectPrefix|..] == e.roleName
    ensures e.inviterName == InviterName(body.invitedByName, profile) && e.inviterName != ""
    ensures e.roleColor == RoleColor(body.role.value)
    ensures e.roleColor == ClientColor <==> body.role.value == Client
  {
    var roleName := RoleName(body.role.value);
    Email(body.email.value, Subject(roleName), InviterName(body.invitedByName, profile),
          roleName, RoleColor(body.role.value), body.inviteLink.value)
  }

  /** `Resend error (${status}): ${data.message || JSON.stringify(data)}` */
  function ProviderError(status: nat, message: Option<string>, rawBody: string): (text: string)
    ensures Contains(text, Decimal(status))
    ensures Truthy(message) ==> EndsWith(text, message.value)
    ensures !Truthy(message) ==> EndsWith(text, rawBody)
  {
    var detail := if Truthy(message) then message.value else rawBody;
    ContainsInfix("Resend error (", Decimal(status), "): " + detail);
    assert "Resend error (" + Decimal(status) + "): " + detail == "Resend error (" + Decimal(status) + ("): " + detail);
    "Resend error (" + Decimal(status) + "): " + detail
  }

  /** A refusal's error text carries the provider's status, in a form that reads back as that number. */
  lemma ProviderErrorNamesStatus(status: nat, message: Option<string>, rawBody: string)
    ensures Contains(ProviderError(status, message, rawBody), Decimal(status))
    ensures DecimalValue(Decimal(status)) == status
  {
    DecimalRoundTrip(status);
  }

  /** The response the provider's answer leads to. */
  function ProviderOutcome(reply: ProviderReply): (r: Response)
    ensures r.Failed? <==> !reply.Delivered?
    ensures reply.Delivered? ==> r == Sent(SentMessage, reply.id)
    ensures reply.Refused? ==> Contains(r.error, Decimal(reply.status))
    ensures reply.Unreachable? ==> r.error == reply.reason
  {
    match reply
    case Delivered(id) => Sent(SentMessage, id)
    case Refused(status, message, rawBody) => Failed(ProviderError(status, message, rawBody))
    case Unreachable(reason) => Failed(reason)
  }

  /**
   * The request handler. Returns the response and the email handed to the
   * provider, if the handler got that far.
   */
  method Handle(req: Request, caller: Option<string>, profiles: map<string, Profile>, apiKey: Option<string>, provider: ProviderReply)
    returns (resp: Response, sent: Option<Email>)
    ensures req.verb == "OPTIONS" ==> resp == Preflight && sent.None?
    ensures req.verb != "OPTIONS" && FirstFailure(req, caller, profiles, apiKey).Some? ==>
      resp == Failed(FirstFailure(req, caller, profiles, apiKey).value) && sent.None?
    ensures req.verb != "OPTIONS" && FirstFailure(req, caller, profiles, apiKey).None? ==>
      sent == Some(Compose(req.body, ProfileById(profiles, caller.value))) && resp == ProviderOutcome(provider)
    // Nothing reaches the provider unless the caller's profile says super_admin.
    ensures sent.Some? ==> caller.Some? && IsSuperAdminRow(ProfileById(profiles, caller.value))
  {
    if req.verb == "OPTIONS" {
      return Preflight, None;
    }
    if !Truthy(req.authorization) {
      return Failed(MissingAuthMessage), None;
    }
    if caller.None? {
      return Failed(UnauthorizedMessage), None;
    }
    var profile := ProfileById(profiles, caller.value);
    if !IsSuperAdminRow(profile) {
      return Failed(NotSuperAdminMessage), None;
    }
    if req.body.Unreadable? {
      return Failed(req.body.reason), None;
    }
    var body := req.body;
    if !Truthy(body.email) || !Truthy(body.role) || !Truthy(body.inviteLink) {
      return Failed(MissingFieldsMessage), None;
    }
    var email := Compose(body, profile);
    if !Truthy(apiKey) {
      return Failed(MisconfiguredMessage), None;
    }
    sent := Some(email);
    match provider {
      case Delivered(id) =>
        resp := Sent(SentMessage, id);
      case Refused(status, message, rawBody) =>
        resp := Failed(ProviderError(status, message, rawBody));
      case Unreachable(reason) =>
        resp := Failed(reason);
    }
  }

  /** A missing header is reported first, whoever the caller is and whatever the body holds. */
  lemma MissingHeaderReportedFirst(req: Request, caller: Option<string>, profiles: map<string, Profile>, apiKey: Option<string>)
    requires !Truthy(req.authorization)
    ensures FirstFailure(req, caller, profiles, apiKey) == Some(MissingAuthMessage)
  {
  }

  /** A caller that is not a super admin is refused before the body is read: the body makes no difference. */
  lemma RoleCheckedBeforeBody(req: Request, body: Payload, caller: Option<string>, profiles: map<string, Profile>, apiKey: Option<string>)
    requires Truthy(req.authorization) && caller.Some?
    requires !IsSuperAdminRow(ProfileById(profiles, caller.value))
    ensures FirstFailure(req, caller, profiles, apiKey) == Some(NotSuperAdminMessage)
    ensures FirstFailure(req.(body := body), caller, profiles, apiKey) == Some(NotSuperAdminMessage)
  {
  }

  /** The API key is checked last: without one, a request that passes every other check fails on the key, and any other keeps its error. */
  lemma KeyCheckedLast(req: Request, caller: Option<string>, profiles: map<string, Profile>, apiKey: string)
    requires apiKey != ""
    ensures FirstFailure(req, caller, profiles, Some(apiKey)).None? ==>
      FirstFailure(req, caller, profiles, None) == Some(MisconfiguredMessage)
    ensures FirstFailure(req, caller, profiles, Some(apiKey)).Some? ==>
      FirstFailure(req, caller, profiles, None) == FirstFailure(req, caller, profiles, Some(apiKey))
  {
  }

  /** The edge function checks the role only: a deactivated super admin can still send invites. */
  lemma InactiveSuperAdminPasses(req: Request, caller: string, profiles: map<string, Profile>, apiKey: Option<string>)
    requires Truthy(req.authorization) && Truthy(apiKey)
    requires req.body.Payload? && Truthy(req.body.email) && Truthy(req.body.role) && Truthy(req.body.inviteLink)
    requires caller in profiles && profiles[caller].role == SuperAdmin && profiles[caller].isActive == Flag(false)
    ensures FirstFailure(req, Some(caller), profiles, apiKey) == None
    ensures !IsSuperAdmin(Some(profiles[caller]))
  {
  }
}
