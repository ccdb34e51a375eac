/**
 * How the pieces fit together across pages: where the login page and the
 * account-creation page send a user, read through the route table and the
 * guard, and how an invite issued by the modal is later judged by the
 * account-creation page.
 */
module Journeys {
  import opened Wrappers
  import opened Roles
  import opened Backend
  import AppRoutes
  import ProtectedRoute
  import Login
  import CreateAccount
  import InviteModal

  /** The dashboard page a known role belongs on. */
  function DashboardOf(role: string): AppRoutes.Page
  {
    if role == SuperAdmin then AppRoutes.SuperAdminDashboard
    else if role == Admin then AppRoutes.AdminDashboard
    else AppRoutes.ClientDashboard
  }

  /** The signed-in state of an active user with profile `p`. */
  function SignedIn(p: Profile): AppRoutes.AuthState
  {
    AppRoutes.AuthState(false, true, Some(p))
  }

  /**
   * The login page sends an active user of a known role to a path the route
   * table lists, and the guard there shows that role's own dashboard.
   */
  lemma LoginLandsOnOwnDashboard(p: Profile)
    requires IsTruthy(p.isActive) && p.role in [SuperAdmin, Admin, Client]
    ensures Login.DashboardFor(p.role) in AppRoutes.ListedPaths
    ensures AppRoutes.Visit(Login.DashboardFor(p.role), SignedIn(p)) == AppRoutes.Shows(DashboardOf(p.role))
  {
  }

  /** A role the login page does not know is sent to the unauthorized page, which shows for anyone. */
  lemma UnknownRoleLandsOnUnauthorized(p: Profile)
    requires p.role !in [SuperAdmin, Admin, Client]
    ensures AppRoutes.Visit(Login.DashboardFor(p.role), SignedIn(p)) == AppRoutes.Shows(AppRoutes.UnauthorizedPage)
  {
  }

  /**
   * The account-creation page sends a new account to `/super-admin`,
   * `/admin`, `/client` or `/`, none of which shows a page: each redirects
   * to the login page, whose session check then sends the user to the
   * dashboard of their role.
   */
  lemma NewAccountDetoursThroughLogin(p: Profile)
    requires IsTruthy(p.isActive) && p.role in [SuperAdmin, Admin, Client]
    ensures CreateAccount.RouteForRole(p.role) !in AppRoutes.ListedPaths
    ensures AppRoutes.Visit(CreateAccount.RouteForRole(p.role), SignedIn(p)) == AppRoutes.Redirect(ProtectedRoute.LoginPath)
    ensures AppRoutes.Visit(ProtectedRoute.LoginPath, SignedIn(p)) == AppRoutes.Shows(AppRoutes.LoginPage)
    ensures Login.RedirectFor(Some(p)) == [Login.DashboardFor(p.role)]
    ensures AppRoutes.Visit(Login.DashboardFor(p.role), SignedIn(p)) == AppRoutes.Shows(DashboardOf(p.role))
  {
  }

  /**
   * The link the modal hands out, read back by the account-creation page
   * against the table the modal's insert left behind, is accepted up to and
   * including seven days after issue and reported expired afterwards; the
   * accepted invite carries the normalised email and the chosen role.
   */
  lemma IssuedLinkValidatesUntilExpiry(invites: map<string, Invite>, origin: string, email: string, role: string,
                                       token: string, invitedBy: string, issued: int, now: int)
    requires KeyedByToken(invites) && token != ""
    ensures var stored := invites[token := InviteModal.NewInvite(email, role, token, invitedBy, issued)];
      KeyedByToken(stored) &&
      var v := CreateAccount.Validate(InviteModal.TokenOfLink(origin, InviteModal.InviteLink(origin, token)), stored, now);
      (v.Accepted? <==> now <= issued + InviteModal.InviteLifetimeMs) &&
      (!v.Accepted? ==> v == CreateAccount.Expired) &&
      (v.Accepted? ==> v.invite.email == InviteModal.NormaliseEmail(email) && v.invite.role == role)
  {
    InviteModal.LinkCarriesStoredToken(origin, email, role, token, invitedBy, issued);
  }
}
