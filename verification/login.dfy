/** What the login page does once the server accepts the credentials: it
    stores the session, then navigates to the landing page of the user's role. */
module Login {
  import opened Wrappers
  import opened Roles
  import opened Routes
  import opened Common
  import App
  import SideBar

  /** The landing page chosen by role tag; anything else goes back to the root. */
  function LandingPath(papel: string): (lp: string)
    ensures lp != "/" <==> IsRoleTag(papel)
  {
    if papel == "gestor" then "/dashboard/gestor"
    else if papel == "medico" then "/dashboard/medico"
    else if papel in ["agente", "enfermeiro"] then "/dashboard/profissional"
    else "/"
  }

  /** What the login handler does, in order. */
  datatype Effect = StoreSession(token: string, usuario: Usuario) | Navigate(path: string)

  /** The outcome of submitting the login form: the effects performed, or the
      error message shown. */
  datatype LoginResult = LoggedIn(effects: seq<Effect>) | LoginError(erro: string)

  /** Handles the server's answer. On success the session is stored first and
      the single navigation that follows goes to the role's landing page,
      which the stored role can reach; on failure nothing is stored and a
      message is shown. */
  function OnLoginResponse(response: ApiOutcome, token: string, usuario: Usuario): (r: LoginResult)
    ensures r.LoggedIn? <==> response.Ok?
    ensures r.LoggedIn? ==> |r.effects| == 2 && r.effects[0] == StoreSession(token, usuario)
    ensures r.LoggedIn? ==> r.effects[1].Navigate? && App.Reachable(Some(usuario.papel), r.effects[1].path)
    ensures r.LoggedIn? ==> r.effects[1] == Navigate(LandingPath(usuario.papel))
    ensures response.Failed? ==> r == LoginError(ErrorText(response.serverError, "Erro ao fazer login"))
  {
    match response
    case Ok =>
      LandingReachable(usuario.papel);
      LoggedIn([StoreSession(token, usuario), Navigate(LandingPath(usuario.papel))])
    case Failed(serverError) =>
      LoginError(ErrorText(serverError, "Erro ao fazer login"))
  }

  /** Every role tag lands on its own dashboard; any other value lands on the root. */
  lemma LandingIsDashboard(papel: string)
    ensures Parse(papel).Some? ==> LandingPath(papel) == DashboardOf(Parse(papel).value)
    ensures Parse(papel).None? ==> LandingPath(papel) == "/"
  {
  }

  /** The landing page always renders for the role that was just stored. */
  lemma LandingReachable(papel: string)
    ensures App.Reachable(Some(papel), LandingPath(papel))
  {
    LandingIsDashboard(papel);
    if r :| Parse(papel) == Some(r) {
      OneDashboardPerRole(r);
      App.ReachableIffAdmits(papel, LandingPath(papel));
    }
  }

  /** For each role the landing page is also the first entry of its menu. */
  lemma LandingIsFirstMenuEntry(r: Role)
    ensures LandingPath(Tag(r)) == SideBar.MenuItems(Tag(r))[0].path
  {
    SideBar.FirstEntryIsDashboard(r);
  }
}
