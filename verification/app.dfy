/** How the application registers the route table with the router: the root
    path is registered on its own, outside any access guard; every other route
    of the table is registered inside an authentication-only guard that wraps
    a second guard given exactly that route's role list; anything else falls to
    the not-found element. The guard component itself is not part of this
    model: it is represented only by the predicate "the session's role is in
    the guard's role list", with no claim about whether a refusal redirects or
    denies. */
module App {
  import opened Wrappers
  import opened Routes
  import Seqs

  /** One access guard: `None` checks authentication only. */
  datatype Guard = Guard(allowedRoles: Option<seq<string>>)

  /** What the router renders for a path. */
  datatype Element =
    | LoginElement
    | Protected(guards: seq<Guard>, route: Route)
    | NotFound

  predicate NotPublic(rt: Route)
  {
    !rt.isPublic
  }

  function PathOf(rt: Route): string
  {
    rt.path
  }

  /** The routes registered inside the guards: the table without its public routes. */
  function ProtectedRoutes(): (rs: seq<Route>)
    ensures forall k :: 0 <= k < |rs| ==> rs[k] in Table && !rs[k].isPublic
    ensures forall i :: 0 <= i < |Table| && !Table[i].isPublic ==> Table[i] in rs
  {
    Seqs.Filter(Table, NotPublic)
  }

  /** The router's choice for `pathname`. */
  function Resolve(pathname: string): (e: Element)
    ensures e == LoginElement <==> pathname == "/"
    ensures e.Protected? ==> e.route in ProtectedRoutes() && e.route.path == pathname
    ensures e.Protected? ==> e.guards == [Guard(None), Guard(Some(e.route.roles))]
  {
    if pathname == "/" then LoginElement
    else
      match Find(ProtectedRoutes(), pathname)
      case Some(rt) => Protected([Guard(None), Guard(Some(rt.roles))], rt)
      case None => NotFound
  }

  /** A guard lets a session with role tag `papel` through. */
  predicate GuardAdmits(g: Guard, papel: string)
  {
    g.allowedRoles.None? || papel in g.allowedRoles.value
  }

  /** The page element for `pathname` is rendered for `session` (the role tag of
      the authenticated user, `None` when nobody is logged in): the root always,
      a protected route when every guard around it lets the session through,
      the not-found element never counts as a page. */
  predicate Reachable(session: Option<string>, pathname: string)
  {
    Renders(Resolve(pathname), session)
  }

  /** The element shows a page to `session`. */
  predicate Renders(e: Element, session: Option<string>)
  {
    match e
    case LoginElement => true
    case Protected(guards, _) =>
      session.Some? && forall k :: 0 <= k < |guards| ==> GuardAdmits(guards[k], session.value)
    case NotFound => false
  }

  /** The protected list never contains the root, and its paths are distinct,
      so no path is registered twice. */
  lemma ProtectedRegisteredOnce()
    ensures forall k :: 0 <= k < |ProtectedRoutes()| ==> ProtectedRoutes()[k].path != "/"
    ensures Seqs.DistinctKeys(ProtectedRoutes(), PathOf)
  {
    TableWellFormed();
    assert Seqs.DistinctKeys(Table, PathOf);
    Seqs.FilterKeepsDistinct(Table, NotPublic, PathOf);
  }

  /** The root is the login page, whatever the session. */
  lemma RootIsPublic(session: Option<string>)
    ensures Resolve("/") == LoginElement
    ensures Reachable(session, "/")
  {
  }

  /** Every protected route of the table is registered under its path, wrapped
      by an authentication-only guard and a guard holding exactly its roles. */
  lemma ProtectedWrapping(i: int)
    requires 0 <= i < |Table| && !Table[i].isPublic
    ensures Resolve(Table[i].path) == Protected([Guard(None), Guard(Some(Table[i].roles))], Table[i])
  {
    TableWellFormed();
    ProtectedRegisteredOnce();
    var rs := ProtectedRoutes();
    var k :| 0 <= k < |rs| && rs[k] == Table[i];
    FindUnique(rs, k);
  }

  /** A path that no table entry carries renders the not-found element. */
  lemma UnknownIsNotFound(pathname: string)
    requires forall i :: 0 <= i < |Table| ==> Table[i].path != pathname
    ensures Resolve(pathname) == NotFound
    ensures forall session :: !Reachable(session, pathname)
  {
    TableWellFormed();
    assert Table[0].path == "/";
    var rs := ProtectedRoutes();
    forall k | 0 <= k < |rs|
      ensures rs[k].path != pathname
    {
      var i :| 0 <= i < |Table| && Table[i] == rs[k];
    }
  }

  /** The login redirect target of the page guards and the "new patient" quick
      link are not in the table, so both render the not-found element. */
  lemma DanglingPaths()
    ensures Resolve("/login") == NotFound
    ensures Resolve("/utentes/criar") == NotFound
  {
    LoginNotInTable();
    UnknownIsNotFound("/login");
    NewPatientNotInTable();
    UnknownIsNotFound("/utentes/criar");
  }

  lemma LoginNotInTable()
    ensures forall i :: 0 <= i < |Table| ==> Table[i].path != "/login"
  {
    forall i | 0 <= i < |Table|
      ensures Table[i].path != "/login"
    {
      if i == 11 {
        assert Table[i].path[1] != "/login"[1];
      } else {
        assert |Table[i].path| != |"/login"|;
      }
    }
  }

  lemma NewPatientNotInTable()
    ensures forall i :: 0 <= i < |Table| ==> Table[i].path != "/utentes/criar"
  {
    forall i | 0 <= i < |Table|
      ensures Table[i].path != "/utentes/criar"
    {
      assert |Table[i].path| != |"/utentes/criar"|;
    }
  }

  /** The guards around a protected route let exactly its listed roles through. */
  lemma ReachableAt(i: int, papel: string)
    requires 0 <= i < |Table| && !Table[i].isPublic
    ensures Reachable(Some(papel), Table[i].path) <==> papel in Table[i].roles
  {
    ProtectedWrapping(i);
    GuardsAroundRoute(Table[i], papel);
  }

  /** A path wrapped in the two guards of a route admits the route's roles. */
  lemma GuardsAroundRoute(rt: Route, papel: string)
    ensures Renders(Protected([Guard(None), Guard(Some(rt.roles))], rt), Some(papel)) <==> papel in rt.roles
  {
    var gs := [Guard(None), Guard(Some(rt.roles))];
    assert GuardAdmits(gs[0], papel);
    assert GuardAdmits(gs[1], papel) <==> papel in rt.roles;
  }

  /** For every path but the root, passing the guards is exactly being listed
      by the table entry of that path. */
  lemma ReachableIffAdmits(papel: string, pathname: string)
    requires pathname != "/"
    ensures Reachable(Some(papel), pathname) <==> Admits(pathname, papel)
  {
    TableWellFormed();
    if i :| 0 <= i < |Table| && Table[i].path == pathname {
      ReachableAt(i, papel);
      AdmitsEntry(i, pathname, papel);
    } else {
      UnknownIsNotFound(pathname);
    }
  }

  /** Without a session, only the root renders a page. */
  lemma LoggedOutReachesOnlyRoot(pathname: string)
    requires Reachable(None, pathname)
    ensures pathname == "/"
  {
  }
}
