/** The side menu: a hand-written role -> entries table, separate from the
    route table. It is only a convenience; the router's guards decide access. */
module SideBar {
  import opened Wrappers
  import opened Roles
  import opened Routes
  import App
  import Seqs

  datatype MenuItem = MenuItem(title: string, path: string)

  const GestorMenu: seq<MenuItem> := [
    MenuItem("Dashboard", "/dashboard/gestor"),
    MenuItem("Usuários", "/usuarios"),
    MenuItem("Utentes", "/utentes"),
    MenuItem("Triagem", "/triagens"),
    MenuItem("Consultas", "/consultas"),
    MenuItem("Leituras", "/leituras-clinicas"),
    MenuItem("Zonas", "/zonas"),
    MenuItem("Relatório", "/relatorios")
  ]

  const MedicoMenu: seq<MenuItem> := [
    MenuItem("Dashboard", "/dashboard/medico"),
    MenuItem("Utentes", "/utentes"),
    MenuItem("Triagem", "/triagens"),
    MenuItem("Consultas", "/consultas"),
    MenuItem("Prescrição", "/prescricoes"),
    MenuItem("Leituras", "/leituras-clinicas")
  ]

  const ProfissionalMenu: seq<MenuItem> := [
    MenuItem("Dashboard", "/dashboard/profissional"),
    MenuItem("Utentes", "/utentes"),
    MenuItem("Triagem", "/triagens"),
    MenuItem("Consultas", "/consultas"),
    MenuItem("Leituras", "/leituras-clinicas")
  ]

  /** `menuItems[papel] || []`: the entries for a role tag; no entries for
      anything else. */
  function MenuItems(papel: string): seq<MenuItem>
  {
    if papel == "gestor" then GestorMenu
    else if papel == "medico" then MedicoMenu
    else if papel == "enfermeiro" then ProfissionalMenu
    else if papel == "agente" then ProfissionalMenu
    else []
  }

  function ItemPath(it: MenuItem): string
  {
    it.path
  }

  function MenuPaths(papel: string): (ps: seq<string>)
    ensures |ps| == |MenuItems(papel)|
    ensures forall k :: 0 <= k < |ps| ==> ps[k] == MenuItems(papel)[k].path
  {
    var items := MenuItems(papel);
    seq(|items|, k requires 0 <= k < |items| => items[k].path)
  }

  /** The entries highlighted for the current location: those whose path equals it. */
  function ActiveItems(papel: string, pathname: string): seq<MenuItem>
  {
    Seqs.Filter(MenuItems(papel), (it: MenuItem) => ItemPath(it) == pathname)
  }

  /** An absent or unrecognised role gets no menu at all. */
  lemma UnknownRoleEmptyMenu(papel: string)
    requires !IsRoleTag(papel)
    ensures MenuItems(papel) == []
  {
  }

  /** The paths each role's menu shows are exactly the protected routes the
      table admits that role to. */
  lemma MenuMatchesTable(r: Role)
    ensures forall p :: p in MenuPaths(Tag(r)) <==> Admits(p, Tag(r))
  {
    forall p | Admits(p, Tag(r))
      ensures p in MenuPaths(Tag(r))
    {
      AdmittedInMenu(r, p);
    }
    forall p | p in MenuPaths(Tag(r))
      ensures Admits(p, Tag(r))
    {
      MenuEntryAdmitted(r, p);
    }
  }

  lemma AdmittedInMenu(r: Role, p: string)
    requires Admits(p, Tag(r))
    ensures p in MenuPaths(Tag(r))
  {
    var i :| 0 <= i < |Table| && Table[i].path == p && Lists(Table[i], Tag(r));
    ListedInMenu(r, i);
  }

  lemma MenuEntryAdmitted(r: Role, p: string)
    requires p in MenuPaths(Tag(r))
    ensures Admits(p, Tag(r))
  {
    var k :| 0 <= k < |MenuPaths(Tag(r))| && MenuPaths(Tag(r))[k] == p;
    var i := TableIndexOf(r, k);
  }

  /** A route listing a role shows up in that role's menu. */
  lemma ListedInMenu(r: Role, i: int)
    requires 0 <= i < |Table| && Lists(Table[i], Tag(r))
    ensures Table[i].path in MenuPaths(Tag(r))
  {
    match r
    case Gestor => GestorListed(i);
    case Medico => MedicoListed(i);
    case Enfermeiro => ProfissionalListed("enfermeiro", i);
    case Agente => ProfissionalListed("agente", i);
  }

  lemma GestorListed(i: int)
    requires 0 <= i < |Table| && Lists(Table[i], "gestor")
    ensures Table[i].path in MenuPaths("gestor")
  {
    assert i in {1, 4, 5, 6, 7, 9, 10, 11};
    assert MenuPaths("gestor") == ["/dashboard/gestor", "/usuarios", "/utentes", "/triagens", "/consultas", "/leituras-clinicas", "/zonas", "/relatorios"];
  }

  lemma MedicoListed(i: int)
    requires 0 <= i < |Table| && Lists(Table[i], "medico")
    ensures Table[i].path in MenuPaths("medico")
  {
    assert i in {2, 5, 6, 7, 8, 9};
    assert MenuPaths("medico") == ["/dashboard/medico", "/utentes", "/triagens", "/consultas", "/prescricoes", "/leituras-clinicas"];
  }

  lemma ProfissionalListed(papel: string, i: int)
    requires papel == "enfermeiro" || papel == "agente"
    requires 0 <= i < |Table| && Lists(Table[i], papel)
    ensures Table[i].path in MenuPaths(papel)
  {
    assert i in {3, 5, 6, 7, 9};
    assert MenuPaths(papel) == ["/dashboard/profissional", "/utentes", "/triagens", "/consultas", "/leituras-clinicas"];
  }

  /** Where each menu entry sits in the route table. */
  function TableIndexOf(r: Role, k: int): (i: int)
    requires 0 <= k < |MenuItems(Tag(r))|
    ensures 0 <= i < |Table| && Table[i].path == MenuItems(Tag(r))[k].path && Lists(Table[i], Tag(r))
  {
    match r
    case Gestor => [1, 4, 5, 6, 7, 9, 11, 10][k]
    case Medico => [2, 5, 6, 7, 8, 9][k]
    case Enfermeiro => [3, 5, 6, 7, 9][k]
    case Agente => [3, 5, 6, 7, 9][k]
  }

  /** Every menu entry leads to a page the router lets that role into. */
  lemma MenuWithinAuthorization(r: Role)
    ensures forall k :: 0 <= k < |MenuItems(Tag(r))| ==> App.Reachable(Some(Tag(r)), MenuItems(Tag(r))[k].path)
  {
    MenuMatchesTable(r);
    forall k | 0 <= k < |MenuItems(Tag(r))|
      ensures App.Reachable(Some(Tag(r)), MenuItems(Tag(r))[k].path)
    {
      var p := MenuItems(Tag(r))[k].path;
      assert p == MenuPaths(Tag(r))[k];
      assert p != "/";
      App.ReachableIffAdmits(Tag(r), p);
    }
  }

  /** The manager's menu lists "Zonas" before "Relatório", the reverse of the
      route table's order. */
  lemma GestorOrderDiffers()
    ensures MenuPaths("gestor")[6] == "/zonas" && MenuPaths("gestor")[7] == "/relatorios"
    ensures Table[10].path == "/relatorios" && Table[11].path == "/zonas"
  {
  }

  /** Each role's first entry is its own dashboard. */
  lemma FirstEntryIsDashboard(r: Role)
    ensures |MenuItems(Tag(r))| > 0 && MenuItems(Tag(r))[0].path == DashboardOf(r)
  {
  }

  /** Nurse and community agent see the same menu. */
  lemma NurseAndAgentMenusAgree()
    ensures MenuItems("enfermeiro") == MenuItems("agente")
  {
  }

  /** Within a menu no path repeats, so at most one entry is highlighted. */
  lemma AtMostOneActive(papel: string, pathname: string)
    ensures Seqs.DistinctKeys(MenuItems(papel), ItemPath)
    ensures |ActiveItems(papel, pathname)| <= 1
  {
    MenuPathsDistinct(papel);
    Seqs.DistinctKeysFilterAtMostOne(MenuItems(papel), ItemPath, pathname, (it: MenuItem) => ItemPath(it) == pathname);
  }

  lemma MenuPathsDistinct(papel: string)
    ensures Seqs.DistinctKeys(MenuItems(papel), ItemPath)
  {
    assert Seqs.DistinctKeys(GestorMenu, ItemPath);
    assert Seqs.DistinctKeys(MedicoMenu, ItemPath);
    assert Seqs.DistinctKeys(ProfissionalMenu, ItemPath);
  }
}
