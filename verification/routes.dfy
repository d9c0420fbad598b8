/** The route table: every application path, whether it is public, and the
    role tags admitted to it. Its order is the order the routes are registered
    in; lookup is by path. */
module Routes {
  import opened Wrappers
  import opened Strings
  import opened Roles
  import Seqs

  datatype Route = Route(path: string, isPublic: bool, roles: seq<string>)

  const AllRoles: seq<string> := ["gestor", "medico", "enfermeiro", "agente"]

  const Table: seq<Route> := [
    Route("/", true, []),
    Route("/dashboard/gestor", false, ["gestor"]),
    Route("/dashboard/medico", false, ["medico"]),
    Route("/dashboard/profissional", false, ["agente", "enfermeiro"]),
    Route("/usuarios", false, ["gestor"]),
    Route("/utentes", false, AllRoles),
    Route("/triagens", false, AllRoles),
    Route("/consultas", false, AllRoles),
    Route("/prescricoes", false, ["medico"]),
    Route("/leituras-clinicas", false, AllRoles),
    Route("/relatorios", false, ["gestor"]),
    Route("/zonas", false, ["gestor"])
  ]

  /** First route of `table` registered under `path`, if any. */
  function Find(table: seq<Route>, path: string): (r: Option<Route>)
    ensures r.Some? ==> r.value in table && r.value.path == path
    ensures r.None? <==> forall i :: 0 <= i < |table| ==> table[i].path != path
  {
    if |table| == 0 then None
    else if table[0].path == path then Some(table[0])
    else Find(table[1..], path)
  }

  /** The route registered under `path` is protected and lists `papel`. */
  predicate Admits(path: string, papel: string)
  {
    exists i :: 0 <= i < |Table| && Table[i].path == path && Lists(Table[i], papel)
  }

  /** The route is protected and lists `papel`. */
  predicate Lists(rt: Route, papel: string)
  {
    !rt.isPublic && papel in rt.roles
  }

  /** Paths of the protected routes listing `papel`, in table order. */
  function AdmittedPaths(papel: string): seq<string>
  {
    var rs := Seqs.Filter(Table, (rt: Route) => Lists(rt, papel));
    seq(|rs|, i requires 0 <= i < |rs| => rs[i].path)
  }

  /** With unique paths, looking up the path of an entry finds that entry. */
  lemma {:induction false} FindUnique(table: seq<Route>, i: int)
    requires forall a, b :: 0 <= a < b < |table| ==> table[a].path != table[b].path
    requires 0 <= i < |table|
    ensures Find(table, table[i].path) == Some(table[i])
  {
    if i > 0 {
      assert table[0].path != table[i].path;
      assert table[1..][i - 1] == table[i];
      FindUnique(table[1..], i - 1);
    }
  }

  /** The admitted paths, as a set, are exactly the paths `Admits` accepts. */
  lemma AdmittedPathsSpec(papel: string)
    ensures forall p :: p in AdmittedPaths(papel) <==> Admits(p, papel)
  {
    forall p | p in AdmittedPaths(papel)
      ensures Admits(p, papel)
    {
      AdmittedPathAdmits(papel, p);
    }
    forall p | Admits(p, papel)
      ensures p in AdmittedPaths(papel)
    {
      AdmitsAdmittedPath(papel, p);
    }
  }

  lemma AdmittedPathAdmits(papel: string, p: string)
    requires p in AdmittedPaths(papel)
    ensures Admits(p, papel)
  {
    var rs := Seqs.Filter(Table, (rt: Route) => Lists(rt, papel));
    var ps := AdmittedPaths(papel);
    var k :| 0 <= k < |ps| && ps[k] == p;
    assert rs[k] in Table && Lists(rs[k], papel);
    var i :| 0 <= i < |Table| && Table[i] == rs[k];
  }

  lemma AdmitsAdmittedPath(papel: string, p: string)
    requires Admits(p, papel)
    ensures p in AdmittedPaths(papel)
  {
    var rs := Seqs.Filter(Table, (rt: Route) => Lists(rt, papel));
    var ps := AdmittedPaths(papel);
    var i :| 0 <= i < |Table| && Table[i].path == p && Lists(Table[i], papel);
    var k :| 0 <= k < |rs| && rs[k] == Table[i];
    assert ps[k] == p;
  }

  /** Looking up the path of a table entry finds that entry. */
  lemma AdmitsEntry(i: int, path: string, papel: string)
    requires 0 <= i < |Table| && Table[i].path == path
    ensures Admits(path, papel) <==> Lists(Table[i], papel)
  {
    TableWellFormed();
  }

  /** The startup validation the table passes: unique paths, exactly the root
      public, and every protected route admitting a non-empty list of
      recognised role tags. */
  predicate WellFormed(table: seq<Route>)
  {
    && (forall i, j :: 0 <= i < j < |table| ==> table[i].path != table[j].path)
    && (forall i :: 0 <= i < |table| ==> (table[i].isPublic <==> table[i].path == "/"))
    && (exists i :: 0 <= i < |table| && table[i].path == "/")
    && (forall i :: 0 <= i < |table| && !table[i].isPublic ==>
          |table[i].roles| > 0 && forall k :: 0 <= k < |table[i].roles| ==> IsRoleTag(table[i].roles[k]))
  }

  lemma TableWellFormed()
    ensures WellFormed(Table)
  {
    TablePathsDistinct();
    TableRootOnlyPublic();
    TableRolesRecognised();
  }

  lemma TablePathsDistinct()
    ensures forall i, j :: 0 <= i < j < |Table| ==> Table[i].path != Table[j].path
  {
  }

  lemma TableRootOnlyPublic()
    ensures forall i :: 0 <= i < |Table| ==> (Table[i].isPublic <==> Table[i].path == "/")
    ensures Table[0].path == "/"
  {
  }

  lemma TableRolesRecognised()
    ensures forall i :: 0 <= i < |Table| && !Table[i].isPublic ==>
              |Table[i].roles| > 0 && forall k :: 0 <= k < |Table[i].roles| ==> IsRoleTag(Table[i].roles[k])
  {
  }

  /** The dashboard each role is admitted to. */
  function DashboardOf(r: Role): string
  {
    match r
    case Gestor => "/dashboard/gestor"
    case Medico => "/dashboard/medico"
    case Enfermeiro => "/dashboard/profissional"
    case Agente => "/dashboard/profissional"
  }

  /** The table's "/dashboard/..." routes, in table order. */
  const DashboardPaths: seq<string> := ["/dashboard/gestor", "/dashboard/medico", "/dashboard/profissional"]

  /** Each role is admitted to exactly one of the dashboards, its own. */
  lemma OneDashboardPerRole(r: Role)
    ensures forall d :: d in DashboardPaths ==> (Admits(d, Tag(r)) <==> d == DashboardOf(r))
  {
    var papel := Tag(r);
    forall d | d in DashboardPaths
      ensures Admits(d, papel) <==> d == DashboardOf(r)
    {
      assert "/dashboard/gestor"[11] == 'g' && "/dashboard/medico"[11] == 'm' && "/dashboard/profissional"[11] == 'p';
      if d == "/dashboard/gestor" {
        AdmitsEntry(1, d, papel);
      } else if d == "/dashboard/medico" {
        AdmitsEntry(2, d, papel);
      } else {
        AdmitsEntry(3, d, papel);
      }
    }
  }

  /** Administration pages admit only the manager. */
  lemma GestorOnlyPaths(papel: string)
    ensures Admits("/dashboard/gestor", papel) <==> papel == "gestor"
    ensures Admits("/usuarios", papel) <==> papel == "gestor"
    ensures Admits("/relatorios", papel) <==> papel == "gestor"
    ensures Admits("/zonas", papel) <==> papel == "gestor"
  {
    AdmitsEntry(1, "/dashboard/gestor", papel);
    AdmitsEntry(4, "/usuarios", papel);
    AdmitsEntry(10, "/relatorios", papel);
    AdmitsEntry(11, "/zonas", papel);
  }

  /** The physician dashboard and prescriptions admit only the physician. */
  lemma MedicoOnlyPaths(papel: string)
    ensures Admits("/dashboard/medico", papel) <==> papel == "medico"
    ensures Admits("/prescricoes", papel) <==> papel == "medico"
  {
    AdmitsEntry(2, "/dashboard/medico", papel);
    AdmitsEntry(8, "/prescricoes", papel);
  }

  /** The professional dashboard admits the community agent and the nurse. */
  lemma ProfissionalPaths(papel: string)
    ensures Admits("/dashboard/profissional", papel) <==> papel in ["agente", "enfermeiro"]
  {
    AdmitsEntry(3, "/dashboard/profissional", papel);
  }

  /** The shared clinical pages admit exactly the four role tags. */
  lemma SharedPaths(papel: string)
    ensures Admits("/utentes", papel) <==> IsRoleTag(papel)
    ensures Admits("/triagens", papel) <==> IsRoleTag(papel)
    ensures Admits("/consultas", papel) <==> IsRoleTag(papel)
    ensures Admits("/leituras-clinicas", papel) <==> IsRoleTag(papel)
  {
    AdmitsEntry(5, "/utentes", papel);
    AdmitsEntry(6, "/triagens", papel);
    AdmitsEntry(7, "/consultas", papel);
    AdmitsEntry(9, "/leituras-clinicas", papel);
  }
}
