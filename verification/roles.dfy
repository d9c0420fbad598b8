/** The four staff roles. The source carries them as the strings "gestor",
    "medico", "enfermeiro" and "agente" (the options of the user form); the
    model keeps the strings wherever the source compares strings and uses this
    closed enumeration to quantify over "every role". */
module Roles {
  import opened Wrappers

  datatype Role = Gestor | Medico | Enfermeiro | Agente

  /** The string tag a role is stored under. */
  function Tag(r: Role): string
  {
    match r
    case Gestor => "gestor"
    case Medico => "medico"
    case Enfermeiro => "enfermeiro"
    case Agente => "agente"
  }

  /** Recognises a stored tag; anything else (including "") is not a role. */
  function Parse(s: string): (r: Option<Role>)
    ensures r.Some? ==> Tag(r.value) == s
    ensures r.None? ==> forall x: Role :: Tag(x) != s
  {
    if s == "gestor" then Some(Gestor)
    else if s == "medico" then Some(Medico)
    else if s == "enfermeiro" then Some(Enfermeiro)
    else if s == "agente" then Some(Agente)
    else None
  }

  predicate IsRoleTag(s: string)
  {
    Parse(s).Some?
  }

  /** Tags identify roles: parsing a tag gives back its role. */
  lemma ParseTag(r: Role)
    ensures Parse(Tag(r)) == Some(r)
  {
  }
}
