/** The two patient searches the pages use: by contact number only, and by
    name (case-insensitive) or contact number. */
module Search {
  import opened Wrappers
  import opened Strings
  import opened Records
  import Seqs

  /** `u.contacto?.includes(q)`: a missing contact never matches. */
  predicate ContactoMatches(u: Utente, q: string)
  {
    u.contacto.Some? && Contains(u.contacto.value, q)
  }

  /** `u.nome.toLowerCase().includes(q.toLowerCase()) || u.contacto.includes(q)`. */
  predicate NomeOuContactoMatches(u: Utente, q: string)
  {
    Contains(ToLower(u.nome), ToLower(q)) || (u.contacto.Some? && Contains(u.contacto.value, q))
  }

  /** The contact search keeps, in order, exactly the patients whose contact
      contains the query; patients without a contact are dropped. */
  function ByContacto(us: seq<Utente>, q: string): (r: seq<Utente>)
    ensures forall i :: 0 <= i < |r| ==> r[i] in us && r[i].contacto.Some? && Contains(r[i].contacto.value, q)
    ensures forall i :: 0 <= i < |us| && us[i].contacto.Some? && Contains(us[i].contacto.value, q) ==> us[i] in r
    ensures forall u :: multiset(r)[u] == if ContactoMatches(u, q) then multiset(us)[u] else 0
  {
    Seqs.FilterMultiset(us, (u: Utente) => ContactoMatches(u, q));
    Seqs.Filter(us, (u: Utente) => ContactoMatches(u, q))
  }

  /** The contact search keeps the input's order: nothing is listed for no
      patients, and a patient added at the end is listed last exactly when it
      matches. */
  lemma ByContactoInOrder(us: seq<Utente>, u: Utente, q: string)
    ensures ByContacto([], q) == []
    ensures ByContacto(us + [u], q) == ByContacto(us, q) + (if ContactoMatches(u, q) then [u] else [])
  {
    Seqs.FilterSnoc(us, u, (v: Utente) => ContactoMatches(v, q));
  }

  /** The name-or-contact search reads `contacto` without a null check, but
      only when the name misses: so every patient whose name does not match
      the query must have a contact. */
  predicate ContactoReadable(us: seq<Utente>, q: string)
  {
    forall i :: 0 <= i < |us| ==> Contains(ToLower(us[i].nome), ToLower(q)) || us[i].contacto.Some?
  }

  /** The name-or-contact search keeps, in order, exactly the patients whose
      lower-cased name contains the lower-cased query or whose contact
      contains the query. */
  function ByNomeOuContacto(us: seq<Utente>, q: string): (r: seq<Utente>)
    requires ContactoReadable(us, q)
    ensures forall i :: 0 <= i < |r| ==>
              && r[i] in us
              && (Contains(ToLower(r[i].nome), ToLower(q)) || (r[i].contacto.Some? && Contains(r[i].contacto.value, q)))
    ensures forall i :: 0 <= i < |us| ==>
              (Contains(ToLower(us[i].nome), ToLower(q)) || (us[i].contacto.Some? && Contains(us[i].contacto.value, q))) ==> us[i] in r
    ensures forall u :: multiset(r)[u] == if NomeOuContactoMatches(u, q) then multiset(us)[u] else 0
  {
    Seqs.FilterMultiset(us, (u: Utente) => NomeOuContactoMatches(u, q));
    Seqs.Filter(us, (u: Utente) => NomeOuContactoMatches(u, q))
  }

  /** The name-or-contact search keeps the input's order: a patient added at
      the end (with a contact, or a matching name) is listed last exactly
      when it matches. */
  lemma ByNomeOuContactoInOrder(us: seq<Utente>, u: Utente, q: string)
    requires ContactoReadable(us, q)
    requires Contains(ToLower(u.nome), ToLower(q)) || u.contacto.Some?
    ensures ByNomeOuContacto([], q) == []
    ensures ContactoReadable(us + [u], q) &&
            ByNomeOuContacto(us + [u], q) == ByNomeOuContacto(us, q) + (if NomeOuContactoMatches(u, q) then [u] else [])
  {
    assert forall i :: 0 <= i < |us| ==> (us + [u])[i] == us[i];
    Seqs.FilterSnoc(us, u, (v: Utente) => NomeOuContactoMatches(v, q));
  }

  /** With the empty query, every patient with a contact is listed. */
  lemma ByContactoEmptyQuery(us: seq<Utente>)
    ensures ByContacto(us, "") == Seqs.Filter(us, (u: Utente) => u.contacto.Some?)
  {
    forall u: Utente | u.contacto.Some? { ContainsEmpty(u.contacto.value); }
    Seqs.FilterCongruent(us, (u: Utente) => ContactoMatches(u, ""), (u: Utente) => u.contacto.Some?);
  }

  /** With the empty query, the name-or-contact search keeps everything. */
  lemma ByNomeOuContactoEmptyQuery(us: seq<Utente>)
    ensures ContactoReadable(us, "") && ByNomeOuContacto(us, "") == us
  {
    forall u: Utente { ContainsEmpty(ToLower(u.nome)); }
    Seqs.FilterAll(us, (u: Utente) => NomeOuContactoMatches(u, ""));
  }
}
