/** The server records the pages list, filter and count. Only the fields the
    modelled logic reads are kept. */
module Records {
  import opened Wrappers

  /** A patient. `contacto` may be missing from a record; `localizacao` is
      taken to be always present. */
  datatype Utente = Utente(
    id: int,
    nome: string,
    contacto: Option<string>,
    dataNascimento: Option<string>,
    sexo: string,
    localizacao: string,
    idLocal: Option<string>)

  /** An appointment; `profissionalId` is null for automatic allocation. */
  datatype Consulta = Consulta(
    id: int,
    profissionalId: Option<int>,
    realizada: bool,
    utente: Utente,
    tipo: string)

  /** A stored triage: who it is about, who entered it, and its result label. */
  datatype RegistoTriagem = RegistoTriagem(id: int, utenteId: int, inseridoPor: Option<int>, resultado: string)

  /** A clinical reading: who entered it and its timestamp text. */
  datatype Leitura = Leitura(id: int, inseridoPor: Option<int>, data: string)

  /** A physician as listed for scheduling. */
  datatype Medico = Medico(id: int, nome: string)
}
