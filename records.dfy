/**
 * The rows of the three tables created by `init_db`, the row shape of the
 * appointment listing's join, and the errors the record store raises.
 */
module Records {
  import opened Wrappers
  import opened Tables

  /** A row of `medico` (id INTEGER PRIMARY KEY AUTOINCREMENT, nome NOT NULL,
      especialidade, telefone). */
  datatype Medico = Medico(id: int, nome: string, especialidade: string, telefone: string)

  /** A row of `paciente` (id, nome NOT NULL, cpf, telefone). */
  datatype Paciente = Paciente(id: int, nome: string, cpf: string, telefone: string)

  /** A row of `consulta`; `medicoId` and `pacienteId` are foreign keys into
      `medico` and `paciente` with ON DELETE CASCADE. */
  datatype Consulta = Consulta(id: int, medicoId: int, pacienteId: int, datahora: string, motivo: string)

  /** A row of `listar_consultas`: the appointment's columns with the names
      of its doctor and patient. */
  datatype ConsultaRow = ConsultaRow(
    id: int, datahora: string, motivo: string,
    medicoId: int, medicoNome: string,
    pacienteId: int, pacienteNome: string)

  datatype Error =
    | NomeMedicoObrigatorio      // ValueError("Nome do médico é obrigatório")
    | NomePacienteObrigatorio    // ValueError("Nome do paciente é obrigatório")
    | DataHoraInvalida           // ValueError("Data/hora inválida. ...")
    | ForeignKeyFalhou           // sqlite3.IntegrityError: FOREIGN KEY constraint failed
    | TabelaCheia                // sqlite3.OperationalError: database or disk is full
    | DataInvalida               // ValueError from strptime(cpf, "%Y-%m-%d") in the patient form
    | SelecaoObrigatoria         // warning "Escolha um médico e um paciente"
    | IdInvalido                 // ValueError from int() on a combobox label

  /** The result of a mutating call: it returns normally, or raises. */
  datatype Outcome = Ok | Fail(error: Error)

  // Column projections, used as keys of the generic table operations.
  function MedicoId(m: Medico): int { m.id }
  function MedicoNome(m: Medico): string { m.nome }
  function PacienteId(p: Paciente): int { p.id }
  function PacienteNome(p: Paciente): string { p.nome }
  function ConsultaId(c: Consulta): int { c.id }
  function ConsultaMedico(c: Consulta): int { c.medicoId }
  function ConsultaPaciente(c: Consulta): int { c.pacienteId }
  function RowDataHora(r: ConsultaRow): string { r.datahora }

  /** The joined row for one appointment, its doctor and its patient. */
  function RowFor(c: Consulta, m: Medico, p: Paciente): ConsultaRow {
    ConsultaRow(c.id, c.datahora, c.motivo, m.id, m.nome, p.id, p.nome)
  }

  /** `consulta c JOIN medico m ON c.medico_id = m.id JOIN paciente p ON
      c.paciente_id = p.id`, before ordering. Ids are primary keys, so each
      appointment matches at most one doctor and one patient; an appointment
      without both yields no row (an inner join). */
  function Join(cs: seq<Consulta>, ms: seq<Medico>, ps: seq<Paciente>): (r: seq<ConsultaRow>)
    ensures |r| <= |cs|
    ensures forall row :: row in r ==>
              && FindBy(ms, MedicoId, row.medicoId).Some?
              && FindBy(ms, MedicoId, row.medicoId).value.nome == row.medicoNome
              && FindBy(ps, PacienteId, row.pacienteId).Some?
              && FindBy(ps, PacienteId, row.pacienteId).value.nome == row.pacienteNome
  {
    if cs == [] then []
    else
      var c := cs[0];
      var rest := Join(cs[1..], ms, ps);
      match (FindBy(ms, MedicoId, c.medicoId), FindBy(ps, PacienteId, c.pacienteId))
      case (Some(m), Some(p)) => [RowFor(c, m, p)] + rest
      case _ => rest
  }

  /** When every appointment's references resolve, the join drops nothing:
      row `i` is appointment `i` with the names of its doctor and patient. */
  lemma {:induction false} JoinTotal(cs: seq<Consulta>, ms: seq<Medico>, ps: seq<Paciente>)
    requires forall c :: c in cs ==> c.medicoId in Keys(ms, MedicoId) && c.pacienteId in Keys(ps, PacienteId)
    ensures |Join(cs, ms, ps)| == |cs|
    ensures forall i :: 0 <= i < |cs| ==>
              Join(cs, ms, ps)[i] == RowFor(cs[i], FindBy(ms, MedicoId, cs[i].medicoId).value,
                                            FindBy(ps, PacienteId, cs[i].pacienteId).value)
  {
    if cs != [] {
      assert cs[0] in cs;
      JoinTotal(cs[1..], ms, ps);
      var r := Join(cs, ms, ps);
      forall i | 0 < i < |cs| ensures r[i] == Join(cs[1..], ms, ps)[i - 1] {
      }
    }
  }
}
