/**
 * The record store: the three tables `medico`, `paciente` and `consulta` as
 * `init_db` creates them, with foreign keys enforced on every connection, and
 * the insert, list and delete operations over them. Each operation is one
 * atomic step on the store.
 */
module Agenda {
  import opened Text
  import opened Calendar
  import opened Tables
  import opened Sorting
  import opened Records

  /** The largest rowid SQLite can hand out, 2^63 - 1. */
  const MaxRowId: int := 0x7FFF_FFFF_FFFF_FFFF

  /** A doctor row as `inserir_medico` leaves it: a non-empty name and
      every field stripped (`Trimmed`; stripping it again changes nothing,
      by `TrimTrimmed`). */
  predicate MedicoStored(m: Medico) {
    m.nome != [] && Trimmed(m.nome) && Trimmed(m.especialidade) && Trimmed(m.telefone)
  }

  predicate PacienteStored(p: Paciente) {
    p.nome != [] && Trimmed(p.nome) && Trimmed(p.cpf) && Trimmed(p.telefone)
  }

  /** An appointment row as `inserir_consulta` leaves it: a valid date-time
      and a stripped reason. */
  predicate ConsultaStored(c: Consulta) {
    DateTimeOk(c.datahora) && Trimmed(c.motivo)
  }

  /** One table's invariant: unique ascending ids in `1..last`, and every
      row in its stored form. */
  predicate MedicosOk(ms: seq<Medico>, last: int) {
    Ascending(ms, MedicoId) && KeysUpTo(ms, MedicoId, last) && forall m :: m in ms ==> MedicoStored(m)
  }

  predicate PacientesOk(ps: seq<Paciente>, last: int) {
    Ascending(ps, PacienteId) && KeysUpTo(ps, PacienteId, last) && forall p :: p in ps ==> PacienteStored(p)
  }

  predicate ConsultasOk(cs: seq<Consulta>, last: int) {
    Ascending(cs, ConsultaId) && KeysUpTo(cs, ConsultaId, last) && forall c :: c in cs ==> ConsultaStored(c)
  }

  /** The two foreign keys of `consulta`: every appointment refers to an
      existing doctor and an existing patient. */
  predicate ReferencesOk(cs: seq<Consulta>, ms: seq<Medico>, ps: seq<Paciente>) {
    forall c :: c in cs ==> c.medicoId in Keys(ms, MedicoId) && c.pacienteId in Keys(ps, PacienteId)
  }

  lemma MedicosAppend(ms: seq<Medico>, last: int, m: Medico)
    requires 0 <= last && MedicosOk(ms, last) && m.id == last + 1 && MedicoStored(m)
    ensures MedicosOk(ms + [m], last + 1)
  {
    forall i, j | 0 <= i < j < |ms + [m]| ensures MedicoId((ms + [m])[i]) < MedicoId((ms + [m])[j]) {
      assert (ms + [m])[i] in ms;
    }
  }

  lemma PacientesAppend(ps: seq<Paciente>, last: int, p: Paciente)
    requires 0 <= last && PacientesOk(ps, last) && p.id == last + 1 && PacienteStored(p)
    ensures PacientesOk(ps + [p], last + 1)
  {
    forall i, j | 0 <= i < j < |ps + [p]| ensures PacienteId((ps + [p])[i]) < PacienteId((ps + [p])[j]) {
      assert (ps + [p])[i] in ps;
    }
  }

  lemma ConsultasAppend(cs: seq<Consulta>, last: int, c: Consulta)
    requires 0 <= last && ConsultasOk(cs, last) && c.id == last + 1 && ConsultaStored(c)
    ensures ConsultasOk(cs + [c], last + 1)
  {
    forall i, j | 0 <= i < j < |cs + [c]| ensures ConsultaId((cs + [c])[i]) < ConsultaId((cs + [c])[j]) {
      assert (cs + [c])[i] in cs;
    }
  }

  /** A new doctor or patient cannot break a reference. */
  lemma ReferencesGrow(cs: seq<Consulta>, ms: seq<Medico>, ps: seq<Paciente>, m: Medico, p: Paciente)
    requires ReferencesOk(cs, ms, ps)
    ensures ReferencesOk(cs, ms + [m], ps) && ReferencesOk(cs, ms, ps + [p])
  {
    KeysAppend(ms, MedicoId, m);
    KeysAppend(ps, PacienteId, p);
  }

  /** A new appointment whose doctor and patient exist keeps the references. */
  lemma ReferencesAppend(cs: seq<Consulta>, ms: seq<Medico>, ps: seq<Paciente>, c: Consulta)
    requires ReferencesOk(cs, ms, ps)
    requires c.medicoId in Keys(ms, MedicoId) && c.pacienteId in Keys(ps, PacienteId)
    ensures ReferencesOk(cs + [c], ms, ps)
  {
  }

  /** Deleting a doctor together with its appointments keeps the references. */
  lemma ReferencesCascadeMedico(cs: seq<Consulta>, ms: seq<Medico>, ps: seq<Paciente>, id: int)
    requires ReferencesOk(cs, ms, ps)
    ensures ReferencesOk(Without(cs, ConsultaMedico, id), Without(ms, MedicoId, id), ps)
  {
    KeysWithout(ms, MedicoId, id);
  }

  lemma ReferencesCascadePaciente(cs: seq<Consulta>, ms: seq<Medico>, ps: seq<Paciente>, id: int)
    requires ReferencesOk(cs, ms, ps)
    ensures ReferencesOk(Without(cs, ConsultaPaciente, id), ms, Without(ps, PacienteId, id))
  {
    KeysWithout(ps, PacienteId, id);
  }

  lemma ReferencesDropConsulta(cs: seq<Consulta>, ms: seq<Medico>, ps: seq<Paciente>, id: int)
    requires ReferencesOk(cs, ms, ps)
    ensures ReferencesOk(Without(cs, ConsultaId, id), ms, ps)
  {
  }

  lemma MedicosWithout(ms: seq<Medico>, last: int, id: int)
    requires MedicosOk(ms, last)
    ensures MedicosOk(Without(ms, MedicoId, id), last)
  {
    WithoutAscending(ms, MedicoId, id, MedicoId);
  }

  lemma PacientesWithout(ps: seq<Paciente>, last: int, id: int)
    requires PacientesOk(ps, last)
    ensures PacientesOk(Without(ps, PacienteId, id), last)
  {
    WithoutAscending(ps, PacienteId, id, PacienteId);
  }

  /** Any filter of the appointment table keeps its invariant. */
  lemma ConsultasWithout(cs: seq<Consulta>, last: int, key: Consulta -> int, id: int)
    requires ConsultasOk(cs, last)
    ensures ConsultasOk(Without(cs, key, id), last)
  {
    WithoutAscending(cs, key, id, ConsultaId);
  }

  class Store {
    var medicos: seq<Medico>
    var pacientes: seq<Paciente>
    var consultas: seq<Consulta>
    // The `sqlite_sequence` entry of each table: the largest id AUTOINCREMENT
    // has handed out in it so far (0 before the first insert).
    var seqMedico: int
    var seqPaciente: int
    var seqConsulta: int

    /** The schema's constraints together with what the inserts guarantee:
        ids are unique, positive and never above their table's sequence
        entry; the foreign keys hold; names are non-empty and every text
        field stripped; every stored date-time is valid. */
    ghost predicate Valid()
      reads this
    {
      && 0 <= seqMedico <= MaxRowId && 0 <= seqPaciente <= MaxRowId && 0 <= seqConsulta <= MaxRowId
      && MedicosOk(medicos, seqMedico)
      && PacientesOk(pacientes, seqPaciente)
      && ConsultasOk(consultas, seqConsulta)
      && ReferencesOk(consultas, medicos, pacientes)
    }

    predicate HasMedico(id: int)
      reads this
    {
      id in Keys(medicos, MedicoId)
    }

    predicate HasPaciente(id: int)
      reads this
    {
      id in Keys(pacientes, PacienteId)
    }

    predicate HasConsulta(id: int)
      reads this
    {
      id in Keys(consultas, ConsultaId)
    }

    /** `init_db` on a new database file: three empty tables. */
    constructor ()
      ensures Valid()
      ensures medicos == [] && pacientes == [] && consultas == []
      ensures seqMedico == 0 && seqPaciente == 0 && seqConsulta == 0
    {
      medicos, pacientes, consultas := [], [], [];
      seqMedico, seqPaciente, seqConsulta := 0, 0, 0;
    }

    /** `inserir_medico`: the name is checked before the store is touched;
        on success one row with the stripped fields and the next id is
        appended and nothing else changes. */
    method InserirMedico(nome: string, especialidade: string, telefone: string) returns (out: Outcome)
      requires Valid()
      modifies this
      ensures Valid()
      ensures !NameOk(nome) ==> out == Fail(NomeMedicoObrigatorio)
      ensures NameOk(nome) && old(seqMedico) == MaxRowId ==> out == Fail(TabelaCheia)
      ensures NameOk(nome) && old(seqMedico) < MaxRowId ==> out == Ok
      ensures out.Fail? ==> unchanged(this)
      ensures out.Ok? ==>
                && medicos == old(medicos) + [Medico(old(seqMedico) + 1, Trim(nome), Trim(especialidade), Trim(telefone))]
                && seqMedico == old(seqMedico) + 1
                && (forall m :: m in old(medicos) ==> m.id < seqMedico)
                && pacientes == old(pacientes) && consultas == old(consultas)
                && seqPaciente == old(seqPaciente) && seqConsulta == old(seqConsulta)
    {
      if !NameOk(nome) {
        return Fail(NomeMedicoObrigatorio);
      }
      if seqMedico == MaxRowId {
        return Fail(TabelaCheia);
      }
      var m := Medico(seqMedico + 1, Trim(nome), Trim(especialidade), Trim(telefone));
      MedicosAppend(medicos, seqMedico, m);
      ReferencesGrow(consultas, medicos, pacientes, m, Paciente(0, [], [], []));
      medicos := medicos + [m];
      seqMedico := seqMedico + 1;
      out := Ok;
    }

    /** `inserir_paciente`, the same for the patient table. */
    method InserirPaciente(nome: string, cpf: string, telefone: string) returns (out: Outcome)
      requires Valid()
      modifies this
      ensures Valid()
      ensures !NameOk(nome) ==> out == Fail(NomePacienteObrigatorio)
      ensures NameOk(nome) && old(seqPaciente) == MaxRowId ==> out == Fail(TabelaCheia)
      ensures NameOk(nome) && old(seqPaciente) < MaxRowId ==> out == Ok
      ensures out.Fail? ==> unchanged(this)
      ensures out.Ok? ==>
                && pacientes == old(pacientes) + [Paciente(old(seqPaciente) + 1, Trim(nome), Trim(cpf), Trim(telefone))]
                && seqPaciente == old(seqPaciente) + 1
                && (forall p :: p in old(pacientes) ==> p.id < seqPaciente)
                && medicos == old(medicos) && consultas == old(consultas)
                && seqMedico == old(seqMedico) && seqConsulta == old(seqConsulta)
    {
      if !NameOk(nome) {
        return Fail(NomePacienteObrigatorio);
      }
      if seqPaciente == MaxRowId {
        return Fail(TabelaCheia);
      }
      var p := Paciente(seqPaciente + 1, Trim(nome), Trim(cpf), Trim(telefone));
      PacientesAppend(pacientes, seqPaciente, p);
      ReferencesGrow(consultas, medicos, pacientes, Medico(0, [], [], []), p);
      pacientes := pacientes + [p];
      seqPaciente := seqPaciente + 1;
      out := Ok;
    }

    /** `inserir_consulta`: the date-time is checked before the store is
        touched; then SQLite allocates the rowid and enforces both foreign
        keys. On success the date-time is stored exactly as given and the
        reason stripped. */
    method InserirConsulta(medicoId: int, pacienteId: int, datahora: string, motivo: string) returns (out: Outcome)
      requires Valid()
      modifies this
      ensures Valid()
      ensures !DateTimeOk(datahora) ==> out == Fail(DataHoraInvalida)
      ensures DateTimeOk(datahora) && old(seqConsulta) == MaxRowId ==> out == Fail(TabelaCheia)
      ensures DateTimeOk(datahora) && old(seqConsulta) < MaxRowId ==>
                out == if old(HasMedico(medicoId)) && old(HasPaciente(pacienteId)) then Ok else Fail(ForeignKeyFalhou)
      ensures out.Fail? ==> unchanged(this)
      ensures out.Ok? ==>
                && consultas == old(consultas) + [Consulta(old(seqConsulta) + 1, medicoId, pacienteId, datahora, Trim(motivo))]
                && seqConsulta == old(seqConsulta) + 1
                && (forall c :: c in old(consultas) ==> c.id < seqConsulta)
                && medicos == old(medicos) && pacientes == old(pacientes)
                && seqMedico == old(seqMedico) && seqPaciente == old(seqPaciente)
    {
      if !DateTimeOk(datahora) {
        return Fail(DataHoraInvalida);
      }
      if seqConsulta == MaxRowId {
        return Fail(TabelaCheia);
      }
      if !HasMedico(medicoId) || !HasPaciente(pacienteId) {
        return Fail(ForeignKeyFalhou);
      }
      var c := Consulta(seqConsulta + 1, medicoId, pacienteId, datahora, Trim(motivo));
      ConsultasAppend(consultas, seqConsulta, c);
      ReferencesAppend(consultas, medicos, pacientes, c);
      consultas := consultas + [c];
      seqConsulta := seqConsulta + 1;
      out := Ok;
    }

    /** `deletar_medico`: removes the doctor with that id and, by ON DELETE
        CASCADE, every appointment referring to it; nothing else changes. */
    method DeletarMedico(id: int)
      requires Valid()
      modifies this
      ensures Valid()
      ensures medicos == Without(old(medicos), MedicoId, id)
      ensures consultas == Without(old(consultas), ConsultaMedico, id)
      ensures pacientes == old(pacientes)
      ensures seqMedico == old(seqMedico) && seqPaciente == old(seqPaciente) && seqConsulta == old(seqConsulta)
      ensures old(HasMedico(id)) ==> |medicos| == |old(medicos)| - 1
      ensures !old(HasMedico(id)) ==> unchanged(this)
    {
      MedicosWithout(medicos, seqMedico, id);
      ConsultasWithout(consultas, seqConsulta, ConsultaMedico, id);
      ReferencesCascadeMedico(consultas, medicos, pacientes, id);
      if HasMedico(id) {
        WithoutPresent(medicos, MedicoId, id);
      } else {
        WithoutAbsent(medicos, MedicoId, id);
        NoReferencesTo(id);
      }
      medicos := Without(medicos, MedicoId, id);
      consultas := Without(consultas, ConsultaMedico, id);
    }

    /** `deletar_paciente`: the same for the patient table. */
    method DeletarPaciente(id: int)
      requires Valid()
      modifies this
      ensures Valid()
      ensures pacientes == Without(old(pacientes), PacienteId, id)
      ensures consultas == Without(old(consultas), ConsultaPaciente, id)
      ensures medicos == old(medicos)
      ensures seqMedico == old(seqMedico) && seqPaciente == old(seqPaciente) && seqConsulta == old(seqConsulta)
      ensures old(HasPaciente(id)) ==> |pacientes| == |old(pacientes)| - 1
      ensures !old(HasPaciente(id)) ==> unchanged(this)
    {
      PacientesWithout(pacientes, seqPaciente, id);
      ConsultasWithout(consultas, seqConsulta, ConsultaPaciente, id);
      ReferencesCascadePaciente(consultas, medicos, pacientes, id);
      if HasPaciente(id) {
        WithoutPresent(pacientes, PacienteId, id);
      } else {
        WithoutAbsent(pacientes, PacienteId, id);
        NoReferencesTo(id);
      }
      pacientes := Without(pacientes, PacienteId, id);
      consultas := Without(consultas, ConsultaPaciente, id);
    }

    /** `deletar_consulta`: removes only that appointment. */
    method DeletarConsulta(id: int)
      requires Valid()
      modifies this
      ensures Valid()
      ensures consultas == Without(old(consultas), ConsultaId, id)
      ensures medicos == old(medicos) && pacientes == old(pacientes)
      ensures seqMedico == old(seqMedico) && seqPaciente == old(seqPaciente) && seqConsulta == old(seqConsulta)
      ensures old(HasConsulta(id)) ==> |consultas| == |old(consultas)| - 1
      ensures !old(HasConsulta(id)) ==> unchanged(this)
    {
      ConsultasWithout(consultas, seqConsulta, ConsultaId, id);
      ReferencesDropConsulta(consultas, medicos, pacientes, id);
      if HasConsulta(id) {
        WithoutPresent(consultas, ConsultaId, id);
      } else {
        WithoutAbsent(consultas, ConsultaId, id);
      }
      consultas := Without(consultas, ConsultaId, id);
    }

    /** An id that is not in a parent table occurs in no appointment, so the
        cascade of a delete of a missing id removes nothing. */
    lemma NoReferencesTo(id: int)
      requires Valid()
      ensures !HasMedico(id) ==> Without(consultas, ConsultaMedico, id) == consultas
      ensures !HasPaciente(id) ==> Without(consultas, ConsultaPaciente, id) == consultas
    {
      if !HasMedico(id) {
        assert id !in Keys(consultas, ConsultaMedico);
        WithoutAbsent(consultas, ConsultaMedico, id);
      }
      if !HasPaciente(id) {
        assert id !in Keys(consultas, ConsultaPaciente);
        WithoutAbsent(consultas, ConsultaPaciente, id);
      }
    }

    /** `listar_medicos`: every doctor, no other row, ordered by name. */
    function ListarMedicos(): (r: seq<Medico>)
      reads this
      ensures SortedBy(r, MedicoNome)
      ensures multiset(r) == multiset(medicos)
    {
      SortBy(medicos, MedicoNome)
    }

    /** `listar_pacientes`: every patient, no other row, ordered by name. */
    function ListarPacientes(): (r: seq<Paciente>)
      reads this
      ensures SortedBy(r, PacienteNome)
      ensures multiset(r) == multiset(pacientes)
    {
      SortBy(pacientes, PacienteNome)
    }

    /** `listar_consultas`: the rows of the join, ordered by date-time. */
    function ListarConsultas(): (r: seq<ConsultaRow>)
      reads this
      ensures SortedBy(r, RowDataHora)
      ensures multiset(r) == multiset(Join(consultas, medicos, pacientes))
    {
      SortBy(Join(consultas, medicos, pacientes), RowDataHora)
    }

    /** Under the foreign-key invariant the join drops no appointment: the
        listing holds one row per appointment, carrying the names of its
        doctor and patient, and it is in chronological order. */
    lemma ListarConsultasComplete()
      requires Valid()
      ensures |ListarConsultas()| == |consultas|
      ensures forall c :: c in consultas ==>
                RowFor(c, FindBy(medicos, MedicoId, c.medicoId).value,
                          FindBy(pacientes, PacienteId, c.pacienteId).value) in ListarConsultas()
      ensures forall i, j :: 0 <= i < j < |ListarConsultas()| ==>
                && DateTimeOk(ListarConsultas()[i].datahora) && DateTimeOk(ListarConsultas()[j].datahora)
                && DateTimeLe(ParseDateTime(ListarConsultas()[i].datahora).value,
                              ParseDateTime(ListarConsultas()[j].datahora).value)
    {
      ListingComplete(consultas, medicos, pacientes, seqConsulta);
    }
  }

  /** The appointment listing, with one row per appointment and that row's
      doctor and patient names, in chronological order. */
  lemma ListingComplete(cs: seq<Consulta>, ms: seq<Medico>, ps: seq<Paciente>, last: int)
    requires ConsultasOk(cs, last) && ReferencesOk(cs, ms, ps)
    ensures var r := SortBy(Join(cs, ms, ps), RowDataHora);
      && |r| == |cs|
      && (forall c :: c in cs ==>
            RowFor(c, FindBy(ms, MedicoId, c.medicoId).value, FindBy(ps, PacienteId, c.pacienteId).value) in r)
      && (forall i, j :: 0 <= i < j < |r| ==>
            && DateTimeOk(r[i].datahora) && DateTimeOk(r[j].datahora)
            && DateTimeLe(ParseDateTime(r[i].datahora).value, ParseDateTime(r[j].datahora).value))
  {
    var joined := Join(cs, ms, ps);
    var r := SortBy(joined, RowDataHora);
    JoinTotal(cs, ms, ps);
    assert |r| == |joined| by {
      assert |multiset(r)| == |multiset(joined)|;
    }
    ListingHasEveryAppointment(cs, ms, ps);
    ListingDatesValid(cs, ms, ps, last);
    SortedDatesChronological(r);
  }

  lemma ListingHasEveryAppointment(cs: seq<Consulta>, ms: seq<Medico>, ps: seq<Paciente>)
    requires ReferencesOk(cs, ms, ps)
    ensures forall c :: c in cs ==>
              RowFor(c, FindBy(ms, MedicoId, c.medicoId).value, FindBy(ps, PacienteId, c.pacienteId).value)
                in SortBy(Join(cs, ms, ps), RowDataHora)
  {
    var joined := Join(cs, ms, ps);
    var r := SortBy(joined, RowDataHora);
    JoinTotal(cs, ms, ps);
    forall c | c in cs
      ensures RowFor(c, FindBy(ms, MedicoId, c.medicoId).value, FindBy(ps, PacienteId, c.pacienteId).value) in r
    {
      var k :| 0 <= k < |cs| && cs[k] == c;
      SameElements(r, joined, joined[k]);
    }
  }

  lemma ListingDatesValid(cs: seq<Consulta>, ms: seq<Medico>, ps: seq<Paciente>, last: int)
    requires ConsultasOk(cs, last) && ReferencesOk(cs, ms, ps)
    ensures forall row :: row in SortBy(Join(cs, ms, ps), RowDataHora) ==> DateTimeOk(row.datahora)
  {
    var joined := Join(cs, ms, ps);
    var r := SortBy(joined, RowDataHora);
    JoinTotal(cs, ms, ps);
    forall row | row in r ensures DateTimeOk(row.datahora) {
      SameElements(r, joined, row);
      var k :| 0 <= k < |joined| && joined[k] == row;
      assert cs[k] in cs;
    }
  }

  /** Rows sorted by a valid date-time string are in chronological order. */
  lemma SortedDatesChronological(r: seq<ConsultaRow>)
    requires SortedBy(r, RowDataHora)
    requires forall row :: row in r ==> DateTimeOk(row.datahora)
    ensures forall i, j :: 0 <= i < j < |r| ==>
              && DateTimeOk(r[i].datahora) && DateTimeOk(r[j].datahora)
              && DateTimeLe(ParseDateTime(r[i].datahora).value, ParseDateTime(r[j].datahora).value)
  {
    forall i, j | 0 <= i < j < |r|
      ensures DateTimeOk(r[i].datahora) && DateTimeOk(r[j].datahora)
      ensures DateTimeLe(ParseDateTime(r[i].datahora).value, ParseDateTime(r[j].datahora).value)
    {
      assert r[i] in r && r[j] in r;
      assert StrLe(RowDataHora(r[i]), RowDataHora(r[j]));
      StringOrderIsChronological(r[i].datahora, r[j].datahora);
    }
  }
}
