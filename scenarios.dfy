/**
 * Concrete cases of the store's behaviour, proved from the contracts alone
 * (a client's view, with no access to the method bodies).
 */
module Scenarios {
  import opened Text
  import opened Calendar
  import opened Tables
  import opened Records
  import opened Agenda
  import opened Forms

  /** The fields of a string of the right shape, as `strptime` reads them. */
  lemma Fields(s: string)
    requires |s| == 16 && AllDigits(s[..4]) && s[4] == '-' && AllDigits(s[5..7]) && s[7] == '-'
    requires AllDigits(s[8..10]) && s[10] == ' ' && AllDigits(s[11..13]) && s[13] == ':' && AllDigits(s[14..])
    ensures DateTimeOk(s) <==> ValidDateTime(DateTime(
              Date(Number(s[..4]), Number(s[5..7]), Number(s[8..10])), Number(s[11..13]), Number(s[14..])))
  {
    var d := s[..10];
    assert d[..4] == s[..4] && d[5..7] == s[5..7] && d[8..] == s[8..10];
  }

  /** Reads the five fields of a literal of the right shape. */
  lemma Read(s: string)
    requires |s| == 16 && AllDigits(s[..4]) && s[4] == '-' && AllDigits(s[5..7]) && s[7] == '-'
    requires AllDigits(s[8..10]) && s[10] == ' ' && AllDigits(s[11..13]) && s[13] == ':' && AllDigits(s[14..])
    ensures DateTimeOk(s) <==> ValidDateTime(DateTime(
              Date(1000 * DigitValue(s[0]) + 100 * DigitValue(s[1]) + 10 * DigitValue(s[2]) + DigitValue(s[3]),
                   10 * DigitValue(s[5]) + DigitValue(s[6]), 10 * DigitValue(s[8]) + DigitValue(s[9])),
              10 * DigitValue(s[11]) + DigitValue(s[12]), 10 * DigitValue(s[14]) + DigitValue(s[15])))
  {
    Number4(s[..4]);
    Number2(s[5..7]);
    Number2(s[8..10]);
    Number2(s[11..13]);
    Number2(s[14..]);
    Fields(s);
  }

  /** 30 February never exists. */
  lemma Feb30Rejected()
    ensures !DateTimeOk("2024-02-30 10:00")
  {
    Read("2024-02-30 10:00");
  }
  /** 2024 is a leap year. */
  lemma LeapDay2024Accepted()
    ensures DateTimeOk("2024-02-29 10:00")
  {
    Read("2024-02-29 10:00");
  }

  /** 2023 is not a leap year. */
  lemma LeapDay2023Rejected()
    ensures !DateTimeOk("2023-02-29 10:00")
  {
    Read("2023-02-29 10:00");
  }

  /** 1900 is a century year not divisible by 400. */
  lemma LeapDay1900Rejected()
    ensures !DateTimeOk("1900-02-29 08:30")
  {
    Read("1900-02-29 08:30");
  }

  /** 2000 is a century year divisible by 400. */
  lemma LeapDay2000Accepted()
    ensures DateTimeOk("2000-02-29 23:59")
  {
    Read("2000-02-29 23:59");
  }

  /** April has 30 days. */
  lemma April31Rejected()
    ensures !DateTimeOk("2024-04-31 10:00")
  {
    Read("2024-04-31 10:00");
  }

  /** There are twelve months. */
  lemma Month13Rejected()
    ensures !DateTimeOk("2024-13-01 10:00")
  {
    Read("2024-13-01 10:00");
  }

  /** Hours run from 00 to 23. */
  lemma Hour24Rejected()
    ensures !DateTimeOk("2024-01-01 24:00")
  {
    Read("2024-01-01 24:00");
  }

  /** Minutes run from 00 to 59. */
  lemma Minute60Rejected()
    ensures !DateTimeOk("2024-01-01 10:60")
  {
    Read("2024-01-01 10:60");
  }

  /** `datetime` has no year 0. */
  lemma YearZeroRejected()
    ensures !DateTimeOk("0000-01-01 10:00")
  {
    Read("0000-01-01 10:00");
  }

  /** An ordinary date-time. */
  lemma May10Accepted()
    ensures DateTimeOk("2024-05-10 09:00")
  {
    Read("2024-05-10 09:00");
  }

  /** An ordinary date-time. */
  lemma May11Accepted()
    ensures DateTimeOk("2024-05-11 14:30")
  {
    Read("2024-05-11 14:30");
  }

  /** Fields in the wrong order, or a missing time, do not parse. */
  lemma ShapeRejected()
    ensures !DateTimeOk("02-30-2024 10:00")
    ensures !DateTimeOk("2024-01-01")
  {
    assert !IsDigit("02-30-2024 10:00"[..4][2]);
  }

  /** A date-time with a one-digit month sorts after a later canonical one,
      so string order is chronological only on the canonical form, the only
      one `DateTimeOk` accepts. */
  lemma LooseDateSortsLate()
    ensures !DateTimeOk("2024-5-1 09:00")
    ensures !StrLe("2024-5-1 09:00", "2024-10-01 09:00")
    ensures StrLe("2024-10-01 09:00", "2024-5-1 09:00")
  {
  }

  /** The patient form checks its CPF field as a date: a blank field or a
      date passes, a CPF number does not. */
  lemma CpfFieldIsDateChecked()
    ensures !CpfAceito("123.456.789-09")
    ensures CpfAceito("")
  {
    TrimTrimmed("123.456.789-09");
  }

  /** The fields a doctor insert stores are the stripped ones. */
  lemma PaddedFields()
    ensures Trim("  Ana") == "Ana" && Trim("Cardiologia ") == "Cardiologia"
  {
    assert "  Ana" == "  " + "Ana" + [];
    TrimPadded("  ", "Ana", []);
    assert "Cardiologia " == [] + "Cardiologia" + " ";
    TrimPadded([], "Cardiologia", " ");
  }

  /** On a fresh store, a doctor with a non-blank name is stored with the
      stripped fields under id 1. */
  method InsertScenario(nome: string, especialidade: string, telefone: string)
    requires NameOk(nome)
  {
    var st := new Store();
    var o := st.InserirMedico(nome, especialidade, telefone);
    assert o == Ok;
    assert st.medicos == [Medico(1, Trim(nome), Trim(especialidade), Trim(telefone))];
  }

  /** A blank name is refused and stores nothing. */
  method BlankNameScenario(nome: string, especialidade: string, telefone: string)
    requires !NameOk(nome)
  {
    var st := new Store();
    var o := st.InserirMedico(nome, especialidade, telefone);
    assert o == Fail(NomeMedicoObrigatorio) && st.medicos == [];
  }

  /** Doctor 1 and patient 1 are registered, and `n` appointments have
      been booked so far. */
  predicate Seeded(st: Store, n: int)
    reads st
  {
    && |st.medicos| == 1 && st.medicos[0].id == 1
    && |st.pacientes| == 1 && st.pacientes[0].id == 1
    && st.seqConsulta == n
  }

  /** Two appointments of doctor 1 are booked. */
  predicate Booked(st: Store)
    reads st
  {
    Seeded(st, 2) && |st.consultas| == 2 && st.consultas[0].medicoId == 1 && st.consultas[1].medicoId == 1
  }

  method Seed(nome: string, texto: string) returns (st: Store)
    requires NameOk(nome)
    ensures fresh(st) && st.Valid() && Seeded(st, 0) && st.consultas == []
  {
    st := new Store();
    var o := st.InserirMedico(nome, texto, texto);
    assert o == Ok;
    o := st.InserirPaciente(nome, texto, texto);
    assert o == Ok;
  }

  method BookTwo(st: Store, d1: string, d2: string, texto: string)
    requires st.Valid() && Seeded(st, 0) && st.consultas == []
    requires DateTimeOk(d1) && DateTimeOk(d2)
    modifies st
    ensures st.Valid() && Booked(st) && st.pacientes == old(st.pacientes)
  {
    KeyOf(st.medicos, MedicoId, st.medicos[0]);
    KeyOf(st.pacientes, PacienteId, st.pacientes[0]);
    var o := st.InserirConsulta(1, 1, d1, texto);
    assert o == Ok;
    KeyOf(st.medicos, MedicoId, st.medicos[0]);
    KeyOf(st.pacientes, PacienteId, st.pacientes[0]);
    o := st.InserirConsulta(1, 1, d2, texto);
    assert o == Ok;
  }

  /** An unknown doctor, a malformed date and a missing id change nothing. */
  method Refusals(st: Store, d: string, bad: string, texto: string)
    requires st.Valid() && Booked(st)
    requires DateTimeOk(d) && !DateTimeOk(bad)
    modifies st
    ensures st.Valid() && Booked(st) && unchanged(st)
  {
    assert !st.HasMedico(7);
    var o := st.InserirConsulta(7, 1, d, texto);
    assert o == Fail(ForeignKeyFalhou);
    o := st.InserirConsulta(1, 1, bad, texto);
    assert o == Fail(DataHoraInvalida);
    assert !st.HasMedico(9999);
    st.DeletarMedico(9999);
  }

  /** Deleting doctor 1 deletes both appointments and keeps the patient. */
  method Cascade(st: Store)
    requires st.Valid() && Booked(st)
    modifies st
    ensures st.Valid() && st.medicos == [] && st.consultas == []
    ensures st.pacientes == old(st.pacientes)
  {
    KeyOf(st.medicos, MedicoId, st.medicos[0]);
    st.DeletarMedico(1);
    assert forall c :: c !in st.consultas;
  }

  /** The cascade scenario end to end. */
  method CascadeScenario(nome: string, d1: string, d2: string, bad: string, texto: string)
    requires NameOk(nome) && DateTimeOk(d1) && DateTimeOk(d2) && !DateTimeOk(bad)
  {
    var st := Seed(nome, texto);
    var pacientes := st.pacientes;
    BookTwo(st, d1, d2, texto);
    Refusals(st, d1, bad, texto);
    Cascade(st);
    assert st.pacientes == pacientes && st.medicos == [] && st.consultas == [];
  }

  /** The scenarios on concrete values. */
  method Examples() {
    PaddedFields();
    InsertScenario("  Ana", "Cardiologia ", "123");
    assert AllSpace(" \t ");
    BlankNameScenario(" \t ", "", "");
    May10Accepted();
    May11Accepted();
    Feb30Rejected();
    CascadeScenario("Ana", "2024-05-10 09:00", "2024-05-11 14:30", "2024-02-30 10:00", "");
  }
}
