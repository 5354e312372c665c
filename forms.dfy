/**
 * The two pieces of form logic that feed the record store: the patient form's
 * optional date check on the CPF field, and the combobox labels of the
 * appointment form, from which the chosen doctor's and patient's ids are read
 * back before `inserir_consulta` is called.
 */
module Forms {
  import opened Wrappers
  import opened Text
  import opened Calendar
  import opened Records
  import opened Agenda

  /** Python's `str(n)`: decimal digits, a '-' for negatives, no leading zeros. */
  function IntToString(n: int): (s: string)
    ensures s != [] && ':' !in s && Trimmed(s)
    ensures n >= 0 ==> AllDigits(s) && Number(s) == n && (s[0] == '0' ==> s == "0")
    ensures n < 0 ==> |s| > 1 && s[0] == '-' && AllDigits(s[1..]) && Number(s[1..]) == -n
  {
    if n < 0 then
      var d := NatToString(-n);
      assert ("-" + d)[1..] == d;
      "-" + d
    else NatToString(n)
  }

  function NatToString(n: nat): (s: string)
    ensures s != [] && AllDigits(s) && Number(s) == n
    ensures s[0] == '0' ==> s == "0"
  {
    if n < 10 then [DigitChar(n)]
    else
      var s := NatToString(n / 10) + [DigitChar(n % 10)];
      assert s[..|s| - 1] == NatToString(n / 10);
      s
  }

  /** Python's `int(t)` on a string: surrounding whitespace allowed, an
      optional sign, then one or more decimal digits. */
  function ParseInt(t: string): (r: Option<int>)
    ensures r.Some? ==> exists i :: 0 <= i < |t| && IsDigit(t[i])
  {
    var u := Trim(t);
    if u != [] && (u[0] == '-' || u[0] == '+') then
      if |u| > 1 && AllDigits(u[1..]) then
        assert IsDigit(u[1..][0]);
        var v: int := Number(u[1..]);
        Some(if u[0] == '-' then -v else v)
      else None
    else if u != [] && AllDigits(u) then
      assert IsDigit(u[0]);
      Some(Number(u))
    else None
  }

  /** `s.split(':', 1)[0]`: everything before the first ':', or all of `s`. */
  function BeforeColon(s: string): (r: string)
    ensures |r| <= |s| && r == s[..|r|] && ':' !in r
    ensures |r| < |s| ==> s[|r|] == ':'
  {
    if s == [] || s[0] == ':' then []
    else [s[0]] + BeforeColon(s[1..])
  }

  /** `int(caption.split(':', 1)[0])`, as `agendar_consulta` reads an id. */
  function LabelId(caption: string): Option<int> {
    ParseInt(BeforeColon(caption))
  }

  /** `f"{m['id']}: {m['nome']} ({m['especialidade'] or ''})"`. */
  function MedicoLabel(m: Medico): string {
    IntToString(m.id) + ": " + m.nome + " (" + m.especialidade + ")"
  }

  /** `f"{p['id']}: {p['nome']}"`. */
  function PacienteLabel(p: Paciente): string {
    IntToString(p.id) + ": " + p.nome
  }

  lemma BeforeColonStops(a: string, b: string)
    requires ':' !in a
    ensures BeforeColon(a + ":" + b) == a
  {
    if a != [] {
      assert (a + ":" + b)[1..] == a[1..] + ":" + b;
      BeforeColonStops(a[1..], b);
    }
  }

  lemma ParseIntToString(n: int)
    ensures ParseInt(IntToString(n)) == Some(n)
  {
    var s := IntToString(n);
    TrimTrimmed(s);
    if n >= 0 {
      ParseDigits(s);
    } else {
      ParseSigned(s);
    }
  }

  lemma ParseDigits(s: string)
    requires Trim(s) == s && s != [] && AllDigits(s)
    ensures ParseInt(s) == Some(Number(s))
  {
    assert IsDigit(s[0]);
  }

  lemma ParseSigned(s: string)
    requires Trim(s) == s && |s| > 1 && s[0] == '-' && AllDigits(s[1..])
    ensures ParseInt(s) == Some(-(Number(s[1..]) as int))
  {
  }

  /** Whatever follows the first ':' (a name may itself contain ':'), the
      id is read back from the label unchanged. */
  lemma LabelRoundTrip(n: int, rest: string)
    ensures LabelId(IntToString(n) + ":" + rest) == Some(n)
  {
    BeforeColonStops(IntToString(n), rest);
    ParseIntToString(n);
  }

  lemma MedicoLabelRoundTrip(m: Medico)
    ensures LabelId(MedicoLabel(m)) == Some(m.id)
  {
    var rest := " " + m.nome + " (" + m.especialidade + ")";
    assert MedicoLabel(m) == IntToString(m.id) + ":" + rest;
    LabelRoundTrip(m.id, rest);
  }

  lemma PacienteLabelRoundTrip(p: Paciente)
    ensures LabelId(PacienteLabel(p)) == Some(p.id)
  {
    var rest := " " + p.nome;
    assert PacienteLabel(p) == IntToString(p.id) + ":" + rest;
    LabelRoundTrip(p.id, rest);
  }

  /** The patient form's check on the CPF field: blank, or a valid
      `YYYY-MM-DD` date once stripped. */
  predicate CpfAceito(dn: string) {
    Trim(dn) == [] || ParseDate(Trim(dn)).Some?
  }

  /** `PacientesFrame.adicionar_paciente`: the CPF date check runs first,
      then `inserir_paciente` with the field as typed. */
  method AdicionarPaciente(store: Store, nome: string, dn: string, tel: string) returns (out: Outcome)
    requires store.Valid()
    modifies store
    ensures store.Valid()
    ensures !CpfAceito(dn) ==> out == Fail(DataInvalida)
    ensures CpfAceito(dn) && !NameOk(nome) ==> out == Fail(NomePacienteObrigatorio)
    ensures CpfAceito(dn) && NameOk(nome) ==>
              out == if old(store.seqPaciente) == MaxRowId then Fail(TabelaCheia) else Ok
    ensures out.Fail? ==> unchanged(store)
    ensures out.Ok? ==>
              && store.pacientes == old(store.pacientes) + [Paciente(old(store.seqPaciente) + 1, Trim(nome), Trim(dn), Trim(tel))]
              && store.medicos == old(store.medicos) && store.consultas == old(store.consultas)
              && store.seqPaciente == old(store.seqPaciente) + 1
              && store.seqMedico == old(store.seqMedico) && store.seqConsulta == old(store.seqConsulta)
  {
    if !CpfAceito(dn) {
      return Fail(DataInvalida);
    }
    out := store.InserirPaciente(nome, dn, tel);
  }

  /** `ConsultasFrame.agendar_consulta`: both comboboxes must be chosen, the
      ids are read from their captions, then `inserir_consulta` runs. */
  method AgendarConsulta(store: Store, med: string, pac: string, dt: string, motivo: string) returns (out: Outcome)
    requires store.Valid()
    modifies store
    ensures store.Valid()
    ensures med == [] || pac == [] ==> out == Fail(SelecaoObrigatoria)
    ensures med != [] && pac != [] && (LabelId(med).None? || LabelId(pac).None?) ==> out == Fail(IdInvalido)
    ensures med != [] && pac != [] && LabelId(med).Some? && LabelId(pac).Some? && !DateTimeOk(dt) ==>
              out == Fail(DataHoraInvalida)
    ensures med != [] && pac != [] && LabelId(med).Some? && LabelId(pac).Some? && DateTimeOk(dt) ==>
              out == if old(store.seqConsulta) == MaxRowId then Fail(TabelaCheia)
                     else if old(store.HasMedico(LabelId(med).value)) && old(store.HasPaciente(LabelId(pac).value)) then Ok
                     else Fail(ForeignKeyFalhou)
    ensures out.Fail? ==> unchanged(store)
    ensures out.Ok? ==>
              && DateTimeOk(dt)
              && store.consultas == old(store.consultas)
                   + [Consulta(old(store.seqConsulta) + 1, LabelId(med).value, LabelId(pac).value, dt, Trim(motivo))]
              && store.medicos == old(store.medicos) && store.pacientes == old(store.pacientes)
              && store.seqConsulta == old(store.seqConsulta) + 1
              && store.seqMedico == old(store.seqMedico) && store.seqPaciente == old(store.seqPaciente)
  {
    if med == [] || pac == [] {
      return Fail(SelecaoObrigatoria);
    }
    var medicoId, pacienteId := LabelId(med), LabelId(pac);
    if medicoId.None? || pacienteId.None? {
      return Fail(IdInvalido);
    }
    out := store.InserirConsulta(medicoId.value, pacienteId.value, dt, motivo);
  }
}
