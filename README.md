# Agenda médica — a verified model of the record store

`projeto_agenda_medica.py` is a small Tkinter desktop application for a
medical practice. It keeps doctors (`medico`), patients (`paciente`) and
appointments (`consulta`) in an SQLite database. This project models the
record store under the user interface:

- the schema `init_db` creates, in which every appointment refers to one
  doctor and one patient through foreign keys with `ON DELETE CASCADE`;
- the insert, list and delete operation of each table;
- the two pieces of form logic that feed the store:
  - the patient form's date check;
  - the `"id: nome"` combobox captions, from which the appointment form reads
    ids back.

The store is the class `Agenda.Store`:

- Each table is a `seq` of rows in rowid order.
- Each table has an `AUTOINCREMENT` counter (its `sqlite_sequence` entry).
- Every operation is one method that performs one atomic step.
- `Store.Valid()` is the invariant of the schema and of the inserts:
  - ids are unique, ascending and never above their table's counter;
  - every appointment refers to an existing doctor and an existing patient;
  - names are non-empty and every text field is stripped;
  - every stored date-time is valid.

Every method keeps `Valid()`, and each method's ensures state its whole new
state.

The pure parts are separate modules:

- `Text`: Python's `str.strip()` over the full `str.isspace()` set, and the
  code-point order SQLite's BINARY collation uses for `ORDER BY`.
- `Calendar`: what `datetime.strptime(s, "%Y-%m-%d %H:%M")` accepts,
  including Gregorian leap years, and its `strftime` inverse.
- `Sorting`: an insertion sort that is proved to be sorted and a permutation;
  it serves as the reference for `ORDER BY`.
- `Tables`: the `DELETE … WHERE` filter and the key lookup behind a join.
- `Records`: the row types and the inner join of `listar_consultas`.
- `Forms`: the two UI functions that feed the store.
- `Scenarios`: concrete cases, such as 30 February rejected, leap days,
  padded names stripped, and a cascade end to end.

The comment at line 109 speaks only of the format, but `strptime` also
rejects a date that is impossible on the calendar, such as
`2024-02-30 10:00`. `DateTimeOk` follows `strptime` and demands a real
calendar date (see `Scenarios.Feb30Rejected`).

`DateTimeOk` accepts only the canonical fixed-width form, which is narrower
than what `strptime` accepts (see "## Left out"). Every claim below that
string order is chronological order holds for that form only. The program
itself stores the loose forms as typed, and `ORDER BY c.datahora` then
misplaces them: `2024-5-1 09:00` is listed after `2024-10-01 09:00`
(`Scenarios.LooseDateSortsLate`).

A failed operation is an `Outcome` of `Fail(e)` and leaves the store
unchanged. The error values are:

- `NomeMedicoObrigatorio` and `NomePacienteObrigatorio`: the blank-name
  `ValueError`s.
- `DataHoraInvalida`: the `strptime` `ValueError`.
- `ForeignKeyFalhou`: the `IntegrityError` raised by the foreign keys.
- `TabelaCheia`: `SQLITE_FULL`, when a table's counter has reached
  2^63 - 1.
- `DataInvalida`, `SelecaoObrigatoria` and `IdInvalido`: the form-level
  errors.

## Model

| member | source | states |
|---|---|---|
| Agenda.Store.constructor | projeto_agenda_medica.py:15-50 | a new database has three empty tables and all three AUTOINCREMENT counters at 0, and it satisfies the invariant |
| Agenda.Store.InserirMedico | projeto_agenda_medica.py:55-63 | a blank name fails with the name error before anything is touched; a full table fails; otherwise exactly one row is appended with id = counter + 1 (larger than every id in the table) and the stripped name, specialty and phone, and the other tables and counters are unchanged; a failure changes nothing; the invariant is kept |
| Agenda.Store.InserirPaciente | projeto_agenda_medica.py:81-89 | the same for patients, with the CPF field stripped |
| Agenda.Store.InserirConsulta | projeto_agenda_medica.py:107-118 | a date-time that strptime rejects fails before anything is touched; then a full table fails; then the insert succeeds exactly when both the doctor and the patient exist (foreign keys enforced) and otherwise fails with nothing inserted; on success the date-time is stored as given and the reason stripped, under a fresh id |
| Agenda.Store.DeletarMedico | projeto_agenda_medica.py:73-78 | removes exactly the doctor with that id and, by cascade, exactly the appointments referring to it; patients and counters are unchanged (ids are never reused); a missing id changes nothing; the invariant is kept |
| Agenda.Store.DeletarPaciente | projeto_agenda_medica.py:99-104 | the same for patients and their appointments |
| Agenda.Store.DeletarConsulta | projeto_agenda_medica.py:135-140 | removes only that appointment; a missing id changes nothing |
| Agenda.Store.NoReferencesTo | projeto_agenda_medica.py:44-45 | under the foreign keys an id absent from a parent table occurs in no appointment, so the cascade removes nothing |
| Agenda.Store.ListarMedicos | projeto_agenda_medica.py:65-71 | every doctor row and no other, as a permutation of the table, in ascending `nome` order |
| Agenda.Store.ListarPacientes | projeto_agenda_medica.py:91-97 | every patient row and no other, in ascending `nome` order |
| Agenda.Store.ListarConsultas | projeto_agenda_medica.py:120-133 | a permutation of the join's rows in ascending `datahora` order |
| Agenda.Store.ListarConsultasComplete | projeto_agenda_medica.py:120-133 | under the invariant the join drops nothing: one row per appointment, each carrying its doctor's and patient's names, in chronological order (for the canonical date-time form the model stores; see Left out) |
| Agenda.ListingComplete | projeto_agenda_medica.py:123-129 | the same on plain tables: length, every appointment present with its names, chronological order (canonical form only) |
| Agenda.ListingHasEveryAppointment | projeto_agenda_medica.py:124-128 | each appointment's joined row is in the sorted listing |
| Agenda.ListingDatesValid | projeto_agenda_medica.py:110 | every row of the listing carries a date-time strptime accepts |
| Agenda.SortedDatesChronological | projeto_agenda_medica.py:129 | rows sorted by date-time string are in calendar order, when every date-time is in the canonical form |
| Agenda.Store.Valid | projeto_agenda_medica.py:21-45 | the schema's invariant: unique ascending ids within each AUTOINCREMENT counter, the two foreign keys, non-empty stripped names, stripped fields and valid date-times; every store method keeps it |
| Agenda.ReferencesOk | projeto_agenda_medica.py:40-45 | the two foreign keys: every appointment's `medico_id` and `paciente_id` are ids of existing rows |
| Agenda.MedicosAppend | projeto_agenda_medica.py:21 | appending a stored row with id = counter + 1 keeps the table ascending, within its counter and stored |
| Agenda.PacientesAppend | projeto_agenda_medica.py:30 | the same for patients |
| Agenda.ConsultasAppend | projeto_agenda_medica.py:39 | the same for appointments |
| Agenda.ReferencesGrow | projeto_agenda_medica.py:44-45 | adding a doctor or a patient cannot break a foreign key |
| Agenda.ReferencesAppend | projeto_agenda_medica.py:44-45 | an appointment whose doctor and patient exist keeps the foreign keys |
| Agenda.ReferencesCascadeMedico | projeto_agenda_medica.py:44 | removing a doctor with its appointments keeps the foreign keys |
| Agenda.ReferencesCascadePaciente | projeto_agenda_medica.py:45 | removing a patient with its appointments keeps the foreign keys |
| Agenda.ReferencesDropConsulta | projeto_agenda_medica.py:138 | removing appointments keeps the foreign keys |
| Agenda.MedicosWithout | projeto_agenda_medica.py:76 | a delete keeps the doctor table's invariant |
| Agenda.PacientesWithout | projeto_agenda_medica.py:102 | a delete keeps the patient table's invariant |
| Agenda.ConsultasWithout | projeto_agenda_medica.py:44-45 | any filter of the appointment table (cascade or direct delete) keeps its invariant |
| Tables.Without | projeto_agenda_medica.py:76 | `DELETE … WHERE key = k`: keeps exactly the rows whose key differs, and no more rows than before |
| Tables.WithoutAscending | projeto_agenda_medica.py:76 | a delete keeps the rows in ascending id order |
| Tables.WithoutAbsent | projeto_agenda_medica.py:76 | deleting a key no row has is a no-op |
| Tables.WithoutPresent | projeto_agenda_medica.py:76 | deleting an existing unique key removes exactly one row |
| Tables.KeysWithout | projeto_agenda_medica.py:44-45 | after a delete the table's keys are the old keys minus that one |
| Tables.KeysAppend | projeto_agenda_medica.py:60 | after an insert the keys are the old keys plus the new one |
| Tables.KeyOf | projeto_agenda_medica.py:21 | a row's key is among its table's keys |
| Tables.FindBy | projeto_agenda_medica.py:127-128 | the lookup `ON c.x = m.id` finds a row exactly when the key is present, and the row it finds has that key |
| Tables.FindUnique | projeto_agenda_medica.py:21 | with unique ids the lookup finds the row itself |
| Records.Join | projeto_agenda_medica.py:123-130 | the inner join: at most one row per appointment, carrying the names of the doctor and patient found by id |
| Records.JoinTotal | projeto_agenda_medica.py:127-128 | when every reference resolves, the join has one row per appointment, in the same order |
| Sorting.InsertBy | projeto_agenda_medica.py:68 | inserting into a sorted sequence gives a sorted sequence with one more element |
| Sorting.SortBy | projeto_agenda_medica.py:68 | the reference for `ORDER BY`: sorted by the key and a permutation of the input |
| Sorting.SameElements | projeto_agenda_medica.py:68 | a permutation has the same members |
| Text.Trim | projeto_agenda_medica.py:56 | `str.strip()`: no longer than its input, no whitespace at either end, empty exactly when the input is all whitespace |
| Text.TrimIsMiddle | projeto_agenda_medica.py:61 | what strip removes is whitespace on both sides of the kept middle of the input |
| Text.LeadingSpaces | projeto_agenda_medica.py:56 | the whitespace prefix is all whitespace and is followed by a non-space |
| Text.TrailingSpaces | projeto_agenda_medica.py:56 | the whitespace suffix is all whitespace and is preceded by a non-space |
| Text.SpacesMeet | projeto_agenda_medica.py:56 | when the input is not all whitespace, the prefix and suffix leave a non-empty stripped middle |
| Text.SpacesOrdered | projeto_agenda_medica.py:56 | the first non-space lies before the trailing whitespace |
| Text.NameOkIff | projeto_agenda_medica.py:56-57 | `if not nome.strip()` passes exactly when some character of the name is not whitespace |
| Text.TrimPadded | projeto_agenda_medica.py:61 | stripping whitespace padding around a stripped string gives that string back |
| Text.TrimTrimmed | projeto_agenda_medica.py:87 | a stripped string is its own strip |
| Text.TrimIdempotent | projeto_agenda_medica.py:61 | stripping twice is stripping once, so stored fields are stable |
| Text.LeadingOfTrimmed | projeto_agenda_medica.py:61 | whitespace in front of a non-space start is exactly the leading whitespace |
| Text.TrailingOfTrimmed | projeto_agenda_medica.py:61 | whitespace after a non-space end is exactly the trailing whitespace |
| Text.IsSpace | projeto_agenda_medica.py:56 | the characters for which Python's `str.isspace()` holds, the set `strip()` removes |
| Text.NameOk | projeto_agenda_medica.py:56-57 | `not nome.strip()` is false exactly when the name is not all whitespace |
| Text.StrLe | projeto_agenda_medica.py:68 | the BINARY collation order of `ORDER BY nome` and `ORDER BY c.datahora`: lexicographic, a proper prefix first; its order laws are the four lemmas below |
| Text.StrLeReflexive | projeto_agenda_medica.py:68 | the BINARY collation order is reflexive |
| Text.StrLeTotal | projeto_agenda_medica.py:68 | and total |
| Text.StrLeAntisymmetric | projeto_agenda_medica.py:68 | and antisymmetric |
| Text.StrLeTransitive | projeto_agenda_medica.py:68 | and transitive |
| Text.StrLeConcat | projeto_agenda_medica.py:129 | equal-length prefixes decide the order of concatenations, which is what makes fixed-width date strings sort by their fields |
| Calendar.IsLeap | projeto_agenda_medica.py:110 | the Gregorian leap-year rule `strptime` applies (divisible by 4, except centuries not divisible by 400) |
| Calendar.DateTimeOk | projeto_agenda_medica.py:110 | the `strptime(datahora, "%Y-%m-%d %H:%M")` check, in the canonical form; characterised by the round trips and the Scenarios cases |
| Calendar.FormatDateTime | projeto_agenda_medica.py:433 | `strftime("%Y-%m-%d %H:%M")`: 16 characters, the inverse of `ParseDateTime` |
| Calendar.DaysInMonth | projeto_agenda_medica.py:110 | 28 to 31 days; February has 29 exactly in a Gregorian leap year |
| Calendar.ParseDateTime | projeto_agenda_medica.py:110 | an accepted string has 16 characters and denotes a valid date-time |
| Calendar.ParseDate | projeto_agenda_medica.py:313 | an accepted `YYYY-MM-DD` has 10 characters and denotes a valid date |
| Calendar.ParseFormatDateTime | projeto_agenda_medica.py:110 | formatting a valid date-time and parsing it back gives it back |
| Calendar.FormatParseDateTime | projeto_agenda_medica.py:433 | formatting the parse of an accepted canonical string gives the string back, with a four-digit zero-padded year; `strftime` agrees with this for years 1000 to 9999 (see Left out for earlier years) |
| Calendar.ParseFormatDate | projeto_agenda_medica.py:313 | the same round trip for dates |
| Calendar.FormatParseDate | projeto_agenda_medica.py:313 | and its converse |
| Calendar.FormatOrder | projeto_agenda_medica.py:129 | on formatted (fixed-width) date-times, string order is chronological order, both ways |
| Calendar.StringOrderIsChronological | projeto_agenda_medica.py:129 | `ORDER BY c.datahora` is calendar order, both ways, on strings in the canonical form `DateTimeOk` accepts; it fails on the loose forms `strptime` also accepts (`Scenarios.LooseDateSortsLate`) |
| Calendar.Number | projeto_agenda_medica.py:110 | a digit string's value is below 10 to its length |
| Calendar.NumberOfPad | projeto_agenda_medica.py:433 | reading a zero-padded field gives its value back |
| Calendar.PadOfNumber | projeto_agenda_medica.py:433 | padding the value of a digit field gives the field back |
| Calendar.PadOrder | projeto_agenda_medica.py:129 | zero-padded fields of one width sort like their values |
| Forms.LabelId | projeto_agenda_medica.py:397-398 | `int(caption.split(':', 1)[0])`; `LabelRoundTrip` states what it reads back |
| Forms.MedicoLabel | projeto_agenda_medica.py:422 | the doctor caption `"{id}: {nome} ({especialidade})"` |
| Forms.PacienteLabel | projeto_agenda_medica.py:423 | the patient caption `"{id}: {nome}"` |
| Forms.CpfAceito | projeto_agenda_medica.py:312-313 | the CPF field is blank after stripping, or its stripped text is a `YYYY-MM-DD` date |
| Forms.IntToString | projeto_agenda_medica.py:422 | `str(id)`: non-empty, no ':', no surrounding whitespace, and the digits denote the number |
| Forms.ParseInt | projeto_agenda_medica.py:397 | `int()` accepts only a string containing a digit |
| Forms.BeforeColon | projeto_agenda_medica.py:397 | `split(':', 1)[0]` is the longest ':'-free prefix |
| Forms.BeforeColonStops | projeto_agenda_medica.py:397 | the split stops at the first ':' |
| Forms.ParseIntToString | projeto_agenda_medica.py:397 | `int(str(n)) == n` for every integer |
| Forms.LabelRoundTrip | projeto_agenda_medica.py:397-398 | the id is read back from `"{id}:…"` whatever follows the colon |
| Forms.MedicoLabelRoundTrip | projeto_agenda_medica.py:422 | the doctor combobox caption gives back the doctor's id |
| Forms.PacienteLabelRoundTrip | projeto_agenda_medica.py:423 | the patient combobox caption gives back the patient's id |
| Forms.AdicionarPaciente | projeto_agenda_medica.py:306-314 | a non-blank CPF field that is not a `YYYY-MM-DD` date fails before anything is touched; otherwise the patient insert's outcomes and new state |
| Forms.AgendarConsulta | projeto_agenda_medica.py:388-399 | an empty selection or a caption without a leading integer fails before anything is touched; otherwise the appointment insert's outcomes with the ids read from the captions |
| Scenarios.Feb30Rejected | projeto_agenda_medica.py:110 | `2024-02-30 10:00` is rejected |
| Scenarios.LeapDay2024Accepted | projeto_agenda_medica.py:110 | 29 February 2024 is accepted |
| Scenarios.LeapDay2023Rejected | projeto_agenda_medica.py:110 | 29 February 2023 is rejected |
| Scenarios.LeapDay1900Rejected | projeto_agenda_medica.py:110 | 29 February 1900 is rejected (century rule) |
| Scenarios.LeapDay2000Accepted | projeto_agenda_medica.py:110 | 29 February 2000 is accepted (400-year rule) |
| Scenarios.April31Rejected | projeto_agenda_medica.py:110 | 31 April is rejected |
| Scenarios.Month13Rejected | projeto_agenda_medica.py:110 | month 13 is rejected |
| Scenarios.Hour24Rejected | projeto_agenda_medica.py:110 | hour 24 is rejected |
| Scenarios.Minute60Rejected | projeto_agenda_medica.py:110 | minute 60 is rejected |
| Scenarios.YearZeroRejected | projeto_agenda_medica.py:110 | year 0000 is rejected |
| Scenarios.ShapeRejected | projeto_agenda_medica.py:110 | fields in the wrong order, or a missing time, are rejected |
| Scenarios.LooseDateSortsLate | projeto_agenda_medica.py:110-129 | `2024-5-1 09:00` is refused by the model, and it sorts after `2024-10-01 09:00` as a string, which is where the program would list it |
| Scenarios.CpfFieldIsDateChecked | projeto_agenda_medica.py:312-313 | the form checks its CPF field as a date: a CPF number is refused, a blank field passes |
| Scenarios.PaddedFields | projeto_agenda_medica.py:61 | `"  Ana"` and `"Cardiologia "` are stored as `"Ana"` and `"Cardiologia"` |
| Scenarios.Seed | projeto_agenda_medica.py:55-63 | on a new store the first doctor and first patient get id 1 |
| Scenarios.BookTwo | projeto_agenda_medica.py:107-118 | two appointments with existing doctor and patient both succeed |
| Scenarios.Refusals | projeto_agenda_medica.py:107-118 | an unknown doctor id and a malformed date are refused, and deleting a missing id changes nothing: the store is unchanged |
| Scenarios.Cascade | projeto_agenda_medica.py:73-78 | deleting the doctor deletes both of its appointments and keeps the patient |

## Left out

- The Tkinter user interface is not modelled: windows, trees, message boxes, refresh wiring and confirmation dialogs. The exceptions are the patient form's date check and the appointment form's id captions.
- SQLite I/O is not modelled: connections, `row_factory`, `commit`/`close` and the database file. Each call is one atomic step on in-memory tables. `PRAGMA foreign_keys = ON` (line 12) appears only as the fact that the foreign keys are always enforced.
- `init_db` on an existing file (`CREATE TABLE IF NOT EXISTS`) is not modelled: the store always has its schema, and `Store.constructor` is the first run on a new file.
- Calendar.ParseDateTime: models only the canonical fixed-width form. `strptime` also accepts several loose forms, and the model refuses all of them, while the program would store them as typed:
  - one-digit month, day, hour and minute (`2024-5-1 9:00`);
  - a space-padded day (`2024-05- 1 09:00`);
  - any run of whitespace in place of the space (`2024-05-01\t09:00`, `2024-05-01   09:00`);
  - non-ASCII decimal digits.
- Agenda.Store.ListarConsultasComplete: the chronological order it states holds because the model stores only the canonical form. In the program, `ORDER BY c.datahora` compares the stored text, so a loose form is misplaced: `2024-5-1 09:00` is listed after `2024-10-01 09:00`, because '5' > '1' at index 5. The same restriction applies to `Calendar.StringOrderIsChronological` and `Agenda.SortedDatesChronological`.
- Calendar.ParseDate: the `%Y-%m-%d` check at line 313 also accepts loose forms (a one-digit month or day, a space-padded day, non-ASCII digits), and the model refuses them. `Forms.CpfAceito` and `Forms.AdicionarPaciente` therefore refuse a date such as `2024-5-1` that the program accepts.
- Calendar.FormatDateTime: always writes a four-digit zero-padded year. For years 1 to 999, CPython's `strftime('%Y')` depends on the platform and the CPython version: older glibc builds write `999`, not `0999`. On those builds the reformatting at line 433 shows such a year without its leading zeros.
- Forms.ParseInt: does not model the underscores (`1_0`) and non-ASCII digits that Python's `int()` also accepts. Captions are built by `str(id)`, so they never contain either.
- Collation: `Text.StrLe` is code-point order on `seq<char>`. SQLite's BINARY collation compares UTF-8 bytes, and the two orders agree on every sequence of Unicode scalar values, so nothing is lost.
- Tie order: the order of rows with equal `nome` or `datahora` is SQLite's choice. The listings are specified only as sorted permutations, so ties are not fixed.
- Agenda.Store.DeletarMedico: an id outside SQLite's 64-bit INTEGER range -2^63..2^63-1 cannot be bound by Python's sqlite3, so the program raises `OverflowError` at `cur.execute`. The model instead treats such an id as a missing id. This applies to `DeletarMedico`, `DeletarPaciente` and `DeletarConsulta` (lines 76, 102, 138), where it is a no-op, and to `InserirConsulta` and `Forms.AgendarConsulta` (line 115), where it fails with `ForeignKeyFalhou`. The program's own callers pass only ids of stored rows or ids read back from `str(id)` captions, which are always in range.
- Argument types are not modelled. The model takes strings and integers, while Python would accept any object whose `strip()` or `int()` succeeds. The `None` (NULL) columns the schema allows are not reachable through the inserts.
- Field length limits: SQLite's text-length and database-size limits are not modelled. The only database limit modelled is rowid exhaustion (`TabelaCheia`).
- The listing's date reformatting (line 433) is not a separate operation. `Calendar.FormatParseDateTime` shows that it is the identity on every canonical stored value with a year from 1000 to 9999.
