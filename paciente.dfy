/** The patient record (`Paciente`): construction, age, and its JSON form. */
module PacienteModel {
  import opened Wrappers
  import opened Json

  /** A patient object. `dataCadastro` is always a string: the constructor sets it
      from the clock and `fromJSON` defaults it. */
  datatype Paciente = Paciente(
    id: Field,
    nome: Field,
    email: Field,
    telefone: Field,
    dataNascimento: Field,
    dataCadastro: string)

  /** A calendar date already decomposed into its parts (month as the source's
      `getMonth()` gives it; only comparisons are made, so the base does not matter). */
  datatype Date = Date(year: int, month: int, day: int)

  /** `new Paciente(id, nome, email, telefone, dataNascimento)` at clock time `now`. */
  function NewPaciente(id: Field, nome: Field, email: Field, telefone: Field,
                       dataNascimento: Field, now: string): (p: Paciente)
    ensures p.id == id && p.nome == nome && p.email == email
    ensures p.telefone == telefone && p.dataNascimento == dataNascimento
    ensures p.dataCadastro == now
  {
    Paciente(id, nome, email, telefone, dataNascimento, now)
  }

  /** `(y1, m1, d1)` is on or before `(y2, m2, d2)` in calendar order. */
  predicate OnOrBefore(a: Date, b: Date) {
    a.year < b.year
    || (a.year == b.year && a.month < b.month)
    || (a.year == b.year && a.month == b.month && a.day <= b.day)
  }

  /** The birthday adjustment of `getIdade`: the year difference, less one when
      today's (month, day) comes before the birth (month, day). */
  function YearsBetween(birth: Date, today: Date): int {
    var idade := today.year - birth.year;
    var m := today.month - birth.month;
    if m < 0 || (m == 0 && today.day < birth.day) then idade - 1 else idade
  }

  /** `getIdade()`: null when `dataNascimento` is falsy, otherwise the age in
      completed years. `birth` is the parsed `dataNascimento`, `today` the clock. */
  function GetIdade(p: Paciente, birth: Date, today: Date): (r: Option<int>)
    ensures r.None? <==> !Truthy(p.dataNascimento)
    ensures r.Some? ==> r.value == YearsBetween(birth, today)
  {
    if !Truthy(p.dataNascimento) then None else Some(YearsBetween(birth, today))
  }

  /** On or after this year's birthday the age is the plain year difference;
      before it, one less. */
  lemma YearsBetweenBirthday(birth: Date, today: Date)
    ensures OnOrBefore(Date(today.year, birth.month, birth.day), today)
            ==> YearsBetween(birth, today) == today.year - birth.year
    ensures !OnOrBefore(Date(today.year, birth.month, birth.day), today)
            ==> YearsBetween(birth, today) == today.year - birth.year - 1
  {
  }

  /** The age is the number of completed years: the `n`-th anniversary is on or
      before today and the next one is after it. */
  lemma YearsBetweenIsCompletedYears(birth: Date, today: Date)
    ensures var n := YearsBetween(birth, today);
            OnOrBefore(Date(birth.year + n, birth.month, birth.day), today)
            && !OnOrBefore(Date(birth.year + n + 1, birth.month, birth.day), today)
  {
  }

  /** Someone born on or before today has a non-negative age. */
  lemma YearsBetweenNonNegative(birth: Date, today: Date)
    requires OnOrBefore(birth, today)
    ensures YearsBetween(birth, today) >= 0
  {
  }

  const PacienteKeys: set<string> :=
    {"id", "nome", "email", "telefone", "dataNascimento", "dataCadastro"}

  /** `toJSON()` as stored by `JSON.stringify`: the six properties, those that
      are `undefined` omitted. */
  function ToJSON(p: Paciente): (r: JsonObject)
    ensures r.Keys <= PacienteKeys && "dataCadastro" in r
    ensures Get(r, "id") == p.id && Get(r, "nome") == p.nome
    ensures Get(r, "email") == p.email && Get(r, "telefone") == p.telefone
    ensures Get(r, "dataNascimento") == p.dataNascimento
    ensures r["dataCadastro"] == p.dataCadastro
  {
    Stringified(map[
      "id" := p.id,
      "nome" := p.nome,
      "email" := p.email,
      "telefone" := p.telefone,
      "dataNascimento" := p.dataNascimento,
      "dataCadastro" := Some(p.dataCadastro)])
  }

  /** `Paciente.fromJSON(json)` at clock time `now`. */
  function FromJSON(json: JsonObject, now: string): (p: Paciente)
    ensures p.id == Get(json, "id") && p.nome == Get(json, "nome")
    ensures p.email == Get(json, "email") && p.telefone == Get(json, "telefone")
    ensures p.dataNascimento == Get(json, "dataNascimento")
    ensures p.dataCadastro == Or(Get(json, "dataCadastro"), now)
  {
    var p := NewPaciente(Get(json, "id"), Get(json, "nome"), Get(json, "email"),
                         Get(json, "telefone"), Get(json, "dataNascimento"), now);
    p.(dataCadastro := Or(Get(json, "dataCadastro"), now))
  }

  /** A patient with a registration timestamp survives a JSON round trip. */
  lemma FromToJSON(p: Paciente, now: string)
    requires p.dataCadastro != ""
    ensures FromJSON(ToJSON(p), now) == p
  {
  }

  /** Reading a stored object and writing it back keeps exactly its six
      properties, with the registration timestamp defaulted. */
  lemma ToFromJSON(json: JsonObject, now: string)
    ensures var r := ToJSON(FromJSON(json, now));
            (forall k :: k in PacienteKeys - {"dataCadastro"} ==> Get(r, k) == Get(json, k))
            && r["dataCadastro"] == Or(Get(json, "dataCadastro"), now)
            && r.Keys <= PacienteKeys
  {
  }
}
