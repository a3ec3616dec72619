/** `EntityFactory`: one entry point that builds any of the three records from a
    loosely typed object, defaulting absent properties and generating an id. */
module Factory {
  import opened Wrappers
  import opened Json
  import opened PacienteModel
  import opened ProfissionalModel
  import opened ConsultaModel

  datatype Entity =
    | PacienteEntity(paciente: Paciente)
    | ProfissionalEntity(profissional: Profissional)
    | ConsultaEntity(consulta: Consulta)

  datatype FactoryError = TipoNaoSuportado(tipo: string)

  /** `toLowerCase()` of one character, on the ASCII letters. */
  function LowerChar(c: char): (r: char)
    ensures 'A' <= c <= 'Z' ==> r as int == c as int + 32
    ensures !('A' <= c <= 'Z') ==> r == c
  {
    if 'A' <= c <= 'Z' then (c as int + 32) as char else c
  }

  /** `toLowerCase()` of a string, character by character. */
  function ToLower(s: string): (r: string)
    ensures |r| == |s|
    ensures forall i :: 0 <= i < |s| ==> r[i] == LowerChar(s[i])
  {
    if s == [] then [] else [LowerChar(s[0])] + ToLower(s[1..])
  }

  /** `data.id || config.generateId()`: the generated id is the oracle's `freshId`. */
  function IdOrFresh(data: JsonObject, freshId: string): (r: string)
    ensures Truthy(Get(data, "id")) ==> r == data["id"]
    ensures !Truthy(Get(data, "id")) ==> r == freshId
  {
    Or(Get(data, "id"), freshId)
  }

  /** `data[key] || ''`: the property if it is a non-empty string, otherwise ''. */
  function TextOrEmpty(data: JsonObject, key: string): (r: string)
    ensures key in data ==> r == data[key]
    ensures key !in data ==> r == ""
  {
    Or(Get(data, key), "")
  }

  /** `createPaciente(data)`. */
  function CreatePaciente(data: JsonObject, freshId: string, now: string): (p: Paciente)
    ensures p.id == Some(IdOrFresh(data, freshId))
    ensures p.nome == Some(TextOrEmpty(data, "nome")) && p.email == Some(TextOrEmpty(data, "email"))
    ensures p.telefone == Some(TextOrEmpty(data, "telefone"))
    ensures p.dataNascimento == Some(TextOrEmpty(data, "dataNascimento"))
    ensures p.dataCadastro == now
  {
    NewPaciente(Some(IdOrFresh(data, freshId)), Some(TextOrEmpty(data, "nome")),
                Some(TextOrEmpty(data, "email")), Some(TextOrEmpty(data, "telefone")),
                Some(TextOrEmpty(data, "dataNascimento")), now)
  }

  /** `createProfissional(data)`. */
  function CreateProfissional(data: JsonObject, freshId: string, now: string): (p: Profissional)
    ensures p.id == Some(IdOrFresh(data, freshId))
    ensures p.nome == Some(TextOrEmpty(data, "nome"))
    ensures p.especialidade == Some(TextOrEmpty(data, "especialidade"))
    ensures p.crm == Some(TextOrEmpty(data, "crm")) && p.email == Some(TextOrEmpty(data, "email"))
    ensures p.dataCadastro == now
  {
    NewProfissional(Some(IdOrFresh(data, freshId)), Some(TextOrEmpty(data, "nome")),
                    Some(TextOrEmpty(data, "especialidade")), Some(TextOrEmpty(data, "crm")),
                    Some(TextOrEmpty(data, "email")), now)
  }

  /** `createConsulta(data)`: a new appointment is always scheduled ("Agendada"). */
  function CreateConsulta(data: JsonObject, freshId: string, now: string): (c: Consulta)
    ensures c.id == Some(IdOrFresh(data, freshId))
    ensures c.pacienteId == Some(TextOrEmpty(data, "pacienteId"))
    ensures c.profissionalId == Some(TextOrEmpty(data, "profissionalId"))
    ensures c.data == Some(TextOrEmpty(data, "data")) && c.hora == Some(TextOrEmpty(data, "hora"))
    ensures c.tipo == Some(TextOrEmpty(data, "tipo"))
    ensures c.status == "Agendada" && c.dataAgendamento == now
  {
    NewConsulta(Some(IdOrFresh(data, freshId)), Some(TextOrEmpty(data, "pacienteId")),
                Some(TextOrEmpty(data, "profissionalId")), Some(TextOrEmpty(data, "data")),
                Some(TextOrEmpty(data, "hora")), Some(TextOrEmpty(data, "tipo")), now)
  }

  /** `EntityFactory.create(type, data)`: case-insensitive dispatch on the tag;
      any other tag is an unsupported-type error. */
  function Create(tipo: string, data: JsonObject, freshId: string, now: string): (r: Result<Entity, FactoryError>)
    ensures r.Success? <==> ToLower(tipo) in {"paciente", "profissional", "consulta"}
    ensures r.Failure? ==> r.error == TipoNaoSuportado(tipo)
    ensures ToLower(tipo) == "paciente" ==> r == Success(PacienteEntity(CreatePaciente(data, freshId, now)))
    ensures ToLower(tipo) == "profissional" ==> r == Success(ProfissionalEntity(CreateProfissional(data, freshId, now)))
    ensures ToLower(tipo) == "consulta" ==> r == Success(ConsultaEntity(CreateConsulta(data, freshId, now)))
  {
    match ToLower(tipo)
    case "paciente" => Success(PacienteEntity(CreatePaciente(data, freshId, now)))
    case "profissional" => Success(ProfissionalEntity(CreateProfissional(data, freshId, now)))
    case "consulta" => Success(ConsultaEntity(CreateConsulta(data, freshId, now)))
    case _ => Failure(TipoNaoSuportado(tipo))
  }

  /** Two tags that differ only in the case of their ASCII letters dispatch alike. */
  lemma {:induction false} CreateIgnoresCase(t1: string, t2: string, data: JsonObject, freshId: string, now: string)
    requires |t1| == |t2|
    requires forall i :: 0 <= i < |t1| ==> LowerChar(t1[i]) == LowerChar(t2[i])
    ensures Create(t1, data, freshId, now).Success? <==> Create(t2, data, freshId, now).Success?
    ensures Create(t1, data, freshId, now).Success? ==> Create(t1, data, freshId, now) == Create(t2, data, freshId, now)
  {
    assert ToLower(t1) == ToLower(t2);
  }

  /** Every casing of "Paciente" builds a patient; e.g. "PACIENTE" and "Paciente". */
  lemma CreateAnyCasingOfPaciente(data: JsonObject, freshId: string, now: string)
    ensures Create("PACIENTE", data, freshId, now) == Create("paciente", data, freshId, now)
    ensures Create("Paciente", data, freshId, now).Success?
    ensures Create("Paciente", data, freshId, now).value.PacienteEntity?
  {
    assert ToLower("PACIENTE") == "paciente";
    assert ToLower("Paciente") == "paciente";
  }

  /** An unknown tag such as "invalido" is rejected. */
  lemma CreateRejectsUnknown(data: JsonObject, freshId: string, now: string)
    ensures Create("invalido", data, freshId, now) == Failure(TipoNaoSuportado("invalido"))
  {
    assert ToLower("invalido") == "invalido";
  }

  /** A created record, once serialized, carries its id and every defaulted field:
      none of its properties is omitted. */
  lemma CreatedPacienteSerializesFully(data: JsonObject, freshId: string, now: string)
    ensures PacienteModel.ToJSON(CreatePaciente(data, freshId, now)).Keys == PacienteKeys
  {
  }
}
