/** The appointment record (`Consulta`): construction, the status state machine
    and the JSON form. */
module ConsultaModel {
  import opened Wrappers
  import opened Json

  datatype Consulta = Consulta(
    id: Field,
    pacienteId: Field,
    profissionalId: Field,
    data: Field,
    hora: Field,
    tipo: Field,
    status: string,
    dataAgendamento: string)

  /** The closed set `alterarStatus` accepts, in the source's order. */
  const StatusValidos: seq<string> := ["Agendada", "Confirmada", "Realizada", "Cancelada"]

  predicate StatusValido(s: string) {
    s in StatusValidos
  }

  datatype StatusError = StatusInvalido(status: string)

  /** `new Consulta(id, pacienteId, profissionalId, data, hora, tipo)` at clock time `now`. */
  function NewConsulta(id: Field, pacienteId: Field, profissionalId: Field,
                       data: Field, hora: Field, tipo: Field, now: string): (c: Consulta)
    ensures c.id == id && c.pacienteId == pacienteId && c.profissionalId == profissionalId
    ensures c.data == data && c.hora == hora && c.tipo == tipo
    ensures c.status == "Agendada" && StatusValido(c.status)
    ensures c.dataAgendamento == now
  {
    Consulta(id, pacienteId, profissionalId, data, hora, tipo, "Agendada", now)
  }

  /** A live `Consulta` object, whose `status` `alterarStatus` overwrites in place. */
  class ConsultaObject {
    var record: Consulta

    constructor (c: Consulta)
      ensures record == c
    {
      record := c;
    }

    /** `alterarStatus(novoStatus)`: a status of the closed set replaces the
        current one and nothing else changes; any other throws and changes nothing. */
    method AlterarStatus(novoStatus: string) returns (outcome: Outcome<StatusError>)
      modifies this
      ensures outcome.Pass? <==> StatusValido(novoStatus)
      ensures outcome.Pass? ==> record == old(record).(status := novoStatus)
      ensures outcome.Fail? ==> record == old(record) && outcome.error == StatusInvalido(novoStatus)
      ensures StatusValido(old(record.status)) ==> StatusValido(record.status)
    {
      if novoStatus in StatusValidos {
        record := record.(status := novoStatus);
        outcome := Pass;
      } else {
        outcome := Fail(StatusInvalido(novoStatus));
      }
    }
  }

  const ConsultaKeys: set<string> :=
    {"id", "pacienteId", "profissionalId", "data", "hora", "tipo", "status", "dataAgendamento"}

  /** `toJSON()` as stored by `JSON.stringify`: the eight properties, those that
      are `undefined` omitted. */
  function ToJSON(c: Consulta): (r: JsonObject)
    ensures r.Keys <= ConsultaKeys && "status" in r && "dataAgendamento" in r
    ensures Get(r, "id") == c.id && Get(r, "pacienteId") == c.pacienteId
    ensures Get(r, "profissionalId") == c.profissionalId && Get(r, "data") == c.data
    ensures Get(r, "hora") == c.hora && Get(r, "tipo") == c.tipo
    ensures r["status"] == c.status && r["dataAgendamento"] == c.dataAgendamento
  {
    Stringified(map[
      "id" := c.id,
      "pacienteId" := c.pacienteId,
      "profissionalId" := c.profissionalId,
      "data" := c.data,
      "hora" := c.hora,
      "tipo" := c.tipo,
      "status" := Some(c.status),
      "dataAgendamento" := Some(c.dataAgendamento)])
  }

  /** `Consulta.fromJSON(json)` at clock time `now`: the status and the
      scheduling timestamp are defaulted, the status is not validated. */
  function FromJSON(json: JsonObject, now: string): (c: Consulta)
    ensures c.id == Get(json, "id") && c.pacienteId == Get(json, "pacienteId")
    ensures c.profissionalId == Get(json, "profissionalId") && c.data == Get(json, "data")
    ensures c.hora == Get(json, "hora") && c.tipo == Get(json, "tipo")
    ensures c.status == Or(Get(json, "status"), "Agendada")
    ensures c.dataAgendamento == Or(Get(json, "dataAgendamento"), now)
  {
    var c := NewConsulta(Get(json, "id"), Get(json, "pacienteId"), Get(json, "profissionalId"),
                         Get(json, "data"), Get(json, "hora"), Get(json, "tipo"), now);
    c.(status := Or(Get(json, "status"), "Agendada"),
       dataAgendamento := Or(Get(json, "dataAgendamento"), now))
  }

  /** An appointment with a status and a scheduling timestamp survives a JSON round trip. */
  lemma FromToJSON(c: Consulta, now: string)
    requires c.status != "" && c.dataAgendamento != ""
    ensures FromJSON(ToJSON(c), now) == c
  {
  }

  /** `fromJSON` lets through any non-empty status, valid or not. */
  lemma FromJSONKeepsAnyStatus(json: JsonObject, now: string)
    requires "status" in json && json["status"] != ""
    ensures FromJSON(json, now).status == json["status"]
  {
  }

  /** A concrete object that `fromJSON` accepts with a status outside the closed set. */
  lemma FromJSONAdmitsInvalidStatus(now: string)
    ensures !StatusValido(FromJSON(map["status" := "Adiada"], now).status)
  {
    assert FromJSON(map["status" := "Adiada"], now).status == "Adiada";
    assert "Adiada" != StatusValidos[0] && "Adiada" != StatusValidos[1];
    assert "Adiada" != StatusValidos[2] && "Adiada" != StatusValidos[3];
  }
}
