/** The practitioner record (`Profissional`): construction, description, JSON form. */
module ProfissionalModel {
  import opened Wrappers
  import opened Json

  datatype Profissional = Profissional(
    id: Field,
    nome: Field,
    especialidade: Field,
    crm: Field,
    email: Field,
    dataCadastro: string)

  /** `new Profissional(id, nome, especialidade, crm, email)` at clock time `now`. */
  function NewProfissional(id: Field, nome: Field, especialidade: Field, crm: Field,
                           email: Field, now: string): (p: Profissional)
    ensures p.id == id && p.nome == nome && p.especialidade == especialidade
    ensures p.crm == crm && p.email == email
    ensures p.dataCadastro == now
  {
    Profissional(id, nome, especialidade, crm, email, now)
  }

  /** `getDescricaoCompleta()`: "nome - especialidade (CRM: crm)". */
  function GetDescricaoCompleta(p: Profissional): (r: string)
    ensures |r| == |Text(p.nome)| + |Text(p.especialidade)| + |Text(p.crm)| + 11
  {
    Text(p.nome) + " - " + Text(p.especialidade) + " (CRM: " + Text(p.crm) + ")"
  }

  /** The description reads, in order, the name, " - ", the specialty, " (CRM: ",
      the licence number and ")": each part sits at the position the ones before
      it leave, so the three fields can be cut back out of it. */
  lemma {:induction false} DescricaoParts(p: Profissional)
    ensures var r, n, e, c := GetDescricaoCompleta(p), Text(p.nome), Text(p.especialidade), Text(p.crm);
            r[..|n|] == n
            && r[|n|..|n| + 3] == " - "
            && r[|n| + 3..|n| + 3 + |e|] == e
            && r[|n| + 3 + |e|..|n| + 10 + |e|] == " (CRM: "
            && r[|n| + 10 + |e|..|r| - 1] == c
            && r[|r| - 1] == ')'
  {
    var n, e, c := Text(p.nome), Text(p.especialidade), Text(p.crm);
    var r := GetDescricaoCompleta(p);
    assert r == n + " - " + e + " (CRM: " + c + ")";
    assert r[..|n|] == n;
  }

  const ProfissionalKeys: set<string> :=
    {"id", "nome", "especialidade", "crm", "email", "dataCadastro"}

  /** `toJSON()` as stored by `JSON.stringify`: the six properties, those that
      are `undefined` omitted. */
  function ToJSON(p: Profissional): (r: JsonObject)
    ensures r.Keys <= ProfissionalKeys && "dataCadastro" in r
    ensures Get(r, "id") == p.id && Get(r, "nome") == p.nome
    ensures Get(r, "especialidade") == p.especialidade && Get(r, "crm") == p.crm
    ensures Get(r, "email") == p.email
    ensures r["dataCadastro"] == p.dataCadastro
  {
    Stringified(map[
      "id" := p.id,
      "nome" := p.nome,
      "especialidade" := p.especialidade,
      "crm" := p.crm,
      "email" := p.email,
      "dataCadastro" := Some(p.dataCadastro)])
  }

  /** `Profissional.fromJSON(json)` at clock time `now`. */
  function FromJSON(json: JsonObject, now: string): (p: Profissional)
    ensures p.id == Get(json, "id") && p.nome == Get(json, "nome")
    ensures p.especialidade == Get(json, "especialidade") && p.crm == Get(json, "crm")
    ensures p.email == Get(json, "email")
    ensures p.dataCadastro == Or(Get(json, "dataCadastro"), now)
  {
    var p := NewProfissional(Get(json, "id"), Get(json, "nome"), Get(json, "especialidade"),
                             Get(json, "crm"), Get(json, "email"), now);
    p.(dataCadastro := Or(Get(json, "dataCadastro"), now))
  }

  /** A practitioner with a registration timestamp survives a JSON round trip. */
  lemma FromToJSON(p: Profissional, now: string)
    requires p.dataCadastro != ""
    ensures FromJSON(ToJSON(p), now) == p
  {
  }

  /** Reading a stored object and writing it back keeps exactly its six
      properties, with the registration timestamp defaulted. */
  lemma ToFromJSON(json: JsonObject, now: string)
    ensures var r := ToJSON(FromJSON(json, now));
            (forall k :: k in ProfissionalKeys - {"dataCadastro"} ==> Get(r, k) == Get(json, k))
            && r["dataCadastro"] == Or(Get(json, "dataCadastro"), now)
            && r.Keys <= ProfissionalKeys
  {
  }
}
