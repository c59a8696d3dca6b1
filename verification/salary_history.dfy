/** The salary change handler (`POST` of src/app/api/salarios/historico/route.ts):
    checks, then a change record that keeps the employee's salary before the
    change, then the new salary written back to the employee.
    `parseFloat` is the parser `parseNumber`, `new Date()` the parameter
    `agora`, and the id the database generates the parameter `id`. */
module SalaryHistory {
  import opened Common
  import opened Database

  const CAMPOS_OBRIGATORIOS := "Campos obrigatórios não preenchidos"
  const SALARIO_INVALIDO := "Salário deve ser um valor válido maior que zero"
  const FUNCIONARIO_NAO_ENCONTRADO := "Funcionário não encontrado"
  const SISTEMA := "Sistema"

  datatype ChangeBody = ChangeBody(
    funcionarioId: Option<string>,
    novoSalario: Scalar,
    motivo: Option<string>,
    aprovadoPor: Option<string>)

  /** The raise from `atual` to `novo`, in percent of `atual`; zero when
      there is no salary to compare with. */
  function Percentual(atual: real, novo: real): (p: real)
    ensures atual > 0.0 ==> p * atual == (novo - atual) * 100.0
    ensures atual > 0.0 ==> (p > 0.0 <==> novo > atual) && (p == 0.0 <==> novo == atual)
    ensures atual <= 0.0 ==> p == 0.0
  {
    if atual > 0.0 then (novo - atual) / atual * 100.0 else 0.0
  }

  /** The reply of the handler for `b` over the employee table. */
  function ChangeReply(
    funcionarios: map<string, Funcionario>, b: ChangeBody, id: string,
    parseNumber: string -> Option<real>, agora: Timestamp): (r: Response<AlteracaoSalarial>)
    ensures !Truthy(b.funcionarioId) || !ScalarTruthy(b.novoSalario) || !Truthy(b.motivo)
            ==> r == Err(400, CAMPOS_OBRIGATORIOS)
    ensures Truthy(b.funcionarioId) && ScalarTruthy(b.novoSalario) && Truthy(b.motivo)
            && (ParseScalar(b.novoSalario, parseNumber).None? || ParseScalar(b.novoSalario, parseNumber).value < 0.0)
            ==> r == Err(400, SALARIO_INVALIDO)
    ensures Truthy(b.funcionarioId) && ScalarTruthy(b.novoSalario) && Truthy(b.motivo)
            && ParseScalar(b.novoSalario, parseNumber).Some? && ParseScalar(b.novoSalario, parseNumber).value >= 0.0
            && b.funcionarioId.value !in funcionarios
            ==> r == Err(404, FUNCIONARIO_NAO_ENCONTRADO)
    ensures r.Err? ==> r.status in {400, 404}
    ensures r.Err? && r.status == 404 <==> r == Err(404, FUNCIONARIO_NAO_ENCONTRADO)
    ensures r == Err(404, FUNCIONARIO_NAO_ENCONTRADO) ==> b.funcionarioId.value !in funcionarios
    ensures r.Ok? <==>
              && Truthy(b.funcionarioId) && ScalarTruthy(b.novoSalario) && Truthy(b.motivo)
              && ParseScalar(b.novoSalario, parseNumber).Some?
              && ParseScalar(b.novoSalario, parseNumber).value >= 0.0
              && b.funcionarioId.value in funcionarios
    ensures r.Ok? ==>
              && r.status == 201
              && r.value.id == id
              && Some(r.value.funcionarioId) == b.funcionarioId
              && r.value.salarioAnterior == funcionarios[r.value.funcionarioId].salario
              && Some(r.value.novoSalario) == ParseScalar(b.novoSalario, parseNumber)
              && r.value.novoSalario >= 0.0
              && r.value.percentualAumento == Percentual(r.value.salarioAnterior, r.value.novoSalario)
              && r.value.motivo == b.motivo.value
              && r.value.dataAlteracao == agora
              && r.value.aprovadoPor == OrElse(b.aprovadoPor, SISTEMA)
  {
    if !Truthy(b.funcionarioId) || !ScalarTruthy(b.novoSalario) || !Truthy(b.motivo) then
      Err(400, CAMPOS_OBRIGATORIOS)
    else
      var novo := ParseScalar(b.novoSalario, parseNumber);
      if novo.None? || novo.value < 0.0 then
        Err(400, SALARIO_INVALIDO)
      else if b.funcionarioId.value !in funcionarios then
        Err(404, FUNCIONARIO_NAO_ENCONTRADO)
      else
        var atual := funcionarios[b.funcionarioId.value].salario;
        Ok(201, AlteracaoSalarial(
          id, b.funcionarioId.value, atual, novo.value, Percentual(atual, novo.value),
          b.motivo.value, agora, OrElse(b.aprovadoPor, SISTEMA)))
  }

  /** A numeric zero is refused before it is parsed: the truthiness check
      treats it as a missing field. */
  lemma ZeroSalaryRefused(
    funcionarios: map<string, Funcionario>, b: ChangeBody, id: string,
    parseNumber: string -> Option<real>, agora: Timestamp)
    requires b.novoSalario == Num(0.0)
    ensures ChangeReply(funcionarios, b, id, parseNumber, agora) == Err(400, CAMPOS_OBRIGATORIOS)
  {
  }

  /** The handler over the store: on success the change is recorded and
      the employee's salary becomes the new one, and no other employee
      changes. */
  method Post(
    db: Store, b: ChangeBody, id: string,
    parseNumber: string -> Option<real>, agora: Timestamp) returns (r: Response<AlteracaoSalarial>)
    requires db.Valid() && id !in db.alteracoes
    modifies db
    ensures r == ChangeReply(old(db.funcionarios), b, id, parseNumber, agora)
    ensures r.Ok? ==> db.alteracoes == old(db.alteracoes)[id := r.value]
    ensures r.Ok? ==> db.funcionarios == old(db.funcionarios)[r.value.funcionarioId :=
                        old(db.funcionarios)[r.value.funcionarioId].(salario := r.value.novoSalario)]
    ensures r.Err? ==> db.funcionarios == old(db.funcionarios) && db.alteracoes == old(db.alteracoes)
    ensures db.ferias == old(db.ferias)
    ensures db.Valid()
  {
    r := ChangeReply(db.funcionarios, b, id, parseNumber, agora);
    if r.Ok? {
      var k := r.value.funcionarioId;
      db.alteracoes := db.alteracoes[id := r.value];
      SalaryUpdateKeepsUnique(db.funcionarios, k, r.value.novoSalario);
      db.funcionarios := db.funcionarios[k := db.funcionarios[k].(salario := r.value.novoSalario)];
    }
  }
}
