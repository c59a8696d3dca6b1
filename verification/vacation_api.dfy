/** The vacation request handlers (src/app/api/ferias/route.ts): `POST`
    checks the required fields and the employee, then creates a pending
    request with its defaults; `PATCH` checks the id and the status, finds
    the request and writes the new status with the audit fields of the
    outcome. `new Date(text)` is the parser `parseDate`, `parseInt` the
    parser `parseInt`, `new Date()` the parameter `agora`, and the id the
    database generates the parameter `id`. */
module VacationApi {
  import opened Common
  import opened Dates
  import opened Database

  const CAMPOS_OBRIGATORIOS := "Campos obrigatórios não preenchidos"
  const FUNCIONARIO_NAO_ENCONTRADO := "Funcionário não encontrado"
  const ERRO_INTERNO := "Erro interno do servidor"
  const ID_STATUS_OBRIGATORIOS := "ID e status são obrigatórios"
  const NAO_ENCONTRADA := "Solicitação de férias não encontrada"

  const PENDENTE := "PENDENTE"
  const APROVADA := "APROVADA"
  const REJEITADA := "REJEITADA"
  const SISTEMA := "Sistema"

  /** The body of a `POST`. */
  datatype CreateBody = CreateBody(
    funcionarioId: Option<string>,
    dataInicio: Option<string>,
    dataFim: Option<string>,
    dias: Scalar,
    motivo: Option<string>,
    observacoes: Option<string>)

  /** A body field the ORM writes only when it is present: an absent field
      (`undefined`) leaves the column as it is, `null` clears it. */
  datatype Field = Absent | Present(value: Option<string>)

  /** The body of a `PATCH`. */
  datatype StatusBody = StatusBody(
    id: Option<string>,
    status: Option<string>,
    motivo: Field,
    aprovadoPor: Option<string>)

  // ---------------------------------------------------------------------
  // POST
  // ---------------------------------------------------------------------

  /** The reply of `POST` for `b` over the employee table. A date that does
      not parse or a day count that is not a number makes the insertion
      fail, which the handler reports as an internal error. */
  function CreateReply(
    funcionarios: map<string, Funcionario>, b: CreateBody, id: string,
    parseDate: string -> Option<Date>, parseInt: Scalar -> Option<int>): (r: Response<Ferias>)
    ensures !Truthy(b.funcionarioId) || !Truthy(b.dataInicio) || !Truthy(b.dataFim)
            ==> r == Err(400, CAMPOS_OBRIGATORIOS)
    ensures Truthy(b.funcionarioId) && Truthy(b.dataInicio) && Truthy(b.dataFim)
            && b.funcionarioId.value !in funcionarios
            ==> r == Err(404, FUNCIONARIO_NAO_ENCONTRADO)
    ensures Truthy(b.funcionarioId) && Truthy(b.dataInicio) && Truthy(b.dataFim)
            && b.funcionarioId.value in funcionarios
            && (parseDate(b.dataInicio.value).None? || parseDate(b.dataFim.value).None? || parseInt(b.dias).None?)
            ==> r == Err(500, ERRO_INTERNO)
    ensures r.Ok? <==>
              && Truthy(b.funcionarioId) && Truthy(b.dataInicio) && Truthy(b.dataFim)
              && b.funcionarioId.value in funcionarios
              && parseDate(b.dataInicio.value).Some? && parseDate(b.dataFim.value).Some? && parseInt(b.dias).Some?
    ensures r.Err? ==> r.status in {400, 404, 500}
    ensures r.Ok? ==>
              && r.status == 201
              && r.value.id == id
              && r.value.funcionarioId in funcionarios && Some(r.value.funcionarioId) == b.funcionarioId
              && r.value.status == PENDENTE
              && r.value.diasDisponiveis == 30
              && Some(r.value.dataInicio) == parseDate(b.dataInicio.value)
              && Some(r.value.dataFim) == parseDate(b.dataFim.value)
              && r.value.ano == r.value.dataInicio.year
              && Some(r.value.diasSolicitados) == parseInt(b.dias)
              && r.value.motivo == b.motivo
              && r.value.observacoes == OrElse(b.observacoes, "")
              && r.value.dataAprovacao.None? && r.value.dataRecusa.None?
  {
    if !Truthy(b.funcionarioId) || !Truthy(b.dataInicio) || !Truthy(b.dataFim) then
      Err(400, CAMPOS_OBRIGATORIOS)
    else if b.funcionarioId.value !in funcionarios then
      Err(404, FUNCIONARIO_NAO_ENCONTRADO)
    else
      var inicio, fim, dias := parseDate(b.dataInicio.value), parseDate(b.dataFim.value), parseInt(b.dias);
      if inicio.None? || fim.None? || dias.None? then
        Err(500, ERRO_INTERNO)
      else
        Ok(201, Ferias(
          id, b.funcionarioId.value, inicio.value.year, inicio.value, fim.value, dias.value, 30,
          b.motivo, PENDENTE, OrElse(b.observacoes, ""), None, None, None, None, None))
  }

  /** `POST` over the store: the new request is inserted when it is
      accepted, and nothing changes otherwise. */
  method Post(
    db: Store, b: CreateBody, id: string,
    parseDate: string -> Option<Date>, parseInt: Scalar -> Option<int>) returns (r: Response<Ferias>)
    requires db.Valid() && id !in db.ferias
    modifies db
    ensures r == CreateReply(old(db.funcionarios), b, id, parseDate, parseInt)
    ensures r.Ok? ==> db.ferias == old(db.ferias)[id := r.value]
    ensures r.Err? ==> db.ferias == old(db.ferias)
    ensures db.funcionarios == old(db.funcionarios) && db.alteracoes == old(db.alteracoes)
    ensures db.Valid()
  {
    r := CreateReply(db.funcionarios, b, id, parseDate, parseInt);
    if r.Ok? {
      db.ferias := db.ferias[id := r.value];
    }
  }

  // ---------------------------------------------------------------------
  // PATCH
  // ---------------------------------------------------------------------

  /** The stored request after `update({ data: updateData })`. */
  function Updated(f: Ferias, status: string, motivo: Field, aprovadoPor: Option<string>, agora: Timestamp): (g: Ferias)
    ensures g.status == status
    ensures g.id == f.id && g.funcionarioId == f.funcionarioId
    ensures status == APROVADA ==>
              g == f.(status := status, dataAprovacao := Some(agora), aprovadoPor := Some(OrElse(aprovadoPor, SISTEMA)),
                      motivo := if motivo.Present? then motivo.value else f.motivo)
    ensures status == REJEITADA ==>
              g == f.(status := status, dataRecusa := Some(agora), recusadoPor := Some(OrElse(aprovadoPor, SISTEMA)),
                      motivoRecusa := if motivo.Present? then motivo.value else f.motivoRecusa)
    ensures status != APROVADA && status != REJEITADA ==> g == f.(status := status)
  {
    if status == APROVADA then
      var g := f.(status := status, dataAprovacao := Some(agora), aprovadoPor := Some(OrElse(aprovadoPor, SISTEMA)));
      if motivo.Present? then g.(motivo := motivo.value) else g
    else if status == REJEITADA then
      var g := f.(status := status, dataRecusa := Some(agora), recusadoPor := Some(OrElse(aprovadoPor, SISTEMA)));
      if motivo.Present? then g.(motivoRecusa := motivo.value) else g
    else
      f.(status := status)
  }

  /** The reply of `PATCH` for `b` over the request table. */
  function StatusReply(ferias: map<string, Ferias>, b: StatusBody, agora: Timestamp): (r: Response<Ferias>)
    ensures !Truthy(b.id) || !Truthy(b.status) ==> r == Err(400, ID_STATUS_OBRIGATORIOS)
    ensures Truthy(b.id) && Truthy(b.status) && b.id.value !in ferias ==> r == Err(400, NAO_ENCONTRADA)
    ensures r.Err? ==> r.status == 400
    ensures r.Ok? <==> Truthy(b.id) && Truthy(b.status) && b.id.value in ferias
    ensures r.Ok? ==> r.status == 200 && r.value == Updated(ferias[b.id.value], b.status.value, b.motivo, b.aprovadoPor, agora)
  {
    if !Truthy(b.id) || !Truthy(b.status) then
      Err(400, ID_STATUS_OBRIGATORIOS)
    else if b.id.value !in ferias then
      Err(400, NAO_ENCONTRADA)
    else
      Ok(200, Updated(ferias[b.id.value], b.status.value, b.motivo, b.aprovadoPor, agora))
  }

  /** An approval leaves the refusal fields as they were, and a refusal
      leaves the request's own `motivo` as it was. */
  lemma OutcomesWriteTheirOwnFields(f: Ferias, motivo: Field, aprovadoPor: Option<string>, agora: Timestamp)
    ensures var g := Updated(f, APROVADA, motivo, aprovadoPor, agora);
            g.dataRecusa == f.dataRecusa && g.recusadoPor == f.recusadoPor && g.motivoRecusa == f.motivoRecusa
            && g.dataAprovacao == Some(agora)
    ensures var g := Updated(f, REJEITADA, motivo, aprovadoPor, agora);
            g.dataAprovacao == f.dataAprovacao && g.aprovadoPor == f.aprovadoPor && g.motivo == f.motivo
            && g.dataRecusa == Some(agora)
  {
  }

  /** The current status is never consulted: every stored request can be
      moved to every non-empty status, approved and rejected ones
      included. */
  lemma AnyTransitionAccepted(ferias: map<string, Ferias>, id: string, status: string, agora: Timestamp)
    requires id != "" && id in ferias && status != ""
    ensures var r := StatusReply(ferias, StatusBody(Some(id), Some(status), Absent, None), agora);
            r.Ok? && r.value.status == status
  {
  }

  /** `PATCH` over the store: the request is rewritten in place when it is
      found, and nothing changes otherwise. */
  method Patch(db: Store, b: StatusBody, agora: Timestamp) returns (r: Response<Ferias>)
    requires db.Valid()
    modifies db
    ensures r == StatusReply(old(db.ferias), b, agora)
    ensures r.Ok? ==> db.ferias == old(db.ferias)[b.id.value := r.value]
    ensures r.Err? ==> db.ferias == old(db.ferias)
    ensures db.funcionarios == old(db.funcionarios) && db.alteracoes == old(db.alteracoes)
    ensures db.Valid()
  {
    r := StatusReply(db.ferias, b, agora);
    if r.Ok? {
      db.ferias := db.ferias[b.id.value := r.value];
    }
  }
}
