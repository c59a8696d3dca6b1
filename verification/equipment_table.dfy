/** The in-memory equipment loan table of the equipment request handler
    (src/app/api/equipamentos/route.ts): a module-level list of records and
    two counters that number new records (`mem-N`) and loan-history entries
    (`hist-N`). POST appends a record, PATCH either returns a loaned item
    (resetting it and logging the loan in its history) or merges the truthy
    fields of the request body into it, and GET projects the records with
    the borrower's name, position and department. */
module EquipmentTable {
  import opened Common
  import opened Decimal

  const DISPONIVEL := "DISPONIVEL"
  const EM_USO := "EM_USO"
  const DEVOLVIDO := "DEVOLVIDO"

  const RecordPrefix := "mem-"
  const HistoryPrefix := "hist-"

  /** One finished loan in an item's history. */
  datatype LoanEntry = LoanEntry(
    id: string,
    funcionarioId: string,
    dataEmprestimo: string,
    dataDevolucao: string,
    observacoes: string)

  /** One record of the table. Timestamps are ISO strings supplied by the
      caller (the handler reads the clock). */
  datatype Equipment = Equipment(
    id: string,
    tipo: string,
    descricao: string,
    marca: string,
    modelo: string,
    numeroSerie: Option<string>,
    status: string,
    observacoes: string,
    funcionarioId: Option<string>,
    dataEmprestimo: Option<string>,
    dataDevolucao: Option<string>,
    historico: seq<LoanEntry>,
    createdAt: string,
    updatedAt: string)

  /** The JSON body of a POST. */
  datatype PostBody = PostBody(
    tipo: Option<string>,
    descricao: Option<string>,
    marca: Option<string>,
    modelo: Option<string>,
    numeroSerie: Option<string>,
    observacoes: Option<string>)

  /** The JSON body of a PATCH; `devolver` is `body.devolver === true`. */
  datatype PatchBody = PatchBody(
    id: Option<string>,
    status: Option<string>,
    devolver: bool,
    funcionarioId: Option<string>,
    dataEmprestimo: Option<string>,
    dataDevolucao: Option<string>,
    observacoes: Option<string>)

  /** The borrower as GET describes it. */
  datatype FuncionarioRef = FuncionarioRef(id: string, nome: string, cargo: string, departamento: string)

  /** A record as GET returns it. */
  datatype EquipmentView = EquipmentView(record: Equipment, funcionario: Option<FuncionarioRef>)

  // ---------------------------------------------------------------------
  // POST
  // ---------------------------------------------------------------------

  /** The required-field check of POST: tipo, descricao, marca and modelo
      must all be truthy. */
  predicate PostAccepted(body: PostBody) {
    Truthy(body.tipo) && Truthy(body.descricao) && Truthy(body.marca) && Truthy(body.modelo)
  }

  /** The record POST creates under the id `id`. */
  function NewEquipment(id: string, body: PostBody, now: string): (e: Equipment)
    requires PostAccepted(body)
    ensures e.id == id && e.status == DISPONIVEL
    ensures e.funcionarioId == None && e.dataEmprestimo == None && e.dataDevolucao == None
    ensures e.historico == []
    ensures e.tipo == body.tipo.value && e.descricao == body.descricao.value
    ensures e.marca == body.marca.value && e.modelo == body.modelo.value
    ensures e.numeroSerie == None || Truthy(e.numeroSerie)
    ensures Truthy(body.numeroSerie) ==> e.numeroSerie == body.numeroSerie
    ensures e.observacoes == (if Truthy(body.observacoes) then body.observacoes.value else "")
  {
    Equipment(id, body.tipo.value, body.descricao.value, body.marca.value, body.modelo.value,
              OrNull(body.numeroSerie), DISPONIVEL, OrElse(body.observacoes, ""),
              None, None, None, [], now, now)
  }

  // ---------------------------------------------------------------------
  // PATCH
  // ---------------------------------------------------------------------

  /** `findIndex(eq => eq.id === id)`: the first position holding `id`. */
  function IndexOf(items: seq<Equipment>, id: string): (r: Option<nat>)
    ensures r.Some? ==> r.value < |items| && items[r.value].id == id
    ensures r.Some? ==> forall j :: 0 <= j < r.value ==> items[j].id != id
    ensures r.None? ==> forall j :: 0 <= j < |items| ==> items[j].id != id
  {
    if items == [] then None
    else if items[0].id == id then Some(0)
    else match IndexOf(items[1..], id)
      case None => None
      case Some(k) => Some(k + 1)
  }

  /** PATCH takes the return branch for status DEVOLVIDO or `devolver: true`. */
  predicate IsReturn(body: PatchBody) {
    body.status == Some(DEVOLVIDO) || body.devolver
  }

  /** An item is on an active loan when both its borrower and its loan date
      are truthy; only then does a return log a history entry. */
  predicate HasActiveLoan(e: Equipment) {
    Truthy(e.funcionarioId) && Truthy(e.dataEmprestimo)
  }

  /** The return branch: the record becomes available, loses its borrower
      and loan date, records the return date, and, if a loan was active,
      gains at the front of its history an entry (numbered `histId`) for
      that loan. */
  function Returned(e: Equipment, now: string, histId: string): (r: Equipment)
    ensures r.status == DISPONIVEL && r.funcionarioId == None && r.dataEmprestimo == None
    ensures r.dataDevolucao == Some(now) && r.updatedAt == now
    ensures HasActiveLoan(e) ==>
      r.historico == [LoanEntry(histId, e.funcionarioId.value, e.dataEmprestimo.value, now, e.observacoes)] + e.historico
    ensures !HasActiveLoan(e) ==> r.historico == e.historico
    ensures r.id == e.id && r.tipo == e.tipo && r.descricao == e.descricao && r.marca == e.marca
    ensures r.modelo == e.modelo && r.numeroSerie == e.numeroSerie && r.observacoes == e.observacoes
    ensures r.createdAt == e.createdAt
  {
    var historico :=
      if HasActiveLoan(e)
      then [LoanEntry(histId, e.funcionarioId.value, e.dataEmprestimo.value, now, OrElse(Some(e.observacoes), ""))] + e.historico
      else e.historico;
    e.(status := DISPONIVEL, funcionarioId := None, dataEmprestimo := None,
       dataDevolucao := Some(now), historico := historico, updatedAt := now)
  }

  /** The merge branch: each of funcionarioId, status, dataEmprestimo,
      dataDevolucao and observacoes is overwritten only when the body's
      value for it is truthy; everything else is kept. */
  function Merged(e: Equipment, body: PatchBody, now: string): (r: Equipment)
    ensures r.funcionarioId == (if Truthy(body.funcionarioId) then body.funcionarioId else e.funcionarioId)
    ensures r.status == (if Truthy(body.status) then body.status.value else e.status)
    ensures r.dataEmprestimo == (if Truthy(body.dataEmprestimo) then body.dataEmprestimo else e.dataEmprestimo)
    ensures r.dataDevolucao == (if Truthy(body.dataDevolucao) then body.dataDevolucao else e.dataDevolucao)
    ensures r.observacoes == (if Truthy(body.observacoes) then body.observacoes.value else e.observacoes)
    ensures r.updatedAt == now
    ensures r.(updatedAt := e.updatedAt, funcionarioId := e.funcionarioId, status := e.status,
               dataEmprestimo := e.dataEmprestimo, dataDevolucao := e.dataDevolucao,
               observacoes := e.observacoes) == e
  {
    e.(funcionarioId := if Truthy(body.funcionarioId) then body.funcionarioId else e.funcionarioId,
       status := if Truthy(body.status) then body.status.value else e.status,
       dataEmprestimo := if Truthy(body.dataEmprestimo) then body.dataEmprestimo else e.dataEmprestimo,
       dataDevolucao := if Truthy(body.dataDevolucao) then body.dataDevolucao else e.dataDevolucao,
       observacoes := if Truthy(body.observacoes) then body.observacoes.value else e.observacoes,
       updatedAt := now)
  }

  /** The body the "Devolver" button of the in-use page sends carries status
      DISPONIVEL rather than DEVOLVIDO. It therefore takes the merge branch:
      the item is marked available but keeps its borrower and loan date, and
      no history entry is written. */
  lemma DevolverButtonKeepsBorrower(e: Equipment, id: string, returnedAt: string, now: string)
    requires returnedAt != ""
    ensures var body := PatchBody(Some(id), Some(DISPONIVEL), false, None, None, Some(returnedAt), None);
            && !IsReturn(body)
            && Merged(e, body, now).status == DISPONIVEL
            && Merged(e, body, now).funcionarioId == e.funcionarioId
            && Merged(e, body, now).dataEmprestimo == e.dataEmprestimo
            && Merged(e, body, now).dataDevolucao == Some(returnedAt)
            && Merged(e, body, now).historico == e.historico
  {
  }

  // ---------------------------------------------------------------------
  // GET
  // ---------------------------------------------------------------------

  /** `getFuncionarioNome` */
  function FuncionarioNome(id: string): string {
    var nomes := map[
      "func-joao" := "João Silva", "func-maria" := "Maria Santos",
      "func-pedro" := "Pedro Oliveira", "func-ana" := "Ana Costa",
      "func-carlos" := "Carlos Ferreira", "func-lucia" := "Lúcia Almeida",
      "func-rafael" := "Rafael Souza", "func-julia" := "Julia Rodrigues",
      "func-marcos" := "Marcos Lima", "func-patricia" := "Patrícia Gomes"];
    if id in nomes then nomes[id] else "Funcionário Desconhecido"
  }

  /** `getFuncionarioCargo` */
  function FuncionarioCargo(id: string): string {
    var cargos := map[
      "func-joao" := "Desenvolvedor Senior", "func-maria" := "Analista de Sistemas",
      "func-pedro" := "Gerente de Projetos", "func-ana" := "Designer UX/UI",
      "func-carlos" := "DevOps Engineer", "func-lucia" := "Product Manager",
      "func-rafael" := "Desenvolvedor Full Stack", "func-julia" := "QA Engineer",
      "func-marcos" := "Tech Lead", "func-patricia" := "Scrum Master"];
    if id in cargos then cargos[id] else "Cargo Não Definido"
  }

  /** `getFuncionarioDepartamento` */
  function FuncionarioDepartamento(id: string): string {
    var departamentos := map[
      "func-joao" := "Tecnologia", "func-maria" := "Tecnologia",
      "func-pedro" := "Tecnologia", "func-ana" := "Design",
      "func-carlos" := "Tecnologia", "func-lucia" := "Produto",
      "func-rafael" := "Tecnologia", "func-julia" := "Qualidade",
      "func-marcos" := "Tecnologia", "func-patricia" := "Agile"];
    if id in departamentos then departamentos[id] else "Departamento Não Definido"
  }

  /** One record as GET shows it: a borrower object exactly when
      funcionarioId is truthy, falsy dates normalised to null and missing
      timestamps filled with the current time. */
  function View(e: Equipment, now: string): (v: EquipmentView)
    ensures v.funcionario.None? <==> !Truthy(e.funcionarioId)
    ensures v.funcionario.Some? ==> v.funcionario.value.id == e.funcionarioId.value
    ensures v.record.(dataEmprestimo := e.dataEmprestimo, dataDevolucao := e.dataDevolucao,
                      createdAt := e.createdAt, updatedAt := e.updatedAt) == e
    ensures v.record.dataEmprestimo == OrNull(e.dataEmprestimo)
    ensures v.record.dataDevolucao == OrNull(e.dataDevolucao)
    ensures v.record.createdAt == (if e.createdAt != "" then e.createdAt else now)
    ensures v.record.updatedAt == (if e.updatedAt != "" then e.updatedAt else now)
  {
    var funcionario :=
      if Truthy(e.funcionarioId)
      then Some(FuncionarioRef(e.funcionarioId.value, FuncionarioNome(e.funcionarioId.value),
                               FuncionarioCargo(e.funcionarioId.value),
                               FuncionarioDepartamento(e.funcionarioId.value)))
      else None;
    EquipmentView(
      e.(dataEmprestimo := OrNull(e.dataEmprestimo), dataDevolucao := OrNull(e.dataDevolucao),
         createdAt := OrElse(Some(e.createdAt), now), updatedAt := OrElse(Some(e.updatedAt), now)),
      funcionario)
  }

  /** `equipamentosEmMemoria.map(...)`: the same records, in the same order. */
  function ViewAll(items: seq<Equipment>, now: string): (r: seq<EquipmentView>)
    ensures |r| == |items|
    ensures forall i :: 0 <= i < |items| ==> r[i] == View(items[i], now) && r[i].record.id == items[i].id
  {
    seq(|items|, i requires 0 <= i < |items| => View(items[i], now))
  }

  // ---------------------------------------------------------------------
  // Identity of records and history entries
  // ---------------------------------------------------------------------

  /** `id` is `prefix + k` for some counter value `1 <= k < bound`. */
  predicate IssuedBelow(prefix: string, id: string, bound: nat) {
    var s := SerialOf(prefix, id);
    s.Some? && 1 <= s.value < bound
  }

  /** A fresh id, numbered with the counter's current value, differs from
      every id issued below it. */
  lemma FreshTagDiffers(prefix: string, id: string, bound: nat)
    requires IssuedBelow(prefix, id, bound)
    ensures id != Tagged(prefix, bound)
  {
    SerialOfTagged(prefix, bound);
  }

  predicate DistinctIds(items: seq<Equipment>) {
    forall i, j :: 0 <= i < j < |items| ==> items[i].id != items[j].id
  }

  predicate HistoryIdsIssuedBelow(items: seq<Equipment>, bound: nat) {
    forall i, k :: 0 <= i < |items| && 0 <= k < |items[i].historico| ==>
      IssuedBelow(HistoryPrefix, items[i].historico[k].id, bound)
  }

  /** The invariant of the table: counters start at 1, every record id is
      `mem-k` for a counter value already used, the record ids are pairwise
      distinct, and every history-entry id is `hist-k` for a counter value
      already used. */
  predicate TableInvariant(items: seq<Equipment>, nextId: nat, nextHistId: nat) {
    && nextId >= 1 && nextHistId >= 1
    && (forall i :: 0 <= i < |items| ==> IssuedBelow(RecordPrefix, items[i].id, nextId))
    && DistinctIds(items)
    && HistoryIdsIssuedBelow(items, nextHistId)
  }

  /** A return keeps the invariant, with the history counter advanced
      exactly when an entry is logged; the logged entry's id is new to the
      whole table. */
  lemma ReturnKeepsTableValid(items: seq<Equipment>, i: nat, now: string, nextId: nat, nextHistId: nat)
    requires TableInvariant(items, nextId, nextHistId) && i < |items|
    ensures var e := items[i];
            var updated := Returned(e, now, Tagged(HistoryPrefix, nextHistId));
            TableInvariant(items[i := updated], nextId, nextHistId + (if HasActiveLoan(e) then 1 else 0))
    ensures HasActiveLoan(items[i]) ==>
      forall j, k :: 0 <= j < |items| && 0 <= k < |items[j].historico| ==>
        items[j].historico[k].id != Tagged(HistoryPrefix, nextHistId)
  {
    var e := items[i];
    var histId := Tagged(HistoryPrefix, nextHistId);
    var updated := Returned(e, now, histId);
    var after := items[i := updated];
    var bound := nextHistId + (if HasActiveLoan(e) then 1 else 0);
    SerialOfTagged(HistoryPrefix, nextHistId);
    forall j, k | 0 <= j < |items| && 0 <= k < |items[j].historico|
      ensures items[j].historico[k].id != histId
    {
      FreshTagDiffers(HistoryPrefix, items[j].historico[k].id, nextHistId);
    }
    forall j, k | 0 <= j < |after| && 0 <= k < |after[j].historico|
      ensures IssuedBelow(HistoryPrefix, after[j].historico[k].id, bound)
    {
      if j != i {
        assert IssuedBelow(HistoryPrefix, items[j].historico[k].id, nextHistId);
      } else if HasActiveLoan(e) && k > 0 {
        assert after[j].historico[k] == e.historico[k - 1];
        assert IssuedBelow(HistoryPrefix, e.historico[k - 1].id, nextHistId);
      } else if !HasActiveLoan(e) {
        assert IssuedBelow(HistoryPrefix, e.historico[k].id, nextHistId);
      }
    }
    forall j | 0 <= j < |after|
      ensures IssuedBelow(RecordPrefix, after[j].id, nextId)
    {
      assert after[j].id == items[j].id;
    }
  }

  /** A merge keeps the invariant: ids and histories are untouched. */
  lemma MergeKeepsTableValid(items: seq<Equipment>, i: nat, body: PatchBody, now: string, nextId: nat, nextHistId: nat)
    requires TableInvariant(items, nextId, nextHistId) && i < |items|
    ensures TableInvariant(items[i := Merged(items[i], body, now)], nextId, nextHistId)
  {
    var after := items[i := Merged(items[i], body, now)];
    forall j, k | 0 <= j < |after| && 0 <= k < |after[j].historico|
      ensures IssuedBelow(HistoryPrefix, after[j].historico[k].id, nextHistId)
    {
      assert after[j].historico == items[j].historico;
    }
    forall j | 0 <= j < |after|
      ensures IssuedBelow(RecordPrefix, after[j].id, nextId)
    {
      assert after[j].id == items[j].id;
    }
  }

  function SeedLoan(n: nat, funcionarioId: string, emprestimo: string, devolucao: string, obs: string): LoanEntry {
    LoanEntry(Tagged(HistoryPrefix, n), funcionarioId, emprestimo, devolucao, obs)
  }

  function SeedItem(n: nat, tipo: string, descricao: string, marca: string, modelo: string,
                    serie: string, historico: seq<LoanEntry>, now: string): Equipment {
    Equipment(Tagged(RecordPrefix, n), tipo, descricao, marca, modelo, Some(serie), DISPONIVEL, "",
              None, None, None, historico, now, now)
  }

  /** The three records the table starts with, mem-1..mem-3, with loan
      histories hist-1..hist-3. */
  function Seed(now: string): (items: seq<Equipment>)
    ensures |items| == 3
  {
    var h1 := SeedLoan(1, "func-joao", "2025-08-15T10:00:00.000Z", "2025-08-20T17:30:00.000Z",
                       "Empréstimo para projeto de desenvolvimento");
    var h2 := SeedLoan(2, "func-maria", "2025-08-25T09:15:00.000Z", "2025-09-01T18:08:53.557Z",
                       "Empréstimo para análise de sistemas");
    var h3 := SeedLoan(3, "func-pedro", "2025-08-10T14:00:00.000Z", "2025-08-18T16:45:00.000Z",
                       "Empréstimo para gerenciamento de projetos");
    [ SeedItem(1, "NOTEBOOK", "MacBook Pro", "Apple", "MacBook Pro 16\"", "MBP001", [h1, h2], now),
      SeedItem(2, "MONITOR", "Monitor Dell", "Dell", "P2419H", "MON001", [h3], now),
      SeedItem(3, "HEADPHONE", "Headphone Sony", "Sony", "WH-1000XM4", "HP001", [], now) ]
  }

  lemma SmallRenders()
    ensures Render(1) == "1" && Render(2) == "2" && Render(3) == "3"
  {
    assert DigitChar(1) == '1' && DigitChar(2) == '2' && DigitChar(3) == '3';
  }

  /** The seeded table satisfies the invariant with both counters at 4, its
      ids are mem-1, mem-2 and mem-3, and every seeded item is available. */
  lemma SeedValid(now: string)
    ensures TableInvariant(Seed(now), 4, 4)
    ensures Seed(now)[0].id == "mem-1" && Seed(now)[1].id == "mem-2" && Seed(now)[2].id == "mem-3"
    ensures forall i :: 0 <= i < 3 ==> Seed(now)[i].status == DISPONIVEL && Seed(now)[i].funcionarioId == None
  {
    var items := Seed(now);
    SeedRecordIds(now);
    SeedHistoryIds(now);
    SmallRenders();
  }

  /** The seeded record ids are mem-1, mem-2 and mem-3: issued below 4 and
      pairwise distinct. */
  lemma SeedRecordIds(now: string)
    ensures forall i :: 0 <= i < 3 ==> IssuedBelow(RecordPrefix, Seed(now)[i].id, 4)
    ensures DistinctIds(Seed(now))
    ensures Seed(now)[0].id == Tagged(RecordPrefix, 1) && Seed(now)[1].id == Tagged(RecordPrefix, 2)
            && Seed(now)[2].id == Tagged(RecordPrefix, 3)
  {
    var items := Seed(now);
    var a, b, c := Tagged(RecordPrefix, 1), Tagged(RecordPrefix, 2), Tagged(RecordPrefix, 3);
    assert items[0].id == a && items[1].id == b && items[2].id == c;
    SerialOfTagged(RecordPrefix, 1);
    SerialOfTagged(RecordPrefix, 2);
    SerialOfTagged(RecordPrefix, 3);
    TaggedInjective(RecordPrefix, 1, 2);
    TaggedInjective(RecordPrefix, 1, 3);
    TaggedInjective(RecordPrefix, 2, 3);
  }

  /** The seeded loan entries are hist-1, hist-2 and hist-3, all issued
      below 4. */
  lemma SeedHistoryIds(now: string)
    ensures HistoryIdsIssuedBelow(Seed(now), 4)
  {
    var items := Seed(now);
    SerialOfTagged(HistoryPrefix, 1);
    SerialOfTagged(HistoryPrefix, 2);
    SerialOfTagged(HistoryPrefix, 3);
    assert |items[0].historico| == 2 && items[0].historico[0].id == Tagged(HistoryPrefix, 1)
           && items[0].historico[1].id == Tagged(HistoryPrefix, 2);
    assert |items[1].historico| == 1 && items[1].historico[0].id == Tagged(HistoryPrefix, 3);
    assert |items[2].historico| == 0;
  }

  class Table {
    /** `equipamentosEmMemoria` */
    var items: seq<Equipment>
    /** `nextId`: the number of the next record id */
    var nextId: nat
    /** `nextHistId`: the number of the next history-entry id */
    var nextHistId: nat

    /** Every record id is `mem-k` for a counter value already used, the
        record ids are pairwise distinct, and every history-entry id is
        `hist-k` for a counter value already used. */
    ghost predicate Valid()
      reads this
    {
      TableInvariant(items, nextId, nextHistId)
    }

    /** The three seeded records mem-1..mem-3, with loan histories hist-1..hist-3. */
    constructor (now: string)
      ensures Valid()
      ensures nextId == 4 && nextHistId == 4
      ensures |items| == 3
      ensures items[0].id == "mem-1" && items[1].id == "mem-2" && items[2].id == "mem-3"
      ensures forall i :: 0 <= i < 3 ==> items[i].status == DISPONIVEL && items[i].funcionarioId == None
    {
      items := Seed(now);
      nextId := 4;
      nextHistId := 4;
      new;
      SeedValid(now);
    }

    /** POST: a body missing tipo, descricao, marca or modelo is refused with
        400 and changes nothing; otherwise one available record, numbered
        with the counter, is appended and the counter advances. */
    method Post(body: PostBody, now: string) returns (r: Response<Equipment>)
      requires Valid()
      modifies this
      ensures Valid()
      ensures nextHistId == old(nextHistId)
      ensures !PostAccepted(body) ==>
        && r == Err(400, "Campos obrigatórios: tipo, descricao, marca, modelo")
        && items == old(items) && nextId == old(nextId)
      ensures PostAccepted(body) ==>
        && r == Ok(201, NewEquipment(Tagged(RecordPrefix, old(nextId)), body, now))
        && items == old(items) + [r.value]
        && nextId == old(nextId) + 1
      ensures PostAccepted(body) ==> forall i :: 0 <= i < |old(items)| ==> old(items)[i].id != r.value.id
    {
      if !PostAccepted(body) {
        r := Err(400, "Campos obrigatórios: tipo, descricao, marca, modelo");
      } else {
        r := Append(body, now);
      }
    }

    /** The accepting branch of POST. */
    method Append(body: PostBody, now: string) returns (r: Response<Equipment>)
      requires Valid() && PostAccepted(body)
      modifies this
      ensures Valid()
      ensures nextHistId == old(nextHistId)
      ensures r == Ok(201, NewEquipment(Tagged(RecordPrefix, old(nextId)), body, now))
      ensures items == old(items) + [r.value] && nextId == old(nextId) + 1
      ensures forall i :: 0 <= i < |old(items)| ==> old(items)[i].id != r.value.id
    {
      var id := Tagged(RecordPrefix, nextId);
      SerialOfTagged(RecordPrefix, nextId);
      forall i | 0 <= i < |items|
        ensures items[i].id != id
      {
        FreshTagDiffers(RecordPrefix, items[i].id, nextId);
      }
      ghost var before, bound := items, nextId;
      assert forall i :: 0 <= i < |before| ==> IssuedBelow(RecordPrefix, before[i].id, bound);
      nextId := nextId + 1;
      var novo := NewEquipment(id, body, now);
      items := items + [novo];
      forall i | 0 <= i < |items|
        ensures IssuedBelow(RecordPrefix, items[i].id, nextId)
      {
        if i < |before| {
          assert items[i] == before[i] && IssuedBelow(RecordPrefix, before[i].id, bound);
        }
      }
      r := Ok(201, novo);
    }

    /** PATCH: 400 without an id and 404 for an unknown one, both without
        change; otherwise the record at the id's position is replaced by its
        returned or merged version, nothing else in the list changes, and the
        history counter advances exactly when a return logs an entry. */
    method Patch(body: PatchBody, now: string) returns (r: Response<Equipment>)
      requires Valid()
      modifies this
      ensures Valid()
      ensures nextId == old(nextId)
      ensures |items| == |old(items)|
      ensures !Truthy(body.id) ==>
        r == Err(400, "ID é obrigatório") && items == old(items) && nextHistId == old(nextHistId)
      ensures Truthy(body.id) && IndexOf(old(items), body.id.value).None? ==>
        r == Err(404, "Equipamento não encontrado") && items == old(items) && nextHistId == old(nextHistId)
      ensures Truthy(body.id) && IndexOf(old(items), body.id.value).Some? ==>
        var i := IndexOf(old(items), body.id.value).value;
        var e := old(items)[i];
        var logs := IsReturn(body) && HasActiveLoan(e);
        && r == Ok(200, items[i])
        && items == old(items)[i := if IsReturn(body)
                                    then Returned(e, now, Tagged(HistoryPrefix, old(nextHistId)))
                                    else Merged(e, body, now)]
        && nextHistId == old(nextHistId) + (if logs then 1 else 0)
        && (logs ==> forall j, k :: 0 <= j < |old(items)| && 0 <= k < |old(items)[j].historico| ==>
                       old(items)[j].historico[k].id != items[i].historico[0].id)
    {
      if !Truthy(body.id) {
        r := Err(400, "ID é obrigatório");
      } else {
        var index := IndexOf(items, body.id.value);
        if index.None? {
          r := Err(404, "Equipamento não encontrado");
        } else {
          var i := index.value;
          var e := items[i];
          if IsReturn(body) {
            var updated := Returned(e, now, Tagged(HistoryPrefix, nextHistId));
            ReturnKeepsTableValid(items, i, now, nextId, nextHistId);
            if HasActiveLoan(e) {
              nextHistId := nextHistId + 1;
            }
            items := items[i := updated];
          } else {
            MergeKeepsTableValid(items, i, body, now, nextId, nextHistId);
            items := items[i := Merged(e, body, now)];
          }
          r := Ok(200, items[i]);
        }
      }
    }

    /** GET: every record, in order, with its borrower resolved. */
    function Get(now: string): (r: seq<EquipmentView>)
      reads this
      ensures |r| == |items|
      ensures forall i :: 0 <= i < |items| ==>
        && r[i].record.id == items[i].id
        && r[i].record.status == items[i].status
        && (r[i].funcionario.None? <==> !Truthy(items[i].funcionarioId))
      ensures r == ViewAll(items, now)
    {
      ViewAll(items, now)
    }
  }
}
