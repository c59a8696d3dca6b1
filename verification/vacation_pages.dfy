/** The vacation overview (src/app/ferias/page.tsx) and the list of employees
    with vacation owed (src/app/ferias/em-haver/page.tsx). Both single out
    the employees with at least one whole year of work and no vacation
    request of any status; whole years come from the clock and are given as
    the function `anos`. */
module VacationPages {
  import opened Common
  import opened Records

  /** `new Set(feriasData.map(f => f.funcionarioId))` */
  function RequestedIds(requests: seq<VacationRequest>): (ids: set<string>)
    ensures forall id :: id in ids <==> exists i :: 0 <= i < |requests| && requests[i].funcionarioId == id
  {
    if requests == [] then {}
    else RequestedIds(requests[..|requests| - 1]) + {requests[|requests| - 1].funcionarioId}
  }

  /** The filter both pages apply. */
  predicate OwedVacation(f: Employee, anos: Employee -> int, requested: set<string>) {
    anos(f) >= 1 && f.id !in requested
  }

  /** One row of the em-haver list. */
  datatype OwedRow = OwedRow(
    id: string,
    nome: string,
    cargo: string,
    departamento: string,
    dataAdmissao: string,
    anosTrabalhados: int,
    direitoTotal: int,
    diasJaTirados: int,
    diasDisponiveis: int)

  /** The row built for an employee: nothing taken yet, the whole
      entitlement available. */
  function RowOf(f: Employee, anos: int): (r: OwedRow)
    ensures r.id == f.id && r.nome == f.nome && r.cargo == f.cargo
    ensures r.departamento == f.departamento && r.dataAdmissao == f.dataAdmissao
    ensures r.anosTrabalhados == anos && r.direitoTotal == 10 * anos
    ensures r.diasJaTirados == 0 && r.diasDisponiveis == r.direitoTotal
  {
    var direitoTotal := anos * 10;
    var diasJaTirados := 0;
    OwedRow(f.id, f.nome, f.cargo, f.departamento, f.dataAdmissao,
            anos, direitoTotal, diasJaTirados, direitoTotal - diasJaTirados)
  }

  /** `fetchFuncionariosEmHaver`: the filter, then the row of each kept
      employee, in list order. */
  function OwedList(funcionarios: seq<Employee>, anos: Employee -> int, requests: seq<VacationRequest>): (rows: seq<OwedRow>)
    ensures |rows| <= |funcionarios|
  {
    OwedRows(funcionarios, anos, RequestedIds(requests))
  }

  function OwedRows(funcionarios: seq<Employee>, anos: Employee -> int, requested: set<string>): (rows: seq<OwedRow>)
    ensures |rows| <= |funcionarios|
    ensures forall j :: 0 <= j < |rows| ==> rows[j].anosTrabalhados >= 1 && rows[j].id !in requested
  {
    if funcionarios == [] then []
    else
      var f := funcionarios[|funcionarios| - 1];
      OwedRows(funcionarios[..|funcionarios| - 1], anos, requested)
        + (if OwedVacation(f, anos, requested) then [RowOf(f, anos(f))] else [])
  }

  /** The positions of the employees the em-haver filter keeps, in
      increasing order. */
  function OwedIndices(funcionarios: seq<Employee>, anos: Employee -> int, requested: set<string>): (idx: seq<nat>)
    ensures forall j :: 0 <= j < |idx| ==> idx[j] < |funcionarios|
    ensures forall j, k :: 0 <= j < k < |idx| ==> idx[j] < idx[k]
    ensures forall i :: 0 <= i < |funcionarios| ==> (i in idx <==> OwedVacation(funcionarios[i], anos, requested))
  {
    if funcionarios == [] then []
    else
      var n := |funcionarios| - 1;
      OwedIndices(funcionarios[..n], anos, requested) + (if OwedVacation(funcionarios[n], anos, requested) then [n] else [])
  }

  /** The em-haver list follows the employee list: its j-th row is the row
      of the employee at the j-th kept position. */
  lemma {:induction false} OwedRowsInOrder(funcionarios: seq<Employee>, anos: Employee -> int, requested: set<string>)
    ensures var rows, idx := OwedRows(funcionarios, anos, requested), OwedIndices(funcionarios, anos, requested);
            |rows| == |idx|
            && forall j :: 0 <= j < |idx| ==> rows[j] == RowOf(funcionarios[idx[j]], anos(funcionarios[idx[j]]))
  {
    if funcionarios != [] {
      var n := |funcionarios| - 1;
      var init := funcionarios[..n];
      OwedRowsInOrder(init, anos, requested);
      var rows, idx := OwedRows(init, anos, requested), OwedIndices(init, anos, requested);
      var f := funcionarios[n];
      assert OwedRows(funcionarios, anos, requested)
             == rows + (if OwedVacation(f, anos, requested) then [RowOf(f, anos(f))] else []);
      assert OwedIndices(funcionarios, anos, requested)
             == idx + (if OwedVacation(f, anos, requested) then [n] else []);
      forall j | 0 <= j < |idx|
        ensures funcionarios[idx[j]] == init[idx[j]]
      {
      }
    }
  }

  /** An employee is listed exactly when they have a whole year of work and
      no request of any status. */
  lemma {:induction false} OwedListMembership(funcionarios: seq<Employee>, anos: Employee -> int,
                                              requests: seq<VacationRequest>, f: Employee)
    requires f in funcionarios
    ensures RowOf(f, anos(f)) in OwedList(funcionarios, anos, requests)
            <==> anos(f) >= 1 && forall i :: 0 <= i < |requests| ==> requests[i].funcionarioId != f.id
  {
    OwedRowsMembership(funcionarios, anos, RequestedIds(requests), f);
  }

  lemma {:induction false} OwedRowsMembership(funcionarios: seq<Employee>, anos: Employee -> int, requested: set<string>, f: Employee)
    ensures RowOf(f, anos(f)) in OwedRows(funcionarios, anos, requested) ==> OwedVacation(f, anos, requested)
    ensures f in funcionarios && OwedVacation(f, anos, requested) ==> RowOf(f, anos(f)) in OwedRows(funcionarios, anos, requested)
  {
    if funcionarios != [] {
      var init := funcionarios[..|funcionarios| - 1];
      var g := funcionarios[|funcionarios| - 1];
      assert funcionarios == init + [g];
      OwedRowsMembership(init, anos, requested, f);
      if RowOf(g, anos(g)) == RowOf(f, anos(f)) {
        assert g.id == f.id && anos(g) == anos(f);
      }
    }
  }

  /** Every listed row is a whole year or more, owes at least ten days and
      copies an employee of the list. */
  lemma {:induction false} OwedRowsShape(funcionarios: seq<Employee>, anos: Employee -> int, requested: set<string>)
    ensures forall r :: r in OwedRows(funcionarios, anos, requested) ==>
              r.diasDisponiveis >= 10 && r.diasJaTirados == 0
              && exists f :: f in funcionarios && r == RowOf(f, anos(f))
  {
    if funcionarios != [] {
      var init := funcionarios[..|funcionarios| - 1];
      OwedRowsShape(init, anos, requested);
      assert funcionarios == init + [funcionarios[|funcionarios| - 1]];
    }
  }

  // ---------------------------------------------------------------------
  // The overview counters
  // ---------------------------------------------------------------------

  datatype VacationStats = VacationStats(
    totalFuncionarios: nat,
    feriasPendentes: nat,
    feriasAprovadas: nat,
    feriasRejeitadas: nat,
    funcionariosComFeriasEmHaver: nat)

  /** Employees satisfying the em-haver filter, counted. */
  function OwedCount(funcionarios: seq<Employee>, anos: Employee -> int, requested: set<string>): (n: nat)
    ensures n <= |funcionarios|
  {
    if funcionarios == [] then 0
    else
      OwedCount(funcionarios[..|funcionarios| - 1], anos, requested)
        + (if OwedVacation(funcionarios[|funcionarios| - 1], anos, requested) then 1 else 0)
  }

  /** `fetchStats` of the overview. */
  function ComputeVacationStats(funcionarios: seq<Employee>, anos: Employee -> int, requests: seq<VacationRequest>): (s: VacationStats)
    ensures s.totalFuncionarios == |funcionarios|
    ensures s.feriasPendentes == Count(requests, IsPending)
    ensures s.feriasAprovadas == Count(requests, IsApproved)
    ensures s.feriasRejeitadas == Count(requests, IsRejected)
    ensures s.feriasPendentes + s.feriasAprovadas + s.feriasRejeitadas <= |requests|
    ensures s.funcionariosComFeriasEmHaver <= s.totalFuncionarios
  {
    StatusCountsBounded(requests);
    VacationStats(|funcionarios|, Count(requests, IsPending), Count(requests, IsApproved), Count(requests, IsRejected),
                  OwedCount(funcionarios, anos, RequestedIds(requests)))
  }

  /** The three status counters never count one request twice. */
  lemma StatusCountsBounded(requests: seq<VacationRequest>)
    ensures Count(requests, IsPending) + Count(requests, IsApproved) + Count(requests, IsRejected) <= |requests|
  {
    var decided := (r: VacationRequest) => IsApproved(r) || IsRejected(r);
    var any := (r: VacationRequest) => IsPending(r) || decided(r);
    CountDisjointUnion(requests, IsApproved, IsRejected, decided);
    CountDisjointUnion(requests, IsPending, decided, any);
  }

  /** The overview's em-haver counter is the length of the em-haver list
      for the same data. */
  lemma {:induction false} OwedCountIsListLength(funcionarios: seq<Employee>, anos: Employee -> int, requested: set<string>)
    ensures OwedCount(funcionarios, anos, requested) == |OwedRows(funcionarios, anos, requested)|
  {
    if funcionarios != [] {
      OwedCountIsListLength(funcionarios[..|funcionarios| - 1], anos, requested);
    }
  }

  lemma StatsMatchOwedList(funcionarios: seq<Employee>, anos: Employee -> int, requests: seq<VacationRequest>)
    ensures ComputeVacationStats(funcionarios, anos, requests).funcionariosComFeriasEmHaver
            == |OwedList(funcionarios, anos, requests)|
  {
    OwedCountIsListLength(funcionarios, anos, RequestedIds(requests));
  }
}
