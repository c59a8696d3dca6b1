/** The salary report dialog (src/components/salarios/relatorio-salarial-dialog.tsx):
    the active employees, the department filter, the list of departments,
    the summary figures of the filtered list and the badge on each row. */
module SalaryReport {
  import opened Common
  import opened Records
  import opened Aggregates

  /** The filter value that keeps every department. */
  const TODOS := "todos"

  const ACIMA := "Acima da média"
  const ABAIXO := "Abaixo da média"

  /** `data.filter(f => f.status === 'ATIVO')`: the employees the dialog
      loads. */
  function Loaded(data: seq<Employee>): (r: seq<Employee>)
    ensures |r| <= |data|
    ensures forall f :: f in r <==> f in data && IsActive(f)
  {
    FilterMembershipAll(data, IsActive);
    Filter(data, IsActive)
  }

  /** `funcionariosFiltrados` */
  function Filtered(funcionarios: seq<Employee>, filtro: string): (r: seq<Employee>)
    ensures |r| <= |funcionarios|
    ensures filtro == TODOS ==> r == funcionarios
    ensures filtro != TODOS ==>
              forall f :: f in r <==> f in funcionarios && f.departamento == filtro
  {
    if filtro == TODOS then funcionarios
    else
      FilterMembershipAll(funcionarios, (f: Employee) => f.departamento == filtro);
      Filter(funcionarios, (f: Employee) => f.departamento == filtro)
  }

  /** `funcionarios.map(f => f.departamento)` */
  function DepartmentsOf(fs: seq<Employee>): (r: seq<string>)
    ensures |r| == |fs|
    ensures forall i :: 0 <= i < |fs| ==> r[i] == fs[i].departamento
  {
    if fs == [] then [] else DepartmentsOf(fs[..|fs| - 1]) + [fs[|fs| - 1].departamento]
  }

  /** `[...new Set(funcionarios.map(f => f.departamento))]`: each
      department of the loaded employees exactly once. */
  function Departamentos(funcionarios: seq<Employee>): (r: seq<string>)
    ensures Distinct(r)
    ensures forall d :: d in r <==> exists i :: 0 <= i < |funcionarios| && funcionarios[i].departamento == d
  {
    var ds := DepartmentsOf(funcionarios);
    DedupSpec(ds);
    assert forall d :: d in ds <==> exists i :: 0 <= i < |funcionarios| && funcionarios[i].departamento == d by {
      forall d | d in ds
        ensures exists i :: 0 <= i < |funcionarios| && funcionarios[i].departamento == d
      {
        var i :| 0 <= i < |ds| && ds[i] == d;
        assert funcionarios[i].departamento == d;
      }
    }
    Dedup(ds)
  }

  /** Departments are listed in the order in which they first appear
      among the loaded employees. */
  lemma DepartamentosOrder(fs: seq<Employee>)
    ensures forall d :: d in Departamentos(fs) ==> d in DepartmentsOf(fs)
    ensures forall i, j :: 0 <= i < j < |Departamentos(fs)| ==>
              FirstIndex(DepartmentsOf(fs), Departamentos(fs)[i]) < FirstIndex(DepartmentsOf(fs), Departamentos(fs)[j])
  {
    DedupOrder(DepartmentsOf(fs));
  }

  /** The five figures of the report. */
  datatype Estatisticas = Estatisticas(
    totalFuncionarios: nat,
    salarioMedio: real,
    maiorSalario: real,
    menorSalario: real,
    totalFolha: real)

  /** `estatisticas` of the filtered list. */
  function ComputeEstatisticas(fs: seq<Employee>): (r: Estatisticas)
    ensures r.totalFuncionarios == |fs|
    ensures r.totalFolha == Sum(Salaries(fs))
    ensures fs == [] ==> r == Estatisticas(0, 0.0, 0.0, 0.0, 0.0)
    ensures fs != [] ==>
              && r.salarioMedio == r.totalFolha / (r.totalFuncionarios as real)
              && r.menorSalario <= r.salarioMedio <= r.maiorSalario
              && (forall f :: f in fs ==> r.menorSalario <= f.salario <= r.maiorSalario)
              && (exists f :: f in fs && f.salario == r.maiorSalario)
              && (exists f :: f in fs && f.salario == r.menorSalario)
  {
    var salarios := Salaries(fs);
    if fs == [] then
      Estatisticas(0, 0.0, 0.0, 0.0, Sum(salarios))
    else
      MeanBetween(salarios);
      SalaryExtremes(fs);
      Estatisticas(|salarios|, Mean(salarios), Max(salarios), Min(salarios), Sum(salarios))
  }

  /** The greatest and least salary of a list are salaries of employees in
      it, and bound every salary in it. */
  lemma SalaryExtremes(fs: seq<Employee>)
    requires fs != []
    ensures forall f :: f in fs ==> Min(Salaries(fs)) <= f.salario <= Max(Salaries(fs))
    ensures exists f :: f in fs && f.salario == Max(Salaries(fs))
    ensures exists f :: f in fs && f.salario == Min(Salaries(fs))
  {
    var salarios := Salaries(fs);
    forall f | f in fs
      ensures Min(salarios) <= f.salario <= Max(salarios)
    {
      var i :| 0 <= i < |fs| && fs[i] == f;
      assert salarios[i] == f.salario;
    }
    var iMax :| 0 <= iMax < |salarios| && salarios[iMax] == Max(salarios);
    var iMin :| 0 <= iMin < |salarios| && salarios[iMin] == Min(salarios);
    assert fs[iMax] in fs && fs[iMin] in fs;
  }

  /** The payroll is the average salary times the headcount. */
  lemma PayrollIsMeanTimesCount(fs: seq<Employee>)
    requires fs != []
    ensures ComputeEstatisticas(fs).totalFolha
            == ComputeEstatisticas(fs).salarioMedio * (ComputeEstatisticas(fs).totalFuncionarios as real)
  {
    MeanFigure(ComputeEstatisticas(fs));
  }

  /** `Aggregates.Cancel` applied to the figures of one record, apart from
      the definition that computed them. */
  lemma MeanFigure(r: Estatisticas)
    requires r.totalFuncionarios > 0
    requires r.salarioMedio == r.totalFolha / (r.totalFuncionarios as real)
    ensures r.totalFolha == r.salarioMedio * (r.totalFuncionarios as real)
  {
    Cancel(r.totalFolha, r.totalFuncionarios as real);
  }

  /** The badge of a row. */
  function Badge(salario: real, salarioMedio: real): (b: string)
    ensures b == ACIMA <==> salarioMedio > 0.0 && salario > salarioMedio
    ensures b == ACIMA || b == ABAIXO
  {
    if salarioMedio > 0.0 && salario > salarioMedio then ACIMA else ABAIXO
  }

  /** Not every row of a non-empty report is above the average: the lowest
      paid employee never is. */
  lemma SomeoneNotAbove(fs: seq<Employee>)
    requires fs != []
    ensures exists f :: f in fs && Badge(f.salario, ComputeEstatisticas(fs).salarioMedio) == ABAIXO
  {
    var r := ComputeEstatisticas(fs);
    var f :| f in fs && f.salario == r.menorSalario;
    assert Badge(f.salario, r.salarioMedio) == ABAIXO;
  }

  /** The report of the dialog: the filtered list of the loaded employees
      and its figures. */
  function Report(data: seq<Employee>, filtro: string): (r: Estatisticas)
    ensures r.totalFuncionarios <= |data|
    ensures filtro == TODOS ==> r.totalFuncionarios == |Loaded(data)|
  {
    ComputeEstatisticas(Filtered(Loaded(data), filtro))
  }
}
