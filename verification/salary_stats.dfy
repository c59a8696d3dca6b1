/** The salary statistics handler (src/app/api/salarios/stats/route.ts):
    over the active employees, the count, and the average, greatest, least
    and total of the salaries greater than zero. */
module SalaryStats {
  import opened Common
  import opened Records
  import opened Aggregates

  datatype Stats = Stats(
    totalFuncionarios: nat,
    salarioMedio: real,
    maiorSalario: real,
    menorSalario: real,
    totalFolha: real,
    funcionariosComSalario: nat)

  predicate IsPositive(s: real) { s > 0.0 }

  /** `funcionarios.map(f => f.salario).filter(s => s > 0)` */
  function PositiveSalaries(funcionarios: seq<Employee>): (r: seq<real>)
    ensures |r| <= |funcionarios|
    ensures forall s :: s in r <==> s > 0.0 && exists f :: f in funcionarios && f.salario == s
  {
    var salarios := Salaries(funcionarios);
    forall s
      ensures s in salarios <==> exists f :: f in funcionarios && f.salario == s
    {
      if s in salarios {
        var i :| 0 <= i < |salarios| && salarios[i] == s;
        assert funcionarios[i] in funcionarios;
      }
    }
    forall s {
      FilterMembership(salarios, IsPositive, s);
    }
    Filter(salarios, IsPositive)
  }

  /** The figures for `total` active employees whose positive salaries
      are `salarios`. */
  function StatsOf(total: nat, salarios: seq<real>): (r: Stats)
    requires forall i :: 0 <= i < |salarios| ==> salarios[i] > 0.0
    ensures r.totalFuncionarios == total && r.funcionariosComSalario == |salarios|
    ensures r.totalFolha == Sum(salarios)
    ensures salarios == [] ==>
              r.salarioMedio == 0.0 && r.maiorSalario == 0.0 && r.menorSalario == 0.0 && r.totalFolha == 0.0
    ensures salarios != [] ==>
              && 0.0 < r.menorSalario <= r.salarioMedio <= r.maiorSalario
              && r.salarioMedio == r.totalFolha / (r.funcionariosComSalario as real)
              && (forall i :: 0 <= i < |salarios| ==> r.menorSalario <= salarios[i] <= r.maiorSalario)
  {
    if |salarios| > 0 then
      MeanBetween(salarios);
      Stats(total, Mean(salarios), Max(salarios), Min(salarios), Sum(salarios), |salarios|)
    else
      Stats(total, 0.0, 0.0, 0.0, Sum(salarios), 0)
  }

  /** The statistics over `todos`, the employee table, of which the query
      keeps the active employees. */
  function ComputeStats(todos: seq<Employee>): (r: Stats)
    ensures r.totalFuncionarios == Count(todos, IsActive)
    ensures r.funcionariosComSalario <= r.totalFuncionarios
    ensures forall f :: f in todos && IsActive(f) && f.salario > 0.0 ==>
              r.menorSalario <= f.salario <= r.maiorSalario
  {
    var funcionarios := Filter(todos, IsActive);
    var salarios := PositiveSalaries(funcionarios);
    forall f | f in todos && IsActive(f) && f.salario > 0.0
      ensures f.salario in salarios
    {
      FilterMembership(todos, IsActive, f);
    }
    StatsOf(|funcionarios|, salarios)
  }

  /** With no positive salary, every figure but the headcount is zero. */
  lemma UnpaidFiguresZero(todos: seq<Employee>)
    requires ComputeStats(todos).funcionariosComSalario == 0
    ensures var r := ComputeStats(todos);
            r.salarioMedio == 0.0 && r.maiorSalario == 0.0 && r.menorSalario == 0.0 && r.totalFolha == 0.0
  {
    var sal := PositiveSalaries(Filter(todos, IsActive));
    assert ComputeStats(todos) == StatsOf(Count(todos, IsActive), sal);
  }

  /** With at least one positive salary, least, average and greatest come
      in that order, and the payroll is the average times the number of
      paid employees. */
  lemma PaidFiguresOrdered(todos: seq<Employee>, r: Stats)
    requires r == ComputeStats(todos) && r.funcionariosComSalario > 0
    ensures 0.0 < r.menorSalario <= r.salarioMedio <= r.maiorSalario
    ensures r.totalFolha == r.salarioMedio * (r.funcionariosComSalario as real)
  {
    var sal := PositiveSalaries(Filter(todos, IsActive));
    assert r == StatsOf(Count(todos, IsActive), sal);
    MeanFigure(r);
  }

  /** `Aggregates.Cancel` applied to the figures of one record, apart from
      the definition that computed them. */
  lemma MeanFigure(r: Stats)
    requires r.funcionariosComSalario > 0
    requires r.salarioMedio == r.totalFolha / (r.funcionariosComSalario as real)
    ensures r.totalFolha == r.salarioMedio * (r.funcionariosComSalario as real)
  {
    Cancel(r.totalFolha, r.funcionariosComSalario as real);
  }

  /** An active employee without a positive salary is counted and changes
      no other figure. */
  lemma UnpaidChangesOnlyHeadcount(todos: seq<Employee>, f: Employee)
    requires IsActive(f) && f.salario <= 0.0
    ensures ComputeStats(todos + [f])
            == ComputeStats(todos).(totalFuncionarios := ComputeStats(todos).totalFuncionarios + 1)
  {
    var fs := Filter(todos, IsActive);
    FilterAppend(todos, [f], IsActive);
    assert Filter([f], IsActive) == [f] by {
      assert [f][..0] == [];
    }
    UnpaidNotListed(fs, f);
  }

  lemma UnpaidNotListed(fs: seq<Employee>, f: Employee)
    requires f.salario <= 0.0
    ensures PositiveSalaries(fs + [f]) == PositiveSalaries(fs)
  {
    var sal := Salaries(fs);
    assert Salaries(fs + [f]) == sal + [f.salario] by {
      assert (fs + [f])[..|fs + [f]| - 1] == fs;
    }
    assert Filter(sal + [f.salario], IsPositive) == Filter(sal, IsPositive) by {
      assert (sal + [f.salario])[..|sal + [f.salario]| - 1] == sal;
    }
  }
}
