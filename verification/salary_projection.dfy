/** The salary projection dialog (src/components/salarios/projecoes-salarial-dialog.tsx):
    one projected raise, in percent or in value, applied to every active
    employee, and the totals of the projection. The projection list is
    recomputed whenever the raise, its kind or the employees change, so the
    dialog keeps it equal to the function `Projecoes` of those three.
    `parseFloat` is the parser `parseNumber`. */
module SalaryProjection {
  import opened Common
  import opened Records
  import opened Aggregates
  import opened SalaryChangeForm

  datatype Projecao = Projecao(
    funcionario: Employee,
    salarioAtual: real,
    salarioProjetado: real,
    diferenca: real,
    percentualAumento: real)

  /** The projection of one employee under a raise of `valor`. */
  function Project(f: Employee, tipo: Tipo, valor: real): (p: Projecao)
    ensures p.funcionario == f && p.salarioAtual == f.salario
    ensures p.diferenca == p.salarioProjetado - p.salarioAtual
    ensures tipo == Valor ==> p.diferenca == valor
    ensures tipo == Percentual ==> p.diferenca * 100.0 == f.salario * valor
    ensures f.salario > 0.0 ==> p.percentualAumento * f.salario == p.diferenca * 100.0
    ensures f.salario <= 0.0 ==> p.percentualAumento == 0.0
  {
    var projetado := ApplyRaise(f.salario, tipo, valor);
    Projecao(f, f.salario, projetado, projetado - f.salario, PercentOf(f.salario, projetado))
  }

  /** `calcularProjecoes`: nothing for an empty or unparseable raise, and
      otherwise one projection per employee, in order. */
  function Projecoes(fs: seq<Employee>, tipo: Tipo, valor: string, parseNumber: string -> Option<real>): (r: seq<Projecao>)
    ensures valor == "" || parseNumber(valor).None? ==> r == []
    ensures valor != "" && parseNumber(valor).Some? ==>
              |r| == |fs| && forall i :: 0 <= i < |fs| ==> r[i] == Project(fs[i], tipo, parseNumber(valor).value)
  {
    if valor == "" || parseNumber(valor).None? then []
    else
      var v := parseNumber(valor).value;
      seq(|fs|, i requires 0 <= i < |fs| => Project(fs[i], tipo, v))
  }

  /** One field of every projection, in order. */
  function Column(ps: seq<Projecao>, field: Projecao -> real): (r: seq<real>)
    ensures |r| == |ps| && forall i :: 0 <= i < |ps| ==> r[i] == field(ps[i])
  {
    seq(|ps|, i requires 0 <= i < |ps| => field(ps[i]))
  }

  function SalarioAtual(p: Projecao): real { p.salarioAtual }
  function SalarioProjetado(p: Projecao): real { p.salarioProjetado }
  function Diferenca(p: Projecao): real { p.diferenca }
  function PercentualAumento(p: Projecao): real { p.percentualAumento }

  datatype Estatisticas = Estatisticas(
    totalFuncionarios: nat,
    custoAtual: real,
    custoProjetado: real,
    diferencaTotal: real,
    percentualMedio: real)

  /** The totals shown above the projection list; the mean percent is zero
      for an empty list. */
  function EstatisticasOf(ps: seq<Projecao>): (r: Estatisticas)
    ensures r.totalFuncionarios == |ps|
    ensures ps == [] ==> r == Estatisticas(0, 0.0, 0.0, 0.0, 0.0)
    ensures ps != [] ==> r.percentualMedio == Mean(Column(ps, PercentualAumento))
  {
    Estatisticas(
      |ps|,
      Sum(Column(ps, SalarioAtual)),
      Sum(Column(ps, SalarioProjetado)),
      Sum(Column(ps, Diferenca)),
      if |ps| > 0 then Mean(Column(ps, PercentualAumento)) else 0.0)
  }

  /** Termwise sums add up. */
  lemma {:induction false} SumPointwise(a: seq<real>, b: seq<real>, c: seq<real>)
    requires |a| == |b| == |c|
    requires forall i :: 0 <= i < |a| ==> a[i] == b[i] + c[i]
    ensures Sum(a) == Sum(b) + Sum(c)
    decreases |a|
  {
    if a != [] {
      var n := |a| - 1;
      SumPointwise(a[..n], b[..n], c[..n]);
    }
  }

  /** Terms in a fixed ratio have sums in that ratio. */
  lemma {:induction false} SumsInRatio(a: seq<real>, b: seq<real>, j: real, k: real)
    requires |a| == |b|
    requires forall i :: 0 <= i < |a| ==> a[i] * j == b[i] * k
    ensures Sum(a) * j == Sum(b) * k
    decreases |a|
  {
    if a != [] {
      var n := |a| - 1;
      SumsInRatio(a[..n], b[..n], j, k);
      assert Sum(a) * j == Sum(a[..n]) * j + a[n] * j;
      assert Sum(b) * k == Sum(b[..n]) * k + b[n] * k;
    }
  }

  /** The projected cost is the current cost plus the total difference,
      for every list of projections the dialog builds. */
  lemma CostsAddUp(fs: seq<Employee>, tipo: Tipo, valor: string, parseNumber: string -> Option<real>)
    ensures var e := EstatisticasOf(Projecoes(fs, tipo, valor, parseNumber));
            e.custoProjetado == e.custoAtual + e.diferencaTotal
  {
    var ps := Projecoes(fs, tipo, valor, parseNumber);
    SumPointwise(Column(ps, SalarioProjetado), Column(ps, SalarioAtual), Column(ps, Diferenca));
  }

  /** A raise in value costs that value once per employee. */
  lemma ValueRaiseCost(fs: seq<Employee>, valor: string, parseNumber: string -> Option<real>)
    requires valor != "" && parseNumber(valor).Some?
    ensures EstatisticasOf(Projecoes(fs, Valor, valor, parseNumber)).diferencaTotal
            == (|fs| as real) * parseNumber(valor).value
  {
    var v := parseNumber(valor).value;
    var ps := Projecoes(fs, Valor, valor, parseNumber);
    assert |ps| == |fs|;
    ValueTerms(fs, v, ps);
    TotalOfEqualTerms(ps, v);
  }

  /** Projections whose raises are all `v` have a total raise of `v` per
      projection. */
  lemma TotalOfEqualTerms(ps: seq<Projecao>, v: real)
    requires forall i :: 0 <= i < |ps| ==> ps[i].diferenca == v
    ensures EstatisticasOf(ps).diferencaTotal == (|ps| as real) * v
  {
    SumBetween(Column(ps, Diferenca), v, v);
  }

  /** A raise in percent costs that percent of the current payroll. */
  lemma PercentRaiseCost(fs: seq<Employee>, valor: string, parseNumber: string -> Option<real>)
    requires valor != "" && parseNumber(valor).Some?
    ensures var e := EstatisticasOf(Projecoes(fs, Percentual, valor, parseNumber));
            e.diferencaTotal * 100.0 == e.custoAtual * parseNumber(valor).value
  {
    var v := parseNumber(valor).value;
    var ps := Projecoes(fs, Percentual, valor, parseNumber);
    PercentTerms(fs, v, ps);
    TotalsInRatio(ps, v);
  }

  /** Projections whose raises are all the percent `v` of their salary
      have a total raise of `v` percent of the current cost. */
  lemma TotalsInRatio(ps: seq<Projecao>, v: real)
    requires forall i :: 0 <= i < |ps| ==> ps[i].diferenca * 100.0 == ps[i].salarioAtual * v
    ensures EstatisticasOf(ps).diferencaTotal * 100.0 == EstatisticasOf(ps).custoAtual * v
  {
    var d, a := Column(ps, Diferenca), Column(ps, SalarioAtual);
    SumsInRatio(d, a, 100.0, v);
    var e := EstatisticasOf(ps);
    assert e.diferencaTotal == Sum(d) && e.custoAtual == Sum(a);
  }

  /** Each projected raise in value is that value. */
  lemma ValueTerms(fs: seq<Employee>, v: real, ps: seq<Projecao>)
    requires |ps| == |fs| && forall i :: 0 <= i < |fs| ==> ps[i] == Project(fs[i], Valor, v)
    ensures forall i :: 0 <= i < |ps| ==> ps[i].diferenca == v
  {
  }

  /** Each projected raise in percent is that percent of the salary. */
  lemma PercentTerms(fs: seq<Employee>, v: real, ps: seq<Projecao>)
    requires |ps| == |fs| && forall i :: 0 <= i < |fs| ==> ps[i] == Project(fs[i], Percentual, v)
    ensures forall i :: 0 <= i < |ps| ==> ps[i].diferenca * 100.0 == ps[i].salarioAtual * v
  {
  }

  /** When every salary is positive, a raise in percent shows that same
      percent as the mean raise. */
  lemma PercentRaiseMean(fs: seq<Employee>, valor: string, parseNumber: string -> Option<real>)
    requires valor != "" && parseNumber(valor).Some? && |fs| > 0
    requires forall i :: 0 <= i < |fs| ==> fs[i].salario > 0.0
    ensures EstatisticasOf(Projecoes(fs, Percentual, valor, parseNumber)).percentualMedio == parseNumber(valor).value
  {
    var v := parseNumber(valor).value;
    var ps := Projecoes(fs, Percentual, valor, parseNumber);
    var pc := Column(ps, PercentualAumento);
    forall i | 0 <= i < |pc|
      ensures pc[i] == v
    {
      var s := fs[i].salario;
      assert pc[i] * s == v * s;
    }
    MeanWithin(pc, v, v);
  }

  /** The dialog's state. */
  class ProjecoesDialog {
    const parseNumber: string -> Option<real>
    var funcionarios: seq<Employee>
    var tipoProjecao: Tipo
    var valorProjecao: string
    var projecoes: seq<Projecao>
    var error: Option<string>

    /** The projection list is the one of the current inputs. */
    predicate Synced()
      reads this
    {
      projecoes == Projecoes(funcionarios, tipoProjecao, valorProjecao, parseNumber)
    }

    constructor (parseNumber: string -> Option<real>)
      ensures Synced() && this.parseNumber == parseNumber
      ensures funcionarios == [] && tipoProjecao == Percentual && valorProjecao == "" && projecoes == [] && error == None
    {
      this.parseNumber := parseNumber;
      funcionarios, tipoProjecao, valorProjecao := [], Percentual, "";
      projecoes, error := [], None;
    }

    /** `fetchFuncionarios` succeeded: only active employees are projected. */
    method Load(data: seq<Employee>)
      modifies this
      ensures funcionarios == Filter(data, IsActive)
      ensures forall i :: 0 <= i < |projecoes| ==> IsActive(projecoes[i].funcionario)
      ensures tipoProjecao == old(tipoProjecao) && valorProjecao == old(valorProjecao) && error == old(error)
      ensures Synced()
    {
      funcionarios := Filter(data, IsActive);
      projecoes := Projecoes(funcionarios, tipoProjecao, valorProjecao, parseNumber);
    }

    method SetValor(valor: string)
      modifies this
      ensures valorProjecao == valor
      ensures funcionarios == old(funcionarios) && tipoProjecao == old(tipoProjecao) && error == old(error)
      ensures Synced()
    {
      valorProjecao := valor;
      projecoes := Projecoes(funcionarios, tipoProjecao, valorProjecao, parseNumber);
    }

    method SetTipo(tipo: Tipo)
      modifies this
      ensures tipoProjecao == tipo
      ensures funcionarios == old(funcionarios) && valorProjecao == old(valorProjecao) && error == old(error)
      ensures Synced()
    {
      tipoProjecao := tipo;
      projecoes := Projecoes(funcionarios, tipoProjecao, valorProjecao, parseNumber);
    }

    /** `handleClose`: the raise is cleared and the kind goes back to
        percent; the list left empty is the list of the cleared inputs. */
    method HandleClose()
      modifies this
      ensures tipoProjecao == Percentual && valorProjecao == "" && projecoes == [] && error == None
      ensures funcionarios == old(funcionarios)
      ensures Synced()
    {
      tipoProjecao, valorProjecao := Percentual, "";
      projecoes, error := [], None;
    }
  }
}
