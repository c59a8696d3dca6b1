/** The salary change dialog (src/components/salarios/alteracao-salarial-dialog.tsx):
    the raise calculator in value or percent mode, the two inputs that fill
    each other in, the checks before the change is sent, and closing.
    `parseFloat` is the parser `parseNumber`. A number the dialog writes
    back into an input (`toString`, `toFixed(2)`) is held as the number
    itself. */
module SalaryChangeForm {
  import opened Common
  import opened Records

  datatype Tipo = Valor | Percentual

  /** The text of a raise input: typed by the user, or written by the
      dialog from a computed amount. */
  datatype Entry = Typed(text: string) | Computed(amount: real)

  /** An input's text is non-empty; a computed amount always prints as
      some text. */
  predicate Filled(e: Entry) {
    e.Computed? || e.text != ""
  }

  const EMPTY := Typed("")

  const OBRIGATORIOS := "Funcionário e motivo são obrigatórios"
  const INFORME_AUMENTO := "Informe o valor ou percentual do aumento"
  const SALARIO_INVALIDO := "Salário deve ser um valor válido maior que zero"
  const SISTEMA := "Sistema"

  /** A raise of `x` in mode `tipo` applied to `atual`. */
  function ApplyRaise(atual: real, tipo: Tipo, x: real): (novo: real)
    ensures tipo == Valor ==> novo - atual == x
    ensures tipo == Percentual ==> (novo - atual) * 100.0 == atual * x
  {
    if tipo == Valor then atual + x else atual + atual * x / 100.0
  }

  /** `calcularNovoSalario`: the current salary for an empty or
      unparseable input, and the raise applied otherwise. */
  function CalcularNovoSalario(atual: real, valor: string, tipo: Tipo, parseNumber: string -> Option<real>): (novo: real)
    ensures valor == "" || parseNumber(valor).None? ==> novo == atual
    ensures valor != "" && parseNumber(valor).Some? ==> novo == ApplyRaise(atual, tipo, parseNumber(valor).value)
  {
    if valor == "" || parseNumber(valor).None? then atual
    else ApplyRaise(atual, tipo, parseNumber(valor).value)
  }

  /** The percent the value input fills in: the raise in percent of the
      current salary, or zero when that is not positive. */
  function PercentOf(atual: real, novo: real): (p: real)
    ensures atual > 0.0 ==> p * atual == (novo - atual) * 100.0
    ensures atual <= 0.0 ==> p == 0.0
  {
    if atual > 0.0 then (novo - atual) / atual * 100.0 else 0.0
  }

  /** The two modes agree: the percent derived from a value raise, applied
      as a percent raise, gives the same new salary, and the value derived
      from a percent raise, applied as a value raise, does too. */
  lemma ModesAgree(atual: real, x: real)
    ensures atual > 0.0 ==>
              ApplyRaise(atual, Percentual, PercentOf(atual, ApplyRaise(atual, Valor, x))) == ApplyRaise(atual, Valor, x)
    ensures var novo := ApplyRaise(atual, Percentual, x);
            ApplyRaise(atual, Valor, novo - atual) == novo
  {
    if atual > 0.0 {
      var novo := ApplyRaise(atual, Valor, x);
      var p := PercentOf(atual, novo);
      var back := ApplyRaise(atual, Percentual, p);
      assert (back - atual) * 100.0 == atual * p;
      assert (back - atual) * 100.0 == (novo - atual) * 100.0;
    }
  }

  /** `funcionarios.find(f => f.id === id)` */
  function FindById(fs: seq<Employee>, id: string): (r: Option<Employee>)
    ensures r.Some? ==> r.value in fs && r.value.id == id
    ensures r.None? <==> forall f :: f in fs ==> f.id != id
  {
    if fs == [] then None
    else if fs[0].id == id then Some(fs[0])
    else
      var r := FindById(fs[1..], id);
      assert forall f :: f in fs ==> f == fs[0] || f in fs[1..];
      r
  }

  /** The first failing check of `handleSubmit`, or `None` when the change
      may be sent. */
  function SubmitError(
    selected: string, motivo: string, valor: Entry, percentual: Entry,
    novoSalario: Option<real>): (r: Option<string>)
    ensures selected == "" || motivo == "" ==> r == Some(OBRIGATORIOS)
    ensures selected != "" && motivo != "" && !Filled(valor) && !Filled(percentual) ==> r == Some(INFORME_AUMENTO)
    ensures selected != "" && motivo != "" && (Filled(valor) || Filled(percentual))
            && (novoSalario.None? || novoSalario.value < 0.0)
            ==> r == Some(SALARIO_INVALIDO)
    ensures r.None? <==>
              selected != "" && motivo != "" && (Filled(valor) || Filled(percentual))
              && novoSalario.Some? && novoSalario.value >= 0.0
  {
    if selected == "" || motivo == "" then Some(OBRIGATORIOS)
    else if !Filled(valor) && !Filled(percentual) then Some(INFORME_AUMENTO)
    else if novoSalario.None? || novoSalario.value < 0.0 then Some(SALARIO_INVALIDO)
    else None
  }

  /** The body sent to the salary change handler. */
  datatype ChangeRequest = ChangeRequest(funcionarioId: string, novoSalario: real, motivo: string, aprovadoPor: string)

  class AlteracaoSalarialDialog {
    var funcionarios: seq<Employee>
    var selectedFuncionario: string
    var tipoAumento: Tipo
    var valorAumento: Entry
    var percentualAumento: Entry
    /** The new salary input; `None` while it is empty. */
    var novoSalario: Option<real>
    var motivo: string
    var aprovadoPor: string
    var loading: bool
    var error: Option<string>

    /** Every field at its initial value. */
    predicate Cleared()
      reads this
    {
      && selectedFuncionario == "" && tipoAumento == Valor
      && valorAumento == EMPTY && percentualAumento == EMPTY && novoSalario == None
      && motivo == "" && aprovadoPor == ""
    }

    constructor ()
      ensures Cleared() && funcionarios == [] && !loading && error == None
    {
      funcionarios := [];
      selectedFuncionario, tipoAumento := "", Valor;
      valorAumento, percentualAumento, novoSalario := EMPTY, EMPTY, None;
      motivo, aprovadoPor := "", "";
      loading, error := false, None;
    }

    /** `fetchFuncionarios`: only active employees are offered. */
    method Load(data: seq<Employee>)
      modifies this
      ensures funcionarios == Filter(data, IsActive)
      ensures forall f :: f in funcionarios ==> IsActive(f)
      ensures selectedFuncionario == old(selectedFuncionario) && valorAumento == old(valorAumento)
      ensures percentualAumento == old(percentualAumento) && novoSalario == old(novoSalario)
      ensures motivo == old(motivo) && error == old(error) && loading == old(loading)
      ensures tipoAumento == old(tipoAumento) && aprovadoPor == old(aprovadoPor)
    {
      funcionarios := Filter(data, IsActive);
    }

    method Select(id: string)
      modifies this
      ensures selectedFuncionario == id
      ensures funcionarios == old(funcionarios) && valorAumento == old(valorAumento)
      ensures percentualAumento == old(percentualAumento) && novoSalario == old(novoSalario)
      ensures motivo == old(motivo) && error == old(error) && loading == old(loading)
      ensures tipoAumento == old(tipoAumento) && aprovadoPor == old(aprovadoPor)
    {
      selectedFuncionario := id;
    }

    method SetMotivo(m: string)
      modifies this
      ensures motivo == m
      ensures selectedFuncionario == old(selectedFuncionario) && funcionarios == old(funcionarios)
      ensures valorAumento == old(valorAumento) && percentualAumento == old(percentualAumento)
      ensures novoSalario == old(novoSalario) && error == old(error) && loading == old(loading)
      ensures tipoAumento == old(tipoAumento) && aprovadoPor == old(aprovadoPor)
    {
      motivo := m;
    }

    /** The radio buttons of the raise kind; the kind changes no amount. */
    method SetTipoAumento(tipo: Tipo)
      modifies this
      ensures tipoAumento == tipo
      ensures selectedFuncionario == old(selectedFuncionario) && funcionarios == old(funcionarios)
      ensures valorAumento == old(valorAumento) && percentualAumento == old(percentualAumento)
      ensures novoSalario == old(novoSalario) && motivo == old(motivo) && aprovadoPor == old(aprovadoPor)
      ensures error == old(error) && loading == old(loading)
    {
      tipoAumento := tipo;
    }

    method SetAprovadoPor(nome: string)
      modifies this
      ensures aprovadoPor == nome
      ensures selectedFuncionario == old(selectedFuncionario) && funcionarios == old(funcionarios)
      ensures valorAumento == old(valorAumento) && percentualAumento == old(percentualAumento)
      ensures novoSalario == old(novoSalario) && motivo == old(motivo) && tipoAumento == old(tipoAumento)
      ensures error == old(error) && loading == old(loading)
    {
      aprovadoPor := nome;
    }

    /** `handleValorAumentoChange`: the value input takes the typed text;
        with an employee selected, the new salary and the matching percent
        are filled in. */
    method HandleValorAumentoChange(valor: string, parseNumber: string -> Option<real>)
      modifies this
      ensures valorAumento == Typed(valor)
      ensures FindById(old(funcionarios), old(selectedFuncionario)).None? ==>
                percentualAumento == old(percentualAumento) && novoSalario == old(novoSalario)
      ensures FindById(old(funcionarios), old(selectedFuncionario)).Some? ==>
                var atual := FindById(old(funcionarios), old(selectedFuncionario)).value.salario;
                var novo := CalcularNovoSalario(atual, valor, Valor, parseNumber);
                novoSalario == Some(novo) && percentualAumento == Computed(PercentOf(atual, novo))
      ensures funcionarios == old(funcionarios) && selectedFuncionario == old(selectedFuncionario)
      ensures motivo == old(motivo) && error == old(error) && loading == old(loading)
      ensures tipoAumento == old(tipoAumento) && aprovadoPor == old(aprovadoPor)
    {
      valorAumento := Typed(valor);
      var funcionario := FindById(funcionarios, selectedFuncionario);
      if funcionario.Some? {
        var atual := funcionario.value.salario;
        var novo := CalcularNovoSalario(atual, valor, Valor, parseNumber);
        novoSalario := Some(novo);
        percentualAumento := Computed(PercentOf(atual, novo));
      }
    }

    /** `handlePercentualAumentoChange`: the percent input takes the typed
        text; with an employee selected, the new salary and the matching
        value are filled in. */
    method HandlePercentualAumentoChange(percentual: string, parseNumber: string -> Option<real>)
      modifies this
      ensures percentualAumento == Typed(percentual)
      ensures FindById(old(funcionarios), old(selectedFuncionario)).None? ==>
                valorAumento == old(valorAumento) && novoSalario == old(novoSalario)
      ensures FindById(old(funcionarios), old(selectedFuncionario)).Some? ==>
                var atual := FindById(old(funcionarios), old(selectedFuncionario)).value.salario;
                var novo := CalcularNovoSalario(atual, percentual, Percentual, parseNumber);
                novoSalario == Some(novo) && valorAumento == Computed(novo - atual)
      ensures funcionarios == old(funcionarios) && selectedFuncionario == old(selectedFuncionario)
      ensures motivo == old(motivo) && error == old(error) && loading == old(loading)
      ensures tipoAumento == old(tipoAumento) && aprovadoPor == old(aprovadoPor)
    {
      percentualAumento := Typed(percentual);
      var funcionario := FindById(funcionarios, selectedFuncionario);
      if funcionario.Some? {
        var atual := funcionario.value.salario;
        var novo := CalcularNovoSalario(atual, percentual, Percentual, parseNumber);
        novoSalario := Some(novo);
        valorAumento := Computed(novo - atual);
      }
    }

    /** The synchronous part of `handleSubmit`: a failing check is shown
        and nothing is sent; otherwise the request body is built and the
        dialog waits for the reply. */
    method HandleSubmit() returns (request: Option<ChangeRequest>)
      modifies this
      ensures var e := SubmitError(old(selectedFuncionario), old(motivo), old(valorAumento),
                                   old(percentualAumento), old(novoSalario));
              && (e.Some? ==> request.None? && error == e && loading == old(loading))
              && (e.None? ==> request == Some(ChangeRequest(old(selectedFuncionario), old(novoSalario).value,
                                                          old(motivo), if old(aprovadoPor) != "" then old(aprovadoPor) else SISTEMA))
                              && error == None && loading)
      ensures request.Some? ==> request.value.novoSalario >= 0.0 && request.value.funcionarioId != ""
      ensures funcionarios == old(funcionarios) && selectedFuncionario == old(selectedFuncionario)
      ensures valorAumento == old(valorAumento) && percentualAumento == old(percentualAumento)
      ensures novoSalario == old(novoSalario) && motivo == old(motivo) && aprovadoPor == old(aprovadoPor)
      ensures tipoAumento == old(tipoAumento)
    {
      var e := SubmitError(selectedFuncionario, motivo, valorAumento, percentualAumento, novoSalario);
      if e.Some? {
        error := e;
        request := None;
      } else {
        loading := true;
        error := None;
        request := Some(ChangeRequest(selectedFuncionario, novoSalario.value, motivo,
                                      if aprovadoPor != "" then aprovadoPor else SISTEMA));
      }
    }

    /** The reply arrives: on success the form is cleared, otherwise the
        handler's message is shown; either way loading ends. */
    method CompleteSubmit(success: bool, message: string)
      modifies this
      ensures success ==> Cleared() && error == old(error)
      ensures !success ==> error == Some(message) && selectedFuncionario == old(selectedFuncionario)
                           && valorAumento == old(valorAumento) && percentualAumento == old(percentualAumento)
                           && novoSalario == old(novoSalario) && motivo == old(motivo)
                           && tipoAumento == old(tipoAumento) && aprovadoPor == old(aprovadoPor)
      ensures !loading && funcionarios == old(funcionarios)
    {
      if success {
        selectedFuncionario, tipoAumento := "", Valor;
        valorAumento, percentualAumento, novoSalario := EMPTY, EMPTY, None;
        motivo, aprovadoPor := "", "";
      } else {
        error := Some(message);
      }
      loading := false;
    }

    /** `handleClose`: ignored while a request is in flight; otherwise every
        field and the error are cleared. */
    method HandleClose()
      modifies this
      ensures old(loading) ==> Cleared() == old(Cleared()) && error == old(error)
                               && selectedFuncionario == old(selectedFuncionario) && valorAumento == old(valorAumento)
                               && percentualAumento == old(percentualAumento) && novoSalario == old(novoSalario)
                               && motivo == old(motivo) && aprovadoPor == old(aprovadoPor)
                               && tipoAumento == old(tipoAumento)
      ensures !old(loading) ==> Cleared() && error == None
      ensures loading == old(loading) && funcionarios == old(funcionarios)
    {
      if !loading {
        selectedFuncionario, tipoAumento := "", Valor;
        valorAumento, percentualAumento, novoSalario := EMPTY, EMPTY, None;
        motivo, aprovadoPor := "", "";
        error := None;
      }
    }
  }
}
