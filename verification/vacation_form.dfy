/** The new-vacation form (src/components/ferias/ferias-dialog.tsx): the
    day count recomputed whenever a date changes, the two checks made before
    the request is sent, and the reset after a successful submission. The
    dates are the `YYYY-MM-DD` texts of date inputs. */
module VacationForm {
  import opened Common
  import opened Dates

  const MissingFieldsMessage := "Por favor, preencha todos os campos obrigatórios"
  const DateOrderMessage := "A data de início deve ser anterior à data de fim"

  /** The day count for the two date texts: None when either is empty (the
      count is left as it is), otherwise the inclusive length of the range
      when the start parses to a day before the end, and 0 when not. */
  function DaysForRange(dataInicio: string, dataFim: string): (r: Option<int>)
    ensures r.None? <==> dataInicio == "" || dataFim == ""
    ensures r.Some? && r.value != 0 ==>
              ParseIso(dataInicio).Some? && ParseIso(dataFim).Some?
              && Before(ParseIso(dataInicio).value, ParseIso(dataFim).value)
  {
    if dataInicio != "" && dataFim != "" then
      match (ParseIso(dataInicio), ParseIso(dataFim))
      case (Some(inicio), Some(fim)) =>
        if Before(inicio, fim) then Some(InclusiveDays(inicio, fim)) else Some(0)
      case _ => Some(0)
    else None
  }

  /** A counted range spans at least two days, one more than the days
      between its ends. */
  lemma DaysForRangeAtLeastTwo(dataInicio: string, dataFim: string)
    requires ParseIso(dataInicio).Some? && ParseIso(dataFim).Some?
    ensures var inicio, fim := ParseIso(dataInicio).value, ParseIso(dataFim).value;
            DaysForRange(dataInicio, dataFim)
              == Some(if Before(inicio, fim) then DayNumber(fim) - DayNumber(inicio) + 1 else 0)
    ensures DaysForRange(dataInicio, dataFim).value == 0 || DaysForRange(dataInicio, dataFim).value >= 2
  {
    var inicio, fim := ParseIso(dataInicio).value, ParseIso(dataFim).value;
    DayNumberOrder(inicio, fim);
  }

  /** For well-formed date texts, the count is positive exactly when the
      string comparison of the submit check lets the request through. */
  lemma DaysAgreeWithSubmitOrder(dataInicio: string, dataFim: string)
    requires ParseIso(dataInicio).Some? && ParseIso(dataFim).Some?
    ensures DaysForRange(dataInicio, dataFim).value > 0 <==> LexLess(dataInicio, dataFim)
  {
    var inicio, fim := ParseIso(dataInicio).value, ParseIso(dataFim).value;
    IsoOfParseIso(dataInicio);
    IsoOfParseIso(dataFim);
    IsoOrder(inicio, fim);
    assert LexLess(dataInicio, dataFim) <==> Before(inicio, fim);
    DaysForRangeAtLeastTwo(dataInicio, dataFim);
    DayNumberOrder(inicio, fim);
  }

  /** The first check of `handleSubmit` that fails, if any. */
  function SubmitError(selectedFuncionario: string, dataInicio: string, dataFim: string, motivo: string): (e: Option<string>)
    ensures e == Some(MissingFieldsMessage) <==>
              selectedFuncionario == "" || dataInicio == "" || dataFim == "" || IsBlank(motivo)
    ensures e == Some(DateOrderMessage) <==>
              selectedFuncionario != "" && dataInicio != "" && dataFim != "" && !IsBlank(motivo)
              && !LexLess(dataInicio, dataFim)
    ensures e.None? || e == Some(MissingFieldsMessage) || e == Some(DateOrderMessage)
  {
    if selectedFuncionario == "" || dataInicio == "" || dataFim == "" || IsBlank(motivo) then
      Some(MissingFieldsMessage)
    else if !LexLess(dataInicio, dataFim) then
      Some(DateOrderMessage)
    else None
  }

  /** A request whose start and end are the same day is always refused. */
  lemma SingleDayRefused(selectedFuncionario: string, data: string, motivo: string)
    ensures SubmitError(selectedFuncionario, data, data, motivo).Some?
  {
    LexLessIrreflexive(data);
  }

  /** A request that passes both checks, with well-formed dates, covers at
      least two days and sends the counted length. */
  lemma AcceptedRangeSpansTwoDays(selectedFuncionario: string, dataInicio: string, dataFim: string, motivo: string)
    requires SubmitError(selectedFuncionario, dataInicio, dataFim, motivo).None?
    requires ParseIso(dataInicio).Some? && ParseIso(dataFim).Some?
    ensures DaysForRange(dataInicio, dataFim).Some? && DaysForRange(dataInicio, dataFim).value >= 2
  {
    DaysAgreeWithSubmitOrder(dataInicio, dataFim);
    DaysForRangeAtLeastTwo(dataInicio, dataFim);
  }

  /** The JSON body the form posts. */
  datatype RequestBody = RequestBody(
    funcionarioId: string,
    dataInicio: string,
    dataFim: string,
    dias: int,
    motivo: string,
    observacoes: string)

  datatype SubmitOutcome = Refused(message: string) | Sent(body: RequestBody)

  class FeriasDialog {
    var selectedFuncionario: string
    var dataInicio: string
    var dataFim: string
    var dias: int
    var motivo: string
    var observacoes: string

    /** A fresh form; when both the id and the name of an employee are
        given, that employee is preselected. */
    constructor (funcionarioId: Option<string>, funcionarioNome: Option<string>)
      ensures selectedFuncionario == (if Truthy(funcionarioId) && Truthy(funcionarioNome) then funcionarioId.value else "")
      ensures dataInicio == "" && dataFim == "" && dias == 0 && motivo == "" && observacoes == ""
    {
      selectedFuncionario := "";
      dataInicio := "";
      dataFim := "";
      dias := 0;
      motivo := "";
      observacoes := "";
      if Truthy(funcionarioId) && Truthy(funcionarioNome) {
        selectedFuncionario := funcionarioId.value;
      }
    }

    /** The effect that recomputes the day count after a date changes. */
    method UpdateDias()
      modifies this`dias
      ensures dias == (if DaysForRange(dataInicio, dataFim).Some? then DaysForRange(dataInicio, dataFim).value else old(dias))
    {
      if dataInicio != "" && dataFim != "" {
        var inicio, fim := ParseIso(dataInicio), ParseIso(dataFim);
        if inicio.Some? && fim.Some? && Before(inicio.value, fim.value) {
          dias := DayNumber(fim.value) - DayNumber(inicio.value) + 1;
        } else {
          dias := 0;
        }
      }
    }

    method SetDataInicio(text: string)
      modifies this`dataInicio, this`dias
      ensures dataInicio == text
      ensures dias == (if DaysForRange(text, dataFim).Some? then DaysForRange(text, dataFim).value else old(dias))
    {
      dataInicio := text;
      UpdateDias();
    }

    method SetDataFim(text: string)
      modifies this`dataFim, this`dias
      ensures dataFim == text
      ensures dias == (if DaysForRange(dataInicio, text).Some? then DaysForRange(dataInicio, text).value else old(dias))
    {
      dataFim := text;
      UpdateDias();
    }

    /** `resetForm` */
    method ResetForm()
      modifies this
      ensures selectedFuncionario == "" && dataInicio == "" && dataFim == ""
      ensures dias == 0 && motivo == "" && observacoes == ""
    {
      selectedFuncionario := "";
      dataInicio := "";
      dataFim := "";
      dias := 0;
      motivo := "";
      observacoes := "";
    }

    /** `handleSubmit`: a refused form is left as it is and nothing is sent;
        otherwise the form's fields are sent, and the form is reset once
        the server accepts them (`accepted`). */
    method HandleSubmit(accepted: bool) returns (outcome: SubmitOutcome)
      modifies this
      ensures var e := SubmitError(old(selectedFuncionario), old(dataInicio), old(dataFim), old(motivo));
              if e.Some? then outcome == Refused(e.value) else
                outcome == Sent(RequestBody(old(selectedFuncionario), old(dataInicio), old(dataFim),
                                            old(dias), old(motivo), old(observacoes)))
      ensures outcome.Sent? && accepted ==>
                selectedFuncionario == "" && dataInicio == "" && dataFim == ""
                && dias == 0 && motivo == "" && observacoes == ""
      ensures outcome.Refused? || !accepted ==>
                selectedFuncionario == old(selectedFuncionario) && dataInicio == old(dataInicio)
                && dataFim == old(dataFim) && dias == old(dias) && motivo == old(motivo)
                && observacoes == old(observacoes)
    {
      if selectedFuncionario == "" || dataInicio == "" || dataFim == "" || IsBlank(motivo) {
        outcome := Refused(MissingFieldsMessage);
      } else if !LexLess(dataInicio, dataFim) {
        outcome := Refused(DateOrderMessage);
      } else {
        outcome := Sent(RequestBody(selectedFuncionario, dataInicio, dataFim, dias, motivo, observacoes));
        if accepted {
          ResetForm();
        }
      }
    }
  }
}
