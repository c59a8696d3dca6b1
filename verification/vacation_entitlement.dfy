/** The vacation balance shown when a request is approved or refused
    (src/components/ferias/status-change-dialog.tsx): ten days per completed
    year of work, minus the days of the employee's approved requests, the
    flag that turns approval into an advance, and the dialog's motive and
    confirmation handling. Years worked come from the clock and are an
    input. */
module VacationEntitlement {
  import opened Common
  import opened Records

  // ---------------------------------------------------------------------
  // The employee's requests
  // ---------------------------------------------------------------------

  /** `feriasData.filter(f => f.funcionarioId === funcionario.id)` */
  function RequestsOf(all: seq<VacationRequest>, funcionarioId: string): (r: seq<VacationRequest>)
    ensures |r| <= |all|
    ensures forall i :: 0 <= i < |r| ==> r[i].funcionarioId == funcionarioId
  {
    if all == [] then []
    else
      var last := all[|all| - 1];
      RequestsOf(all[..|all| - 1], funcionarioId) + (if last.funcionarioId == funcionarioId then [last] else [])
  }

  /** The requests considered are exactly those of the employee. */
  lemma {:induction false} RequestsOfMembership(all: seq<VacationRequest>, funcionarioId: string, x: VacationRequest)
    ensures x in RequestsOf(all, funcionarioId) <==> x in all && x.funcionarioId == funcionarioId
  {
    if all != [] {
      RequestsOfMembership(all[..|all| - 1], funcionarioId, x);
      assert all == all[..|all| - 1] + [all[|all| - 1]];
    }
  }

  /** Days of the approved requests:
      `ferias.filter(APROVADA).reduce((t, f) => t + f.diasSolicitados, 0)`. */
  function ApprovedDays(fs: seq<VacationRequest>): int {
    if fs == [] then 0
    else
      var last := fs[|fs| - 1];
      ApprovedDays(fs[..|fs| - 1]) + (if IsApproved(last) then last.diasSolicitados else 0)
  }

  lemma {:induction false} ApprovedDaysAppend(fs: seq<VacationRequest>, gs: seq<VacationRequest>)
    ensures ApprovedDays(fs + gs) == ApprovedDays(fs) + ApprovedDays(gs)
    decreases |gs|
  {
    if gs == [] {
      assert fs + gs == fs;
    } else {
      var gs' := gs[..|gs| - 1];
      assert (fs + gs)[..|fs + gs| - 1] == fs + gs';
      ApprovedDaysAppend(fs, gs');
    }
  }

  /** A pending or refused request, wherever it sits, never changes the days
      taken. */
  lemma ApprovedDaysIgnoresOthers(fs: seq<VacationRequest>, x: VacationRequest, gs: seq<VacationRequest>)
    requires !IsApproved(x)
    ensures ApprovedDays(fs + [x] + gs) == ApprovedDays(fs + gs)
  {
    ApprovedDaysAppend(fs + [x], gs);
    ApprovedDaysAppend(fs, [x]);
    ApprovedDaysAppend(fs, gs);
    assert [x][..0] == [];
  }

  /** With no negative request lengths, the days taken are never negative. */
  lemma {:induction false} ApprovedDaysNonNegative(fs: seq<VacationRequest>)
    requires forall i :: 0 <= i < |fs| ==> fs[i].diasSolicitados >= 0
    ensures ApprovedDays(fs) >= 0
  {
    if fs != [] {
      ApprovedDaysNonNegative(fs[..|fs| - 1]);
    }
  }

  /** `fs.map(f => f.diasSolicitados)` */
  function DaysOf(fs: seq<VacationRequest>): (ds: seq<int>)
    ensures |ds| == |fs|
    ensures forall i :: 0 <= i < |fs| ==> ds[i] == fs[i].diasSolicitados
  {
    seq(|fs|, i requires 0 <= i < |fs| => fs[i].diasSolicitados)
  }

  /** The single fold is the source's filter-then-reduce: the sum of the
      lengths of the approved requests. */
  lemma {:induction false} ApprovedDaysIsFilteredSum(fs: seq<VacationRequest>)
    ensures ApprovedDays(fs) == IntSum(DaysOf(Filter(fs, IsApproved)))
  {
    if fs != [] {
      var init, last := fs[..|fs| - 1], fs[|fs| - 1];
      ApprovedDaysIsFilteredSum(init);
      var g := Filter(init, IsApproved);
      if IsApproved(last) {
        assert Filter(fs, IsApproved) == g + [last];
        assert DaysOf(g + [last])[..|g|] == DaysOf(g);
      } else {
        assert Filter(fs, IsApproved) == g;
      }
    }
  }

  // ---------------------------------------------------------------------
  // calcularDireitoFerias
  // ---------------------------------------------------------------------

  /** The fields the calculation adds once an employee is loaded. */
  datatype Detail = Detail(direitoTotal: int, diasJaTirados: int, deveAntecipar: bool)

  /** The object `calcularDireitoFerias` returns; without an employee it has
      no `direitoTotal`, `diasJaTirados` or `deveAntecipar`. */
  datatype Entitlement = Entitlement(temDireito: bool, diasDisponiveis: int, anosTrabalhados: int, detail: Option<Detail>)

  /** The `deveAntecipar` the footer reads: absent counts as false. */
  predicate DeveAntecipar(e: Entitlement) {
    e.detail.Some? && e.detail.value.deveAntecipar
  }

  /** `Math.max(0, anos) * 10` */
  function DireitoTotal(anos: int): (d: int)
    ensures d >= 0 && d % 10 == 0
    ensures anos >= 0 ==> d == 10 * anos
    ensures anos < 1 ==> d == 0
  {
    (if anos > 0 then anos else 0) * 10
  }

  /** The balance of the employee `funcionario` (None while not loaded) who
      has worked `anos` whole years, over their requests `ferias`. */
  function CalcularDireitoFerias(funcionario: Option<Employee>, anos: int, ferias: seq<VacationRequest>): (e: Entitlement)
    ensures funcionario.None? ==> e == Entitlement(false, 0, 0, None)
    ensures funcionario.Some? ==> e.detail.Some? && e.anosTrabalhados == anos
    ensures funcionario.Some? ==> e.detail.value.direitoTotal == DireitoTotal(anos)
    ensures funcionario.Some? ==> e.detail.value.diasJaTirados == ApprovedDays(ferias)
    ensures funcionario.Some? ==> e.diasDisponiveis == DireitoTotal(anos) - ApprovedDays(ferias)
    ensures e.temDireito <==> funcionario.Some? && anos >= 1
    ensures DeveAntecipar(e) <==> funcionario.Some? && (anos < 1 || e.diasDisponiveis < 0)
  {
    match funcionario
    case None => Entitlement(false, 0, 0, None)
    case Some(_) =>
      var direitoTotal := DireitoTotal(anos);
      var diasJaTirados := ApprovedDays(ferias);
      var diasDisponiveis := direitoTotal - diasJaTirados;
      Entitlement(anos >= 1, diasDisponiveis, anos,
                  Some(Detail(direitoTotal, diasJaTirados, anos < 1 || diasDisponiveis < 0)))
  }

  /** Without an advance, the employee has the right to vacation, and a
      balance that is not negative. */
  lemma NoAdvanceMeansEntitled(funcionario: Option<Employee>, anos: int, ferias: seq<VacationRequest>)
    requires funcionario.Some?
    ensures var e := CalcularDireitoFerias(funcionario, anos, ferias);
            !DeveAntecipar(e) ==> e.temDireito && e.diasDisponiveis >= 0
  {
  }

  /** Approved requests alone decide the balance: adding a pending or
      refused request anywhere leaves it as it was. */
  lemma EntitlementIgnoresUnapproved(funcionario: Option<Employee>, anos: int,
                                     fs: seq<VacationRequest>, x: VacationRequest, gs: seq<VacationRequest>)
    requires !IsApproved(x)
    ensures CalcularDireitoFerias(funcionario, anos, fs + [x] + gs) == CalcularDireitoFerias(funcionario, anos, fs + gs)
  {
    ApprovedDaysIgnoresOthers(fs, x, gs);
  }

  /** Approving one more request of `n` days lowers the balance by `n`. */
  lemma ApprovalLowersBalance(funcionario: Option<Employee>, anos: int, fs: seq<VacationRequest>, x: VacationRequest)
    requires funcionario.Some? && IsApproved(x)
    ensures CalcularDireitoFerias(funcionario, anos, fs + [x]).diasDisponiveis
            == CalcularDireitoFerias(funcionario, anos, fs).diasDisponiveis - x.diasSolicitados
  {
    ApprovedDaysAppend(fs, [x]);
    assert [x][..0] == [];
  }

  // ---------------------------------------------------------------------
  // Balance classification
  // ---------------------------------------------------------------------

  /** The three readings of the balance: can approve, limit reached, in
      debt. */
  datatype Balance = PodeAprovar | LimiteAtingido | EmDebito

  function Classify(diasDisponiveis: int): (b: Balance)
    ensures b == PodeAprovar <==> diasDisponiveis > 0
    ensures b == LimiteAtingido <==> diasDisponiveis == 0
    ensures b == EmDebito <==> diasDisponiveis < 0
  {
    if diasDisponiveis > 0 then PodeAprovar
    else if diasDisponiveis == 0 then LimiteAtingido
    else EmDebito
  }

  /** For an employee with a whole year of work, approval becomes an advance
      exactly when the balance reads as debt. */
  lemma AdvanceIffDebt(funcionario: Option<Employee>, anos: int, ferias: seq<VacationRequest>)
    requires funcionario.Some? && anos >= 1
    ensures var e := CalcularDireitoFerias(funcionario, anos, ferias);
            DeveAntecipar(e) <==> Classify(e.diasDisponiveis) == EmDebito
  {
  }

  // ---------------------------------------------------------------------
  // The dialog's motive and confirmations
  // ---------------------------------------------------------------------

  /** One call of the `onConfirm` callback. */
  datatype Confirmation = Confirmation(status: string, motivo: string)

  /** The dialog state that the handlers change: the motive typed, whether
      the advance confirmation is showing, and the confirmations sent to the
      parent so far. */
  class StatusChangeDialog {
    var motivo: string
    var showAntecipacaoModal: bool
    var confirmations: seq<Confirmation>

    constructor ()
      ensures motivo == "" && !showAntecipacaoModal && confirmations == []
    {
      motivo := "";
      showAntecipacaoModal := false;
      confirmations := [];
    }

    /** Typing in the motive field. */
    method SetMotivo(text: string)
      modifies this
      ensures motivo == text
      ensures showAntecipacaoModal == old(showAntecipacaoModal) && confirmations == old(confirmations)
    {
      motivo := text;
    }

    /** `handleSubmit(status)`: a blank motive changes nothing; otherwise the
        parent is told once and the motive is cleared. */
    method HandleSubmit(status: string)
      requires status == APROVADA || status == REJEITADA
      modifies this
      ensures IsBlank(old(motivo)) ==> motivo == old(motivo) && confirmations == old(confirmations)
      ensures !IsBlank(old(motivo)) ==>
                motivo == "" && confirmations == old(confirmations) + [Confirmation(status, old(motivo))]
      ensures showAntecipacaoModal == old(showAntecipacaoModal)
    {
      if !IsBlank(motivo) {
        confirmations := confirmations + [Confirmation(status, motivo)];
        motivo := "";
      }
    }

    /** `handleAntecipacao`: as an approval, and the advance confirmation
        closes. */
    method HandleAntecipacao()
      modifies this
      ensures IsBlank(old(motivo)) ==>
                motivo == old(motivo) && confirmations == old(confirmations)
                && showAntecipacaoModal == old(showAntecipacaoModal)
      ensures !IsBlank(old(motivo)) ==>
                motivo == "" && confirmations == old(confirmations) + [Confirmation(APROVADA, old(motivo))]
                && !showAntecipacaoModal
    {
      if !IsBlank(motivo) {
        confirmations := confirmations + [Confirmation(APROVADA, motivo)];
        motivo := "";
        showAntecipacaoModal := false;
      }
    }

    /** The "Não" button of the advance confirmation. */
    method HandleCancelAntecipacao()
      modifies this
      ensures !showAntecipacaoModal
      ensures motivo == old(motivo) && confirmations == old(confirmations)
    {
      showAntecipacaoModal := false;
    }

    /** The approve-side footer button: disabled while the motive is blank;
        when approval is an advance it opens the advance confirmation,
        otherwise it approves. */
    method ClickApprove(e: Entitlement)
      modifies this
      ensures IsBlank(old(motivo)) ==>
                motivo == old(motivo) && confirmations == old(confirmations)
                && showAntecipacaoModal == old(showAntecipacaoModal)
      ensures !IsBlank(old(motivo)) && DeveAntecipar(e) ==>
                showAntecipacaoModal && motivo == old(motivo) && confirmations == old(confirmations)
      ensures !IsBlank(old(motivo)) && !DeveAntecipar(e) ==>
                showAntecipacaoModal == old(showAntecipacaoModal) && motivo == ""
                && confirmations == old(confirmations) + [Confirmation(APROVADA, old(motivo))]
    {
      if IsBlank(motivo) {
      } else if DeveAntecipar(e) {
        showAntecipacaoModal := true;
      } else {
        HandleSubmit(APROVADA);
      }
    }

    /** The "Recusar" footer button: disabled while the motive is blank. */
    method ClickReject()
      modifies this
      ensures IsBlank(old(motivo)) ==> motivo == old(motivo) && confirmations == old(confirmations)
      ensures !IsBlank(old(motivo)) ==>
                motivo == "" && confirmations == old(confirmations) + [Confirmation(REJEITADA, old(motivo))]
      ensures showAntecipacaoModal == old(showAntecipacaoModal)
    {
      if !IsBlank(motivo) {
        HandleSubmit(REJEITADA);
      }
    }
  }
}
