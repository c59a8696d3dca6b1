/** The twelve-month chart of approved vacations
    (src/components/ferias/ferias-chart.tsx): twelve monthly buckets starting
    at the current month, each approved request counted in the bucket of its
    start month, and the summary figures under the chart. The current month
    and year come from the clock and are inputs; months are numbered from 0
    as `getMonth` numbers them. */
module VacationChart {
  import opened Common
  import opened Records
  import opened VacationEntitlement

  /** One line of a bucket's tooltip: who, for how many days, from when to
      when. */
  datatype ChartEntry = ChartEntry(nome: string, dias: int, inicio: Dates.Date, fim: Dates.Date)

  datatype Bucket = Bucket(ano: int, mesNumero: int, quantidade: nat, funcionarios: seq<ChartEntry>)

  // ---------------------------------------------------------------------
  // The twelve buckets
  // ---------------------------------------------------------------------

  /** Bucket `i` of the window that starts at month `mesAtual` of
      `anoAtual`. */
  function InitialBucket(mesAtual: int, anoAtual: int, i: int): Bucket {
    Bucket(if mesAtual + i >= 12 then anoAtual + 1 else anoAtual, (mesAtual + i) % 12, 0, [])
  }

  function InitialBuckets(mesAtual: int, anoAtual: int): (bs: seq<Bucket>)
    ensures |bs| == 12
  {
    seq(12, i requires 0 <= i < 12 => InitialBucket(mesAtual, anoAtual, i))
  }

  /** A month counted from year 0: the position of a bucket on the
      calendar. */
  function MonthIndex(ano: int, mes: int): int {
    12 * ano + mes
  }

  /** The buckets are the twelve consecutive months from the current one,
      in order, all empty; hence no two share a month and year. */
  lemma InitialBucketsSpec(mesAtual: int, anoAtual: int)
    requires 0 <= mesAtual < 12
    ensures forall i :: 0 <= i < 12 ==>
              var b := InitialBuckets(mesAtual, anoAtual)[i];
              && 0 <= b.mesNumero < 12
              && MonthIndex(b.ano, b.mesNumero) == MonthIndex(anoAtual, mesAtual) + i
              && b.quantidade == 0 && b.funcionarios == []
    ensures DistinctMonths(InitialBuckets(mesAtual, anoAtual))
  {
    var bs := InitialBuckets(mesAtual, anoAtual);
    forall i | 0 <= i < 12
      ensures MonthIndex(bs[i].ano, bs[i].mesNumero) == MonthIndex(anoAtual, mesAtual) + i
    {
      if mesAtual + i >= 12 {
        assert (mesAtual + i) % 12 == mesAtual + i - 12;
      } else {
        assert (mesAtual + i) % 12 == mesAtual + i;
      }
    }
  }

  /** No two buckets share a month and year. */
  predicate DistinctMonths(bs: seq<Bucket>) {
    forall i, j :: 0 <= i < j < |bs| ==> (bs[i].ano, bs[i].mesNumero) != (bs[j].ano, bs[j].mesNumero)
  }

  /** The loop that pushes the twelve buckets. */
  method BuildBuckets(mesAtual: int, anoAtual: int) returns (buckets: seq<Bucket>)
    ensures buckets == InitialBuckets(mesAtual, anoAtual)
  {
    buckets := [];
    for i := 0 to 12
      invariant buckets == InitialBuckets(mesAtual, anoAtual)[..i]
    {
      var mes := (mesAtual + i) % 12;
      var ano := if mesAtual + i >= 12 then anoAtual + 1 else anoAtual;
      buckets := buckets + [Bucket(ano, mes, 0, [])];
    }
  }

  // ---------------------------------------------------------------------
  // Filling the buckets
  // ---------------------------------------------------------------------

  /** Whether a request starts in the month of bucket `b`. */
  predicate StartsIn(f: VacationRequest, b: Bucket) {
    f.dataInicio.month - 1 == b.mesNumero && f.dataInicio.year == b.ano
  }

  /** `proximos12Meses.find(...)`: the first bucket of the request's start
      month. */
  function FindBucket(bs: seq<Bucket>, f: VacationRequest): (r: Option<nat>)
    ensures r.Some? ==> r.value < |bs| && StartsIn(f, bs[r.value])
                        && forall i :: 0 <= i < r.value ==> !StartsIn(f, bs[i])
    ensures r.None? ==> forall i :: 0 <= i < |bs| ==> !StartsIn(f, bs[i])
  {
    if bs == [] then None
    else if StartsIn(f, bs[0]) then Some(0)
    else
      match FindBucket(bs[1..], f)
      case None => None
      case Some(k) => Some(k + 1)
  }

  /** The bucket after counting request `f` in it. */
  function Bump(b: Bucket, f: VacationRequest): Bucket {
    b.(quantidade := b.quantidade + 1,
       funcionarios := b.funcionarios + [ChartEntry(f.funcionarioNome, f.diasSolicitados, f.dataInicio, f.dataFim)])
  }

  /** One step of the `forEach`. */
  function FillOne(bs: seq<Bucket>, f: VacationRequest): (r: seq<Bucket>)
    ensures |r| == |bs|
  {
    match FindBucket(bs, f)
    case None => bs
    case Some(k) => bs[k := Bump(bs[k], f)]
  }

  /** The buckets after the `forEach` over `fs`. */
  function FillAll(bs: seq<Bucket>, fs: seq<VacationRequest>): (r: seq<Bucket>)
    ensures |r| == |bs|
  {
    if fs == [] then bs else FillOne(FillAll(bs, fs[..|fs| - 1]), fs[|fs| - 1])
  }

  /** The chart's buckets for the requests `ferias` and the current month. */
  function ChartBuckets(ferias: seq<VacationRequest>, mesAtual: int, anoAtual: int): (bs: seq<Bucket>)
    ensures |bs| == 12
  {
    FillAll(InitialBuckets(mesAtual, anoAtual), Filter(ferias, IsApproved))
  }

  /** `proximos12Meses.find(...)` over the buckets in place. */
  method Find(buckets: array<Bucket>, f: VacationRequest) returns (r: Option<nat>)
    ensures r == FindBucket(buckets[..], f)
  {
    var k := 0;
    while k < buckets.Length
      invariant 0 <= k <= buckets.Length
      invariant forall i :: 0 <= i < k ==> !StartsIn(f, buckets[i])
    {
      if StartsIn(f, buckets[k]) {
        return Some(k);
      }
      k := k + 1;
    }
    return None;
  }

  /** The `forEach` that counts each approved request in its bucket, in
      place. */
  method FillBuckets(buckets: array<Bucket>, aprovadas: seq<VacationRequest>)
    modifies buckets
    ensures buckets[..] == FillAll(old(buckets[..]), aprovadas)
  {
    for j := 0 to |aprovadas|
      invariant buckets[..] == FillAll(old(buckets[..]), aprovadas[..j])
    {
      var f := aprovadas[j];
      assert aprovadas[..j + 1][..j] == aprovadas[..j];
      var k := Find(buckets, f);
      if k.Some? {
        buckets[k.value] := Bump(buckets[k.value], f);
      }
    }
    assert aprovadas[..|aprovadas|] == aprovadas;
  }

  /** The chart's data as the component builds it. */
  method BuildChart(ferias: seq<VacationRequest>, mesAtual: int, anoAtual: int) returns (buckets: array<Bucket>)
    ensures fresh(buckets)
    ensures buckets[..] == ChartBuckets(ferias, mesAtual, anoAtual)
  {
    var aprovadas := Filter(ferias, IsApproved);
    var initial := BuildBuckets(mesAtual, anoAtual);
    buckets := new Bucket[12](i requires 0 <= i < 12 => initial[i]);
    assert buckets[..] == initial;
    FillBuckets(buckets, aprovadas);
  }

  // ---------------------------------------------------------------------
  // What the filled buckets hold
  // ---------------------------------------------------------------------

  /** Counting a request changes no bucket's month. */
  lemma {:induction false} FillAllKeepsMonths(bs: seq<Bucket>, fs: seq<VacationRequest>)
    ensures forall i :: 0 <= i < |bs| ==>
              FillAll(bs, fs)[i].ano == bs[i].ano && FillAll(bs, fs)[i].mesNumero == bs[i].mesNumero
  {
    if fs != [] {
      FillAllKeepsMonths(bs, fs[..|fs| - 1]);
    }
  }

  /** Approved requests that start in the month `mes` (from 0) of `ano`. */
  function StartingIn(fs: seq<VacationRequest>, ano: int, mes: int): nat {
    if fs == [] then 0
    else
      var f := fs[|fs| - 1];
      StartingIn(fs[..|fs| - 1], ano, mes) + (if f.dataInicio.month - 1 == mes && f.dataInicio.year == ano then 1 else 0)
  }

  /** With distinct months, each bucket counts exactly the requests that
      start in its month, and lists one tooltip line per counted request. */
  lemma {:induction false} FillAllCounts(bs: seq<Bucket>, fs: seq<VacationRequest>)
    requires DistinctMonths(bs)
    ensures forall i :: 0 <= i < |bs| ==>
              FillAll(bs, fs)[i].quantidade == bs[i].quantidade + StartingIn(fs, bs[i].ano, bs[i].mesNumero)
              && |FillAll(bs, fs)[i].funcionarios| == |bs[i].funcionarios| + StartingIn(fs, bs[i].ano, bs[i].mesNumero)
  {
    if fs != [] {
      var init := fs[..|fs| - 1];
      var f := fs[|fs| - 1];
      FillAllCounts(bs, init);
      var before := FillAll(bs, init);
      FillAllKeepsMonths(bs, init);
      forall i | 0 <= i < |bs|
        ensures FillOne(before, f)[i].quantidade == before[i].quantidade + (if StartsIn(f, bs[i]) then 1 else 0)
        ensures |FillOne(before, f)[i].funcionarios| == |before[i].funcionarios| + (if StartsIn(f, bs[i]) then 1 else 0)
      {
        match FindBucket(before, f)
        case None =>
        case Some(k) =>
      }
    }
  }

  /** Each bucket of the chart counts exactly the approved requests that
      start in its month, and its tooltip has one line per request
      counted. */
  lemma ChartCountsApproved(ferias: seq<VacationRequest>, mesAtual: int, anoAtual: int, i: nat)
    requires 0 <= mesAtual < 12 && i < 12
    ensures var b := ChartBuckets(ferias, mesAtual, anoAtual)[i];
            && b.quantidade == StartingIn(Filter(ferias, IsApproved), b.ano, b.mesNumero)
            && |b.funcionarios| == b.quantidade
            && MonthIndex(b.ano, b.mesNumero) == MonthIndex(anoAtual, mesAtual) + i
  {
    var bs := InitialBuckets(mesAtual, anoAtual);
    InitialBucketsSpec(mesAtual, anoAtual);
    FillAllCounts(bs, Filter(ferias, IsApproved));
    FillAllKeepsMonths(bs, Filter(ferias, IsApproved));
  }

  /** The sum of the bucket quantities. */
  function TotalQuantity(bs: seq<Bucket>): nat {
    if bs == [] then 0 else TotalQuantity(bs[..|bs| - 1]) + bs[|bs| - 1].quantidade
  }

  lemma {:induction false} TotalQuantityUpdate(bs: seq<Bucket>, k: nat, b: Bucket)
    requires k < |bs|
    ensures TotalQuantity(bs[k := b]) == TotalQuantity(bs) - bs[k].quantidade + b.quantidade
  {
    var n := |bs| - 1;
    if k < n {
      TotalQuantityUpdate(bs[..n], k, b);
      assert bs[k := b][..n] == bs[..n][k := b];
    } else {
      assert bs[k := b][..n] == bs[..n];
    }
  }

  /** Each request is counted at most once: the buckets together hold no
      more than the requests folded in. */
  lemma {:induction false} FillAllTotal(bs: seq<Bucket>, fs: seq<VacationRequest>)
    ensures TotalQuantity(FillAll(bs, fs)) <= TotalQuantity(bs) + |fs|
  {
    if fs != [] {
      var before := FillAll(bs, fs[..|fs| - 1]);
      FillAllTotal(bs, fs[..|fs| - 1]);
      match FindBucket(before, fs[|fs| - 1])
      case None =>
      case Some(k) =>
        TotalQuantityUpdate(before, k, Bump(before[k], fs[|fs| - 1]));
    }
  }

  lemma {:induction false} InitialTotalZero(bs: seq<Bucket>)
    requires forall i :: 0 <= i < |bs| ==> bs[i].quantidade == 0
    ensures TotalQuantity(bs) == 0
  {
    if bs != [] {
      InitialTotalZero(bs[..|bs| - 1]);
    }
  }

  /** The chart counts no more requests than were approved. */
  lemma ChartTotalBounded(ferias: seq<VacationRequest>, mesAtual: int, anoAtual: int)
    requires 0 <= mesAtual < 12
    ensures TotalQuantity(ChartBuckets(ferias, mesAtual, anoAtual)) <= Count(ferias, IsApproved)
  {
    InitialBucketsSpec(mesAtual, anoAtual);
    InitialTotalZero(InitialBuckets(mesAtual, anoAtual));
    FillAllTotal(InitialBuckets(mesAtual, anoAtual), Filter(ferias, IsApproved));
  }

  /** Requests that are not approved never reach the chart, wherever they
      sit in the list. */
  lemma ChartIgnoresUnapproved(fs: seq<VacationRequest>, x: VacationRequest, gs: seq<VacationRequest>,
                               mesAtual: int, anoAtual: int)
    requires !IsApproved(x)
    ensures ChartBuckets(fs + [x] + gs, mesAtual, anoAtual) == ChartBuckets(fs + gs, mesAtual, anoAtual)
  {
    FilterAppend(fs + [x], gs, IsApproved);
    FilterAppend(fs, [x], IsApproved);
    FilterAppend(fs, gs, IsApproved);
    assert [x][..0] == [];
    assert Filter([x], IsApproved) == [];
    assert Filter(fs + [x] + gs, IsApproved) == Filter(fs + gs, IsApproved);
  }

  // ---------------------------------------------------------------------
  // Summary figures
  // ---------------------------------------------------------------------

  /** `Math.max(...quantidades, 1)` */
  function MaxQuantidade(bs: seq<Bucket>): (m: nat)
    ensures m >= 1
    ensures forall i :: 0 <= i < |bs| ==> bs[i].quantidade <= m
    ensures m == 1 || exists i :: 0 <= i < |bs| && bs[i].quantidade == m
  {
    if bs == [] then 1
    else
      var rest := MaxQuantidade(bs[..|bs| - 1]);
      var last := bs[|bs| - 1].quantidade;
      if last > rest then last else rest
  }

  predicate HasVacations(b: Bucket) { b.quantidade > 0 }

  /** The three figures under the chart: approved requests, months with
      vacations, and the days of all approved requests, in the window or
      not. */
  datatype Summary = Summary(aprovadas: nat, mesesComFerias: nat, totalDias: int)

  function ChartSummary(ferias: seq<VacationRequest>, bs: seq<Bucket>): (s: Summary)
    ensures s.aprovadas == Count(ferias, IsApproved)
    ensures s.mesesComFerias == Count(bs, HasVacations) && s.mesesComFerias <= |bs|
    ensures s.totalDias == ApprovedDays(ferias)
  {
    Summary(Count(ferias, IsApproved), Count(bs, HasVacations), ApprovedDays(ferias))
  }
}
