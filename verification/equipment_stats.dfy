/** The equipment overview page (src/app/equipamentos/page.tsx): the status
    counters over the list GET returns, and the grouping of the items in use
    by their borrower. */
module EquipmentStats {
  import opened Common
  import opened EquipmentTable

  datatype Stats = Stats(total: nat, disponiveis: nat, emUso: nat, outros: nat)

  predicate IsAvailable(v: EquipmentView) { v.record.status == DISPONIVEL }
  predicate IsInUse(v: EquipmentView) { v.record.status == EM_USO }
  predicate IsOther(v: EquipmentView) { v.record.status != DISPONIVEL && v.record.status != EM_USO }

  /** The four counters of `fetchStats`: every item is counted as available,
      in use or other, and in exactly one of them. */
  function ComputeStats(xs: seq<EquipmentView>): (s: Stats)
    ensures s.total == |xs|
    ensures s.total == s.disponiveis + s.emUso + s.outros
    ensures s.disponiveis == Count(xs, IsAvailable)
    ensures s.emUso == Count(xs, IsInUse)
    ensures s.outros == Count(xs, IsOther)
  {
    var notAvailable := (v: EquipmentView) => !IsAvailable(v);
    CountComplement(xs, IsAvailable, notAvailable);
    CountDisjointUnion(xs, IsInUse, IsOther, notAvailable);
    Stats(|xs|, Count(xs, IsAvailable), Count(xs, IsInUse), Count(xs, IsOther))
  }

  /** Each item satisfies exactly one of the three status classes. */
  lemma StatusClassesPartition(v: EquipmentView)
    ensures IsAvailable(v) || IsInUse(v) || IsOther(v)
    ensures !(IsAvailable(v) && IsInUse(v)) && !(IsAvailable(v) && IsOther(v)) && !(IsInUse(v) && IsOther(v))
  {
  }

  // ---------------------------------------------------------------------
  // Grouping by borrower
  // ---------------------------------------------------------------------

  /** One entry of `equipamentosPorFuncionario`. */
  datatype Group = Group(funcionario: FuncionarioRef, equipamentos: seq<EquipmentView>)

  /** Only items in use that have a borrower object take part in the grouping. */
  predicate Considered(v: EquipmentView) {
    v.record.status == EM_USO && v.funcionario.Some?
  }

  predicate AllBorrowed(xs: seq<EquipmentView>) {
    forall i :: 0 <= i < |xs| ==> xs[i].funcionario.Some?
  }

  /** The borrower id an item is grouped under. */
  function KeyOf(v: EquipmentView): string
    requires v.funcionario.Some?
  {
    v.funcionario.value.id
  }

  /** Whether item `v` belongs to the group of borrower `k`. */
  predicate HasKey(v: EquipmentView, k: string) {
    v.funcionario.Some? && v.funcionario.value.id == k
  }

  function Keys(xs: seq<EquipmentView>): (ks: seq<string>)
    requires AllBorrowed(xs)
    ensures |ks| == |xs|
    ensures forall i :: 0 <= i < |xs| ==> ks[i] == KeyOf(xs[i])
  {
    seq(|xs|, i requires 0 <= i < |xs| => KeyOf(xs[i]))
  }

  /** The items of borrower `k`, in list order. */
  function ItemsOf(xs: seq<EquipmentView>, k: string): (r: seq<EquipmentView>)
    ensures |r| <= |xs|
    ensures forall i :: 0 <= i < |r| ==> HasKey(r[i], k)
  {
    if xs == [] then []
    else ItemsOf(xs[..|xs| - 1], k) + (if HasKey(xs[|xs| - 1], k) then [xs[|xs| - 1]] else [])
  }

  lemma ItemsOfAppend(xs: seq<EquipmentView>, v: EquipmentView, k: string)
    ensures ItemsOf(xs + [v], k) == ItemsOf(xs, k) + (if HasKey(v, k) then [v] else [])
  {
    assert (xs + [v])[..|xs|] == xs;
  }

  /** The positions of the items of borrower `k`, in increasing order. */
  function ItemIndices(xs: seq<EquipmentView>, k: string): (idx: seq<nat>)
    ensures forall j :: 0 <= j < |idx| ==> idx[j] < |xs|
    ensures forall j, l :: 0 <= j < l < |idx| ==> idx[j] < idx[l]
    ensures forall i :: 0 <= i < |xs| ==> (i in idx <==> HasKey(xs[i], k))
  {
    if xs == [] then []
    else
      var n := |xs| - 1;
      ItemIndices(xs[..n], k) + (if HasKey(xs[n], k) then [n] else [])
  }

  /** A borrower's group keeps the list order: its j-th item is the item at
      the j-th position of that borrower. */
  lemma {:induction false} ItemsOfInOrder(xs: seq<EquipmentView>, k: string)
    ensures |ItemsOf(xs, k)| == |ItemIndices(xs, k)|
    ensures forall j :: 0 <= j < |ItemIndices(xs, k)| ==> ItemsOf(xs, k)[j] == xs[ItemIndices(xs, k)[j]]
  {
    if xs != [] {
      var n := |xs| - 1;
      var init := xs[..n];
      ItemsOfInOrder(init, k);
      var items, idx := ItemsOf(init, k), ItemIndices(init, k);
      assert ItemsOf(xs, k) == items + (if HasKey(xs[n], k) then [xs[n]] else []);
      assert ItemIndices(xs, k) == idx + (if HasKey(xs[n], k) then [n] else []);
      forall j | 0 <= j < |idx|
        ensures xs[idx[j]] == init[idx[j]]
      {
      }
    }
  }

  lemma {:induction false} ItemsOfMembership(xs: seq<EquipmentView>, k: string, v: EquipmentView)
    ensures v in ItemsOf(xs, k) <==> v in xs && HasKey(v, k)
  {
    if xs != [] {
      ItemsOfMembership(xs[..|xs| - 1], k, v);
      assert xs == xs[..|xs| - 1] + [xs[|xs| - 1]];
    }
  }

  /** The group of borrower `k` over `xs`: the borrower object of its first
      item, which is the one the accumulator keeps, and its items in list
      order. */
  function GroupOf(xs: seq<EquipmentView>, k: string): (g: Group)
    requires |ItemsOf(xs, k)| > 0
    ensures g.funcionario.id == k
    ensures g.equipamentos == ItemsOf(xs, k)
  {
    var items := ItemsOf(xs, k);
    assert HasKey(items[0], k);
    Group(items[0].funcionario.value, items)
  }

  /** The keys in use are exactly the keys with a non-empty group. */
  lemma {:induction false} KeysHaveItems(xs: seq<EquipmentView>, k: string)
    requires AllBorrowed(xs)
    ensures k in Keys(xs) <==> |ItemsOf(xs, k)| > 0
  {
    if xs != [] {
      var n := |xs| - 1;
      KeysHaveItems(xs[..n], k);
      assert Keys(xs) == Keys(xs[..n]) + [KeyOf(xs[n])];
    }
  }

  /** The specification of the grouping: one group per borrower id, in order
      of first appearance, holding that borrower's items in list order. */
  function GroupBy(xs: seq<EquipmentView>): (gs: seq<Group>)
    requires AllBorrowed(xs)
    ensures |gs| == |Dedup(Keys(xs))|
  {
    var ks := Dedup(Keys(xs));
    DedupSpec(Keys(xs));
    seq(|ks|, j requires 0 <= j < |ks| =>
      KeysHaveItems(xs, ks[j]);
      GroupOf(xs, ks[j]))
  }

  function KeyList(gs: seq<Group>): (ks: seq<string>)
    ensures |ks| == |gs|
    ensures forall j :: 0 <= j < |gs| ==> ks[j] == gs[j].funcionario.id
  {
    seq(|gs|, j requires 0 <= j < |gs| => gs[j].funcionario.id)
  }

  function TotalSize(gs: seq<Group>): nat {
    if gs == [] then 0 else TotalSize(gs[..|gs| - 1]) + |gs[|gs| - 1].equipamentos|
  }

  /** The groups are the distinct borrower ids in order of first appearance,
      and each group holds exactly the items of its borrower, in list
      order, and is non-empty. */
  lemma GroupBySpec(xs: seq<EquipmentView>)
    requires AllBorrowed(xs)
    ensures KeyList(GroupBy(xs)) == Dedup(Keys(xs))
    ensures Distinct(KeyList(GroupBy(xs)))
    ensures forall j :: 0 <= j < |GroupBy(xs)| ==>
              var g := GroupBy(xs)[j];
              g.equipamentos == ItemsOf(xs, g.funcionario.id) && |g.equipamentos| > 0
  {
    var ks := Dedup(Keys(xs));
    DedupSpec(Keys(xs));
    assert KeyList(GroupBy(xs)) == ks;
    forall j | 0 <= j < |ks|
      ensures |ItemsOf(xs, ks[j])| > 0
    {
      KeysHaveItems(xs, ks[j]);
    }
  }

  /** Every item lies in the group of its borrower, and every grouped item
      is an item of the list. */
  lemma GroupByCovers(xs: seq<EquipmentView>, i: nat)
    requires AllBorrowed(xs) && i < |xs|
    ensures exists j :: 0 <= j < |GroupBy(xs)| && GroupBy(xs)[j].funcionario.id == KeyOf(xs[i])
                        && xs[i] in GroupBy(xs)[j].equipamentos
  {
    var ks := Dedup(Keys(xs));
    DedupSpec(Keys(xs));
    assert Keys(xs)[i] in Keys(xs);
    var j :| 0 <= j < |ks| && ks[j] == KeyOf(xs[i]);
    ItemsOfMembership(xs, KeyOf(xs[i]), xs[i]);
    assert GroupBy(xs)[j].equipamentos == ItemsOf(xs, KeyOf(xs[i]));
  }

  /** Summing the per-key counts over a list of keys. */
  function CountSum(ks: seq<string>, xs: seq<EquipmentView>): nat {
    if ks == [] then 0 else CountSum(ks[..|ks| - 1], xs) + |ItemsOf(xs, ks[|ks| - 1])|
  }

  /** One more item adds one to the sum exactly when its key is listed once. */
  lemma {:induction false} CountSumStep(ks: seq<string>, xs: seq<EquipmentView>, v: EquipmentView)
    requires Distinct(ks) && v.funcionario.Some?
    ensures CountSum(ks, xs + [v]) == CountSum(ks, xs) + (if KeyOf(v) in ks then 1 else 0)
  {
    if ks != [] {
      var ks' := ks[..|ks| - 1];
      CountSumStep(ks', xs, v);
      ItemsOfAppend(xs, v, ks[|ks| - 1]);
      assert KeyOf(v) in ks <==> KeyOf(v) in ks' || KeyOf(v) == ks[|ks| - 1];
    }
  }

  /** The per-borrower counts add up to the number of items grouped. */
  lemma {:induction false} CountSumDedup(xs: seq<EquipmentView>)
    requires AllBorrowed(xs)
    ensures CountSum(Dedup(Keys(xs)), xs) == |xs|
  {
    if xs != [] {
      var n := |xs| - 1;
      var xs' := xs[..n];
      var v := xs[n];
      assert xs == xs' + [v];
      assert Keys(xs) == Keys(xs') + [KeyOf(v)];
      assert Keys(xs)[..n] == Keys(xs');
      CountSumDedup(xs');
      var d' := Dedup(Keys(xs'));
      DedupSpec(Keys(xs'));
      CountSumStep(d', xs', v);
      if KeyOf(v) !in d' {
        var k := KeyOf(v);
        KeysHaveItems(xs', k);
        ItemsOfAppend(xs', v, k);
        assert (d' + [k])[..|d'|] == d';
        assert CountSum(d' + [k], xs) == CountSum(d', xs) + |ItemsOf(xs, k)|;
      }
    }
  }

  lemma {:induction false} TotalSizeIsCountSum(xs: seq<EquipmentView>, gs: seq<Group>, ks: seq<string>)
    requires |gs| == |ks|
    requires forall j :: 0 <= j < |gs| ==> gs[j].equipamentos == ItemsOf(xs, ks[j])
    ensures TotalSize(gs) == CountSum(ks, xs)
  {
    if gs != [] {
      TotalSizeIsCountSum(xs, gs[..|gs| - 1], ks[..|ks| - 1]);
    }
  }

  /** The group sizes add up to the number of items grouped. */
  lemma GroupSizesSum(xs: seq<EquipmentView>)
    requires AllBorrowed(xs)
    ensures TotalSize(GroupBy(xs)) == |xs|
  {
    var gs := GroupBy(xs);
    GroupBySpec(xs);
    TotalSizeIsCountSum(xs, gs, Dedup(Keys(xs)));
    CountSumDedup(xs);
  }

  /** What the accumulator of the reduce holds after the items `ys`: the
      keys in insertion order are the distinct borrower ids of `ys`, and
      each key maps to its group so far. */
  ghost predicate AccInvariant(acc: map<string, Group>, order: seq<string>, ys: seq<EquipmentView>)
  {
    && AllBorrowed(ys)
    && order == Dedup(Keys(ys))
    && (forall k :: k in acc <==> k in order)
    && (forall k :: k in acc ==> |ItemsOf(ys, k)| > 0 && acc[k] == GroupOf(ys, k))
  }

  /** Adding item `e` to the accumulator: a new borrower id opens an empty
      group holding `e`'s borrower object, and `e` joins its group. */
  function AddItem(acc: map<string, Group>, e: EquipmentView): (acc': map<string, Group>)
    requires e.funcionario.Some?
    ensures forall k :: k in acc' <==> k in acc || k == KeyOf(e)
    ensures forall k :: k in acc && k != KeyOf(e) ==> acc'[k] == acc[k]
    ensures acc'[KeyOf(e)] == if KeyOf(e) in acc
                              then acc[KeyOf(e)].(equipamentos := acc[KeyOf(e)].equipamentos + [e])
                              else Group(e.funcionario.value, [e])
  {
    var k := KeyOf(e);
    var base := if k in acc then acc else acc[k := Group(e.funcionario.value, [])];
    base[k := base[k].(equipamentos := base[k].equipamentos + [e])]
  }

  /** The group of one key after one more item. */
  lemma GroupStep(acc: map<string, Group>, order: seq<string>, ys: seq<EquipmentView>, e: EquipmentView, k: string)
    requires AllBorrowed(ys) && e.funcionario.Some?
    requires AccInvariant(acc, order, ys)
    requires k in acc || k == KeyOf(e)
    ensures |ItemsOf(ys + [e], k)| > 0
    ensures AddItem(acc, e)[k] == GroupOf(ys + [e], k)
  {
    ItemsOfAppend(ys, e, k);
    if k == KeyOf(e) && k !in acc {
      DedupSpec(Keys(ys));
      KeysHaveItems(ys, k);
    }
  }

  /** One more item extends the insertion order by its key when that key
      is new. */
  lemma OrderStep(acc: map<string, Group>, order: seq<string>, ys: seq<EquipmentView>, e: EquipmentView)
    requires AllBorrowed(ys) && e.funcionario.Some?
    requires AccInvariant(acc, order, ys)
    ensures AllBorrowed(ys + [e])
    ensures Dedup(Keys(ys + [e])) == if KeyOf(e) in acc then order else order + [KeyOf(e)]
  {
    var ys' := ys + [e];
    assert Keys(ys')[..|ys|] == Keys(ys);
    DedupSpec(Keys(ys));
  }

  /** After one more item the accumulator's keys are those of the new
      insertion order. */
  lemma DomainStep(acc: map<string, Group>, order: seq<string>, ys: seq<EquipmentView>, e: EquipmentView)
    requires AllBorrowed(ys) && e.funcionario.Some?
    requires AccInvariant(acc, order, ys)
    ensures var order' := if KeyOf(e) in acc then order else order + [KeyOf(e)];
            forall k :: k in AddItem(acc, e) <==> k in order'
  {
    var order' := if KeyOf(e) in acc then order else order + [KeyOf(e)];
    forall k
      ensures k in AddItem(acc, e) <==> k in order'
    {
      assert k in order' <==> k in order || k == KeyOf(e);
    }
  }

  /** After one more item every key maps to its group. */
  lemma GroupsStep(acc: map<string, Group>, order: seq<string>, ys: seq<EquipmentView>, e: EquipmentView)
    requires AllBorrowed(ys) && e.funcionario.Some?
    requires AccInvariant(acc, order, ys)
    ensures forall k :: k in AddItem(acc, e) ==>
              |ItemsOf(ys + [e], k)| > 0 && AddItem(acc, e)[k] == GroupOf(ys + [e], k)
  {
    forall k | k in AddItem(acc, e)
      ensures |ItemsOf(ys + [e], k)| > 0 && AddItem(acc, e)[k] == GroupOf(ys + [e], k)
    {
      GroupStep(acc, order, ys, e, k);
    }
  }

  /** One step of the reduce keeps the accumulator's meaning. */
  lemma AccStep(acc: map<string, Group>, order: seq<string>, ys: seq<EquipmentView>, e: EquipmentView)
    requires AllBorrowed(ys) && e.funcionario.Some?
    requires AccInvariant(acc, order, ys)
    ensures AllBorrowed(ys + [e])
    ensures AccInvariant(AddItem(acc, e), if KeyOf(e) in acc then order else order + [KeyOf(e)], ys + [e])
  {
    OrderStep(acc, order, ys, e);
    DomainStep(acc, order, ys, e);
    GroupsStep(acc, order, ys, e);
  }

  /** The accumulator after reducing `ys`, as a fold. */
  function AccOf(ys: seq<EquipmentView>): (map<string, Group>, seq<string>)
    requires AllBorrowed(ys)
  {
    if ys == [] then (map[], [])
    else
      var n := |ys| - 1;
      var (acc, order) := AccOf(ys[..n]);
      var e := ys[n];
      (AddItem(acc, e), if KeyOf(e) in acc then order else order + [KeyOf(e)])
  }

  /** The fold's accumulator has the meaning `AccInvariant` gives it. */
  lemma {:induction false} AccOfMeaning(ys: seq<EquipmentView>)
    requires AllBorrowed(ys)
    ensures AccInvariant(AccOf(ys).0, AccOf(ys).1, ys)
  {
    if ys != [] {
      var n := |ys| - 1;
      AccOfMeaning(ys[..n]);
      assert ys == ys[..n] + [ys[n]];
      AccStep(AccOf(ys[..n]).0, AccOf(ys[..n]).1, ys[..n], ys[n]);
    }
  }

  /** Once every item is accumulated, listing the groups in key order gives
      the specification's grouping. */
  lemma AccFinal(acc: map<string, Group>, order: seq<string>, ys: seq<EquipmentView>)
    requires AllBorrowed(ys) && AccInvariant(acc, order, ys)
    ensures forall k :: k in order ==> k in acc
    ensures seq(|order|, j requires 0 <= j < |order| => acc[order[j]]) == GroupBy(ys)
  {
  }

  /** The accumulation loop of the reduce: every item joins the group of
      its borrower id, and a new id is appended to the insertion order. */
  method Accumulate(emUso: seq<EquipmentView>) returns (acc: map<string, Group>, order: seq<string>)
    requires AllBorrowed(emUso)
    ensures AccInvariant(acc, order, emUso)
  {
    acc, order := map[], [];
    for i := 0 to |emUso|
      invariant (acc, order) == AccOf(emUso[..i])
    {
      var e := emUso[i];
      assert emUso[..i + 1][..i] == emUso[..i];
      order := if KeyOf(e) in acc then order else order + [KeyOf(e)];
      acc := AddItem(acc, e);
    }
    assert emUso[..|emUso|] == emUso;
    AccOfMeaning(emUso);
  }

  /** The reduce of `fetchStats`: filters the items in use with a borrower
      and accumulates them in a dictionary keyed by borrower id, whose
      values, in insertion order, are the groups. */
  method GroupByFuncionario(xs: seq<EquipmentView>) returns (groups: seq<Group>)
    ensures AllBorrowed(Filter(xs, Considered))
    ensures groups == GroupBy(Filter(xs, Considered))
    ensures TotalSize(groups) == Count(xs, Considered)
  {
    var emUso := Filter(xs, Considered);
    var acc, order := Accumulate(emUso);
    AccFinal(acc, order, emUso);
    groups := seq(|order|, j requires 0 <= j < |order| => acc[order[j]]);
    GroupSizesSum(emUso);
  }
}
