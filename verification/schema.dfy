/**
 The three tables' rows and the partial updates the storage layer accepts.
 The `type` column of a material is named `kind` here (`type` is a Dafny keyword).
 */
module Schema {
  import opened Optional

  /** A stock item; `code` is its business key, `id` its surrogate key. */
  datatype Material = Material(
    id: int,
    code: string,
    description: string,
    kind: string,
    currentBalance: int,
    orderPoint: int)

  /** `Partial<InsertMaterial>`: every column except the surrogate id, each optional. */
  datatype MaterialPatch = MaterialPatch(
    code: Option<string>,
    description: Option<string>,
    kind: Option<string>,
    currentBalance: Option<int>,
    orderPoint: Option<int>)

  /** One month of stock movement, keyed by `month`. */
  datatype Revenue = Revenue(id: int, month: string, revenue: int, expenses: int)

  /** `Partial<{ revenue, expenses }>`. */
  datatype RevenuePatch = RevenuePatch(revenue: Option<int>, expenses: Option<int>)

  /** A summary card, keyed by its `label` column (`cardLabel` here: `label` is a Dafny keyword); `change` is nullable. */
  datatype Stat = Stat(id: int, cardLabel: string, value: string, change: Option<int>, trend: string)

  /** `Partial<{ value, change, trend }>`. */
  datatype StatPatch = StatPatch(value: Option<string>, change: Option<int>, trend: Option<string>)

  const NoMaterialChange := MaterialPatch(None, None, None, None, None)

  function MaterialId(m: Material): int { m.id }
  function MaterialCode(m: Material): string { m.code }
  function RevenueId(r: Revenue): int { r.id }
  function RevenueMonth(r: Revenue): string { r.month }
  function StatId(s: Stat): int { s.id }
  function StatLabel(s: Stat): string { s.cardLabel }

  /** `SET` with a partial object: the supplied columns take the new value, the others keep theirs. */
  function MergeMaterial(m: Material, p: MaterialPatch): (r: Material)
    ensures r.id == m.id
    ensures p.code.Some? ==> r.code == p.code.value
    ensures p.code.None? ==> r.code == m.code
    ensures p.description.Some? ==> r.description == p.description.value
    ensures p.description.None? ==> r.description == m.description
    ensures p.kind.Some? ==> r.kind == p.kind.value
    ensures p.kind.None? ==> r.kind == m.kind
    ensures p.currentBalance.Some? ==> r.currentBalance == p.currentBalance.value
    ensures p.currentBalance.None? ==> r.currentBalance == m.currentBalance
    ensures p.orderPoint.Some? ==> r.orderPoint == p.orderPoint.value
    ensures p.orderPoint.None? ==> r.orderPoint == m.orderPoint
  {
    Material(
      m.id,
      p.code.GetOr(m.code),
      p.description.GetOr(m.description),
      p.kind.GetOr(m.kind),
      p.currentBalance.GetOr(m.currentBalance),
      p.orderPoint.GetOr(m.orderPoint))
  }

  function MergeRevenue(r: Revenue, p: RevenuePatch): (q: Revenue)
    ensures q.id == r.id && q.month == r.month
    ensures p.revenue.Some? ==> q.revenue == p.revenue.value
    ensures p.revenue.None? ==> q.revenue == r.revenue
    ensures p.expenses.Some? ==> q.expenses == p.expenses.value
    ensures p.expenses.None? ==> q.expenses == r.expenses
  {
    Revenue(r.id, r.month, p.revenue.GetOr(r.revenue), p.expenses.GetOr(r.expenses))
  }

  function MergeStat(s: Stat, p: StatPatch): (r: Stat)
    ensures r.id == s.id && r.cardLabel == s.cardLabel
    ensures p.value.Some? ==> r.value == p.value.value
    ensures p.value.None? ==> r.value == s.value
    ensures p.change.Some? ==> r.change == p.change
    ensures p.change.None? ==> r.change == s.change
    ensures p.trend.Some? ==> r.trend == p.trend.value
    ensures p.trend.None? ==> r.trend == s.trend
  {
    Stat(
      s.id,
      s.cardLabel,
      p.value.GetOr(s.value),
      if p.change.Some? then p.change else s.change,
      p.trend.GetOr(s.trend))
  }

  /** Re-applying a patch to a row it has already been applied to changes nothing. */
  lemma MergesAreIdempotent(m: Material, mp: MaterialPatch, r: Revenue, rp: RevenuePatch, s: Stat, sp: StatPatch)
    ensures MergeMaterial(MergeMaterial(m, mp), mp) == MergeMaterial(m, mp)
    ensures MergeRevenue(MergeRevenue(r, rp), rp) == MergeRevenue(r, rp)
    ensures MergeStat(MergeStat(s, sp), sp) == MergeStat(s, sp)
  {
  }
}
