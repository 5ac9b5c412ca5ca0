/**
 The management page: the filtered list of materials, each with its reorder
 badge and two number fields that save on blur. The dashboard's "Gestão de
 Saldo" tab uses the same two blur handlers.
 */
module MaterialsManagement {
  import opened Optional
  import opened Schema
  import opened Sequences
  import opened Inventory
  import opened Requests

  /** The badge beside each row: "Repor" or "Estoque OK". */
  datatype Badge = Repor | EstoqueOk

  function BadgeFor(m: Material): Badge {
    if m.currentBalance <= m.orderPoint then Repor else EstoqueOk
  }

  /** A rendered row: the material and its badge. */
  datatype Row = Row(material: Material, badge: Badge)

  function RowFor(m: Material): Row { Row(m, BadgeFor(m)) }

  function RowsFor(materials: seq<Material>): (rows: seq<Row>)
    ensures |rows| == |materials|
    ensures forall i :: 0 <= i < |materials| ==> rows[i] == RowFor(materials[i])
  {
    if |materials| == 0 then [] else [RowFor(materials[0])] + RowsFor(materials[1..])
  }

  /**
   The rows rendered for the fetched list (absent while loading) and the
   search text: the matching materials in list order, each badged "Repor"
   exactly when its balance is at or below its order point.
   */
  function VisibleRows(materials: Option<seq<Material>>, search: string): (rows: seq<Row>)
    ensures materials.None? ==> rows == []
    ensures materials.Some? ==> |rows| == |SearchFilter(materials.value, search)|
    ensures materials.Some? ==> forall i :: 0 <= i < |rows| ==>
              rows[i].material == SearchFilter(materials.value, search)[i]
              && MatchesSearch(rows[i].material, search)
    ensures forall i :: 0 <= i < |rows| ==>
              (rows[i].badge == Repor <==> rows[i].material.currentBalance <= rows[i].material.orderPoint)
    ensures forall i :: 0 <= i < |rows| ==>
              (rows[i].badge == EstoqueOk <==> rows[i].material.currentBalance > rows[i].material.orderPoint)
  {
    if materials.None? then [] else RowsFor(SearchFilter(materials.value, search))
  }

  predicate ShowsRepor(r: Row) { r.badge == Repor }

  /**
   With an empty search box the page shows one "Repor" badge per material the
   dashboard counts as "Itens em Alerta": the three surfaces apply one rule.
   */
  lemma ReporBadgesMatchAlertCount(materials: seq<Material>)
    ensures |Filter(VisibleRows(Some(materials), ""), ShowsRepor)| == AlertCount(materials)
  {
    EmptyQueryKeepsAll(materials);
    var rows := VisibleRows(Some(materials), "");
    assert IndicesWhere(rows, ShowsRepor) == IndicesWhere(materials, NeedsReorder);
    FilterLengthCountsIndices(rows, ShowsRepor);
  }

  /** Blur of "Saldo Atual": saves the parsed number, keyed by the row's code, iff it changed. */
  function BalanceBlur(m: Material, parsed: int): (e: Option<MaterialEdit>)
    ensures e.Some? <==> parsed != m.currentBalance
    ensures e.Some? ==> e.value.code == m.code
    ensures e.Some? ==> e.value.currentBalance == Some(parsed) && e.value.orderPoint.None?
  {
    if parsed != m.currentBalance then Some(MaterialEdit(m.code, Some(parsed), None)) else None
  }

  /** Blur of "Ponto Pedido": saves the parsed number, keyed by the row's code, iff it changed. */
  function OrderPointBlur(m: Material, parsed: int): (e: Option<MaterialEdit>)
    ensures e.Some? <==> parsed != m.orderPoint
    ensures e.Some? ==> e.value.code == m.code
    ensures e.Some? ==> e.value.orderPoint == Some(parsed) && e.value.currentBalance.None?
  {
    if parsed != m.orderPoint then Some(MaterialEdit(m.code, None, Some(parsed))) else None
  }
}
