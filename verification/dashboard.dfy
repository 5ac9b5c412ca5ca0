/**
 The dashboard page: the four stat cards (one material's figures when the page
 is opened on a material code, overview figures otherwise), the critical-alert
 banner and the revenue total.
 */
module Dashboard {
  import opened Optional
  import opened Schema
  import opened Text
  import opened Sequences
  import opened Inventory

  /** A card's value: text, or a number rendered as is. */
  datatype CardValue = Text(s: string) | Number(n: int)

  /** One entry of `displayStats`. */
  datatype Card = Card(id: int, caption: string, value: CardValue, trend: string, change: int)

  const Up := "up"
  const Down := "down"
  const Neutral := "neutral"

  /**
   `materials?.find(m => m.code === materialCode)`: nothing while the list is
   loading or when no code is given; otherwise the first material with that code.
   */
  function SelectedMaterial(materials: Option<seq<Material>>, code: Option<string>): (r: Option<Material>)
    ensures materials.None? || code.None? ==> r.None?
    ensures materials.Some? && code.Some? ==>
              (r.None? <==> forall i :: 0 <= i < |materials.value| ==> materials.value[i].code != code.value)
    ensures r.Some? ==> r.value in materials.value && r.value.code == code.value
    ensures materials.Some? && code.Some? ==>
              forall i :: (0 <= i < |materials.value| && materials.value[i].code == code.value
                           && forall j :: 0 <= j < i ==> materials.value[j].code != code.value)
                          ==> r == Some(materials.value[i])
  {
    if materials.None? || code.None? then None else FindByCode(materials.value, code.value)
  }

  /** `${n} un`. */
  function Units(n: int): string { Decimal(n) + " un" }

  function MaterialCards(m: Material): seq<Card> {
    [ Card(1, "Saldo Atual", Text(Units(m.currentBalance)), Neutral, 0),
      Card(2, "Ponto de Pedido", Text(Units(m.orderPoint)), Neutral, 0),
      Card(3, "Status",
           Text(if m.currentBalance <= m.orderPoint then "Reposição" else "OK"),
           if m.currentBalance <= m.orderPoint then Down else Up, 0),
      Card(4, "Tipo", Text(m.kind), Neutral, 0) ]
  }

  /** The overview figures; `x || 0` turns the absent list's `undefined` into 0. */
  function OverviewCards(materials: Option<seq<Material>>): seq<Card> {
    var ms := materials.GetOr([]);
    [ Card(1, "Itens em Alerta", Number(AlertCount(ms)), Down, 0),
      Card(2, "Total de Itens", Number(|ms|), Neutral, 0),
      Card(3, "Saldo Total", Number(TotalBalance(ms)), Up, 0),
      Card(4, "Movimentações", Text("Ativo"), Up, 0) ]
  }

  /** `displayStats`. */
  function DisplayStats(materials: Option<seq<Material>>, code: Option<string>): (cards: seq<Card>)
    ensures |cards| == 4
    ensures forall i :: 0 <= i < 4 ==> cards[i].id == i + 1 && cards[i].change == 0
  {
    match SelectedMaterial(materials, code)
    case Some(m) => MaterialCards(m)
    case None => OverviewCards(materials)
  }

  /**
   On a material's page the Status card reads "Reposição" with a downward
   trend iff the balance is at or below the order point (equality included),
   and "OK" with an upward trend otherwise.
   */
  lemma StatusCardFollowsReorderRule(materials: Option<seq<Material>>, code: Option<string>, m: Material)
    requires SelectedMaterial(materials, code) == Some(m)
    ensures var status := DisplayStats(materials, code)[2];
      && status.caption == "Status"
      && (status.value == Text("Reposição") <==> m.currentBalance <= m.orderPoint)
      && (status.trend == Down <==> m.currentBalance <= m.orderPoint)
      && (status.value == Text("OK") <==> m.currentBalance > m.orderPoint)
      && (status.trend == Up <==> m.currentBalance > m.orderPoint)
  {
  }

  /**
   Without a selected material: "Itens em Alerta" counts the positions needing
   reorder and never exceeds "Total de Itens"; "Saldo Total" is the sum of the
   balances; all three are 0 while the list is absent or empty.
   */
  lemma OverviewFigures(materials: Option<seq<Material>>, code: Option<string>)
    requires SelectedMaterial(materials, code).None?
    ensures var cards, ms := DisplayStats(materials, code), materials.GetOr([]);
      && cards[0].value == Number(|IndicesWhere(ms, NeedsReorder)|)
      && cards[1].value == Number(|ms|)
      && cards[0].value.n <= cards[1].value.n
      && cards[2].value == Number(SumOf(ms, Balance))
      && (|ms| == 0 ==> cards[0].value == Number(0) && cards[1].value == Number(0) && cards[2].value == Number(0))
  {
  }

  /**
   The banner: shown iff some material needs reordering, announcing the count
   of materials in alert.
   */
  function AlertBanner(materials: Option<seq<Material>>): (b: Option<nat>)
    ensures b.Some? <==> materials.Some? && exists i :: 0 <= i < |materials.value| && NeedsReorder(materials.value[i])
    ensures b.Some? ==> b.value == |IndicesWhere(materials.value, NeedsReorder)| && b.value > 0
  {
    if materials.Some? && AlertCount(materials.value) > 0 then Some(AlertCount(materials.value)) else None
  }

  /** The banner's number is the "Itens em Alerta" card's number whenever the overview is shown. */
  lemma BannerAgreesWithAlertCard(materials: Option<seq<Material>>, code: Option<string>)
    requires SelectedMaterial(materials, code).None?
    ensures AlertBanner(materials).Some? ==> DisplayStats(materials, code)[0].value == Number(AlertBanner(materials).value)
    ensures AlertBanner(materials).None? <==> DisplayStats(materials, code)[0].value == Number(0)
  {
  }

  function RevenueOf(r: Revenue): int { r.revenue }

  /** `totalRevenue`: `revenue?.reduce((acc, curr) => acc + curr.revenue, 0) || 0`. */
  method TotalRevenue(revenue: Option<seq<Revenue>>) returns (total: int)
    ensures revenue.None? ==> total == 0
    ensures revenue.Some? ==> total == SumOf(revenue.value, RevenueOf)
  {
    if revenue.None? {
      total := 0;
    } else {
      total := LeftFoldSum(revenue.value, RevenueOf);
    }
  }
}
