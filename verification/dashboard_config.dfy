/**
 The configuration page: number fields for each month's entries and exits,
 and for each stat card a text field for its value, a number field for its
 change and three trend buttons.
 */
module DashboardConfig {
  import opened Optional
  import opened Schema
  import opened Requests

  /** Blur of "Entradas": sends only `revenue`, for that row's month, iff the number changed. */
  function RevenueBlur(item: Revenue, parsed: int): (e: Option<RevenueEdit>)
    ensures e.Some? <==> parsed != item.revenue
    ensures e.Some? ==> e.value == RevenueEdit(item.month, Some(parsed), None)
  {
    if parsed != item.revenue then Some(RevenueEdit(item.month, Some(parsed), None)) else None
  }

  /** Blur of "Saídas": sends only `expenses`, for that row's month, iff the number changed. */
  function ExpensesBlur(item: Revenue, parsed: int): (e: Option<RevenueEdit>)
    ensures e.Some? <==> parsed != item.expenses
    ensures e.Some? ==> e.value == RevenueEdit(item.month, None, Some(parsed))
  {
    if parsed != item.expenses then Some(RevenueEdit(item.month, None, Some(parsed))) else None
  }

  /** Blur of "Valor": compares the raw text, and sends only `value` iff it differs. */
  function ValueBlur(stat: Stat, text: string): (e: Option<StatEdit>)
    ensures e.Some? <==> text != stat.value
    ensures e.Some? ==> e.value == StatEdit(stat.cardLabel, Some(text), None, None)
  {
    if text != stat.value then Some(StatEdit(stat.cardLabel, Some(text), None, None)) else None
  }

  /** The initial content of the "%" field: `stat.change || 0`. */
  function ChangeShown(stat: Stat): (n: int)
    ensures stat.change.Some? ==> n == stat.change.value
    ensures stat.change.None? ==> n == 0
  {
    stat.change.GetOr(0)
  }

  /**
   Blur of "%": sends only `change` iff the number is not strictly equal to the
   stored `change`; a null `change` equals no number.
   */
  function ChangeBlur(stat: Stat, parsed: int): (e: Option<StatEdit>)
    ensures e.Some? <==> stat.change != Some(parsed)
    ensures e.Some? ==> e.value == StatEdit(stat.cardLabel, None, Some(parsed), None)
  {
    if Some(parsed) != stat.change then Some(StatEdit(stat.cardLabel, None, Some(parsed), None)) else None
  }

  /** Leaving an untouched "%" field sends nothing when `change` is set, and sends `0` when it is null. */
  lemma UntouchedChangeBlur(stat: Stat)
    ensures stat.change.Some? ==> ChangeBlur(stat, ChangeShown(stat)).None?
    ensures stat.change.None? ==> ChangeBlur(stat, ChangeShown(stat)) == Some(StatEdit(stat.cardLabel, None, Some(0), None))
  {
  }

  /** The trend buttons, in display order. */
  const TrendButtons: seq<string> := ["up", "down", "neutral"]

  /**
   What each trend button sends on click (unconditionally): the button's own
   trend and no other stat field, for that card's label.
   */
  function TrendClicks(stat: Stat): (edits: seq<StatEdit>)
    ensures |edits| == |TrendButtons|
    ensures forall i :: 0 <= i < |edits| ==>
              && edits[i].key == stat.cardLabel
              && edits[i].trend == Some(TrendButtons[i])
              && edits[i].trend.value in {"up", "down", "neutral"}
              && edits[i].value.None? && edits[i].change.None?
  {
    seq(|TrendButtons|, i requires 0 <= i < |TrendButtons| => StatEdit(stat.cardLabel, None, None, Some(TrendButtons[i])))
  }

  /** Button `i` is drawn highlighted: `stat.trend === t`. */
  predicate Highlighted(stat: Stat, i: int)
    requires 0 <= i < |TrendButtons|
  {
    stat.trend == TrendButtons[i]
  }

  /**
   Exactly the button carrying the card's trend is highlighted when the trend
   is one of the three; none is when it is anything else.
   */
  lemma ExactlyOneHighlighted(stat: Stat)
    ensures stat.trend in TrendButtons ==>
              exists i :: 0 <= i < |TrendButtons| && Highlighted(stat, i)
                && forall j :: 0 <= j < |TrendButtons| && Highlighted(stat, j) ==> j == i
    ensures stat.trend !in TrendButtons ==> forall i :: 0 <= i < |TrendButtons| ==> !Highlighted(stat, i)
  {
    if stat.trend in TrendButtons {
      var i :| 0 <= i < |TrendButtons| && TrendButtons[i] == stat.trend;
      assert Highlighted(stat, i);
    }
  }
}
