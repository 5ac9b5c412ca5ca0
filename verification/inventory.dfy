/**
 The client-side rules shared by the dashboard and the management page: the
 reorder rule, the search filter over the fetched list, and the aggregates
 derived from it. All are recomputed from the list on every render.
 */
module Inventory {
  import opened Optional
  import opened Schema
  import opened Text
  import opened Sequences

  /** A material needs reordering when its balance is at or below its order point (inclusive). */
  predicate NeedsReorder(m: Material) {
    m.currentBalance <= m.orderPoint
  }

  function Balance(m: Material): int { m.currentBalance }

  /** The query, lower-cased, occurs in the lower-cased code or the lower-cased description. */
  predicate MatchesSearch(m: Material, query: string) {
    Includes(Lower(m.code), Lower(query)) || Includes(Lower(m.description), Lower(query))
  }

  /** `filteredMaterials`: the fetched list narrowed to the rows matching the search box. */
  function SearchFilter(materials: seq<Material>, query: string): (r: seq<Material>)
    ensures |r| <= |materials|
    ensures IsSubsequence(r, materials)
    ensures forall i :: 0 <= i < |r| ==> r[i] in materials && MatchesSearch(r[i], query)
    ensures forall i :: 0 <= i < |materials| && MatchesSearch(materials[i], query) ==> materials[i] in r
  {
    Filter(materials, (m: Material) => MatchesSearch(m, query))
  }

  /** A material is kept iff the lower-cased query occurs at some position of its lower-cased code or description. */
  lemma MatchesSearchIffOccurs(m: Material, query: string)
    ensures MatchesSearch(m, query) <==>
      IsSubstring(Lower(query), Lower(m.code)) || IsSubstring(Lower(query), Lower(m.description))
  {
    IncludesIffOccurs(Lower(m.code), Lower(query));
    IncludesIffOccurs(Lower(m.description), Lower(query));
  }

  /** Upper or lower case in the query or in the data makes no difference. */
  lemma SearchIgnoresCase(m: Material, query: string)
    ensures MatchesSearch(m, query) <==> MatchesSearch(m, Lower(query))
    ensures MatchesSearch(m, query) <==> MatchesSearch(m.(code := Lower(m.code), description := Lower(m.description)), query)
  {
    LowerIdempotent(query);
    LowerIdempotent(m.code);
    LowerIdempotent(m.description);
  }

  /** The empty search box keeps every material, in the original order. */
  lemma {:induction false} EmptyQueryKeepsAll(materials: seq<Material>)
    ensures SearchFilter(materials, "") == materials
    decreases |materials|
  {
    if |materials| > 0 {
      IncludesEmpty(Lower(materials[0].code));
      EmptyQueryKeepsAll(materials[1..]);
    }
  }

  /** The materials in alert, in list order. */
  function Alerts(materials: seq<Material>): (r: seq<Material>)
    ensures |r| <= |materials|
    ensures forall i :: 0 <= i < |r| ==> r[i] in materials && NeedsReorder(r[i])
    ensures forall i :: 0 <= i < |materials| && NeedsReorder(materials[i]) ==> materials[i] in r
  {
    Filter(materials, NeedsReorder)
  }

  /**
   "Itens em Alerta": the number of positions holding a material that needs
   reordering; never more than the number of items, and positive exactly when
   some material needs reordering.
   */
  function AlertCount(materials: seq<Material>): (n: nat)
    ensures n == |IndicesWhere(materials, NeedsReorder)|
    ensures n <= |materials|
    ensures n > 0 <==> exists i :: 0 <= i < |materials| && NeedsReorder(materials[i])
  {
    FilterLengthCountsIndices(materials, NeedsReorder);
    FilterNonEmptyIffSome(materials, NeedsReorder);
    |Alerts(materials)|
  }

  /** "Saldo Total": the sum of the balances. */
  function TotalBalance(materials: seq<Material>): int {
    SumOf(materials, Balance)
  }

  /** With non-negative balances the total is non-negative and bounds every single balance. */
  lemma TotalBalanceBounds(materials: seq<Material>)
    requires forall i :: 0 <= i < |materials| ==> materials[i].currentBalance >= 0
    ensures TotalBalance(materials) >= 0
    ensures forall i :: 0 <= i < |materials| ==> materials[i].currentBalance <= TotalBalance(materials)
  {
    SumOfNonNegative(materials, Balance);
  }

  /** `materials.find(m => m.code === code)`: the first material with that code. */
  function FindByCode(materials: seq<Material>, code: string): (r: Option<Material>)
    ensures r.None? <==> forall i :: 0 <= i < |materials| ==> materials[i].code != code
    ensures forall i :: (0 <= i < |materials| && materials[i].code == code
                         && forall j :: 0 <= j < i ==> materials[j].code != code)
                        ==> r == Some(materials[i])
  {
    match FirstIndex(materials, (m: Material) => m.code == code)
    case None => None
    case Some(i) => Some(materials[i])
  }
}
