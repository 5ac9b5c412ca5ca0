/**
 The client and the server together: a body built by a page decodes on the
 server to exactly the edited fields, and a blur that sends an edit for a row
 of a valid database changes that one field of that one row, answers 200 with
 the new row, and marks the list stale in the client's cache.
 */
module EndToEnd {
  import opened Optional
  import opened Schema
  import opened KeyedTable
  import opened Storage
  import opened Routes
  import opened Requests
  import opened MaterialsManagement
  import opened DashboardConfig

  /** The material body decodes to a patch of exactly the two numeric fields the page sent. */
  lemma MaterialBodyRoundTrip(e: MaterialEdit)
    ensures DecodeMaterialPatch(MaterialRequest(e).body) == MaterialPatch(None, None, None, e.currentBalance, e.orderPoint)
  {
  }

  lemma RevenueBodyRoundTrip(e: RevenueEdit)
    ensures DecodeRevenuePatch(RevenueRequest(e).body) == RevenuePatch(e.revenue, e.expenses)
  {
  }

  lemma StatBodyRoundTrip(e: StatEdit)
    ensures DecodeStatPatch(StatRequest(e).body) == StatPatch(e.value, e.change, e.trend)
  {
  }

  /** In a valid table only row `i` carries row `i`'s code. */
  lemma OnlyRowWithCode(db: Db, i: int)
    requires Valid(db) && 0 <= i < |db.materials|
    ensures forall j :: 0 <= j < |db.materials| && j != i ==> db.materials[j].code != db.materials[i].code
  {
    assert UniqueKeys(db.materials, MaterialCode);
  }

  lemma OnlyRowWithMonth(db: Db, i: int)
    requires Valid(db) && 0 <= i < |db.revenue|
    ensures forall j :: 0 <= j < |db.revenue| && j != i ==> db.revenue[j].month != db.revenue[i].month
  {
    assert UniqueKeys(db.revenue, RevenueMonth);
  }

  lemma OnlyRowWithLabel(db: Db, i: int)
    requires Valid(db) && 0 <= i < |db.stats|
    ensures forall j :: 0 <= j < |db.stats| && j != i ==> db.stats[j].cardLabel != db.stats[i].cardLabel
  {
    assert UniqueKeys(db.stats, StatLabel);
  }

  /**
   A material edit addressed to the code of row `i` rewrites exactly the fields
   it carries on that row, answers 200 with the new row, keeps the database
   valid, and invalidates the materials list.
   */
  lemma MaterialEditPersists(db: Db, i: int, e: MaterialEdit, cache: Cache)
    requires Valid(db) && 0 <= i < |db.materials| && e.code == db.materials[i].code
    ensures var m := db.materials[i];
      var m' := m.(currentBalance := e.currentBalance.GetOr(m.currentBalance),
                   orderPoint := e.orderPoint.GetOr(m.orderPoint));
      var req := MaterialRequest(e);
      var h := PatchMaterial(db, req.key, req.body);
      && h.response == Ok(m')
      && h.db == db.(materials := db.materials[i := m'])
      && Valid(h.db)
      && AfterResponse(cache, MaterialsList, StatusCode(h.response)).stale == cache.stale + {MaterialsList}
  {
    MaterialBodyRoundTrip(e);
    OnlyRowWithCode(db, i);
    var req := MaterialRequest(e);
    UpdateMaterialReturnsStoredRow(db, req.key, DecodeMaterialPatch(req.body), i);
  }

  /**
   Blurring "Saldo Atual" of row `i` (on either page) sends nothing when the
   number is unchanged; otherwise it sets that row's balance, and only it.
   */
  lemma BalanceBlurPersists(db: Db, i: int, parsed: int)
    requires Valid(db) && 0 <= i < |db.materials|
    ensures var m := db.materials[i];
      match BalanceBlur(m, parsed)
      case None => parsed == m.currentBalance
      case Some(e) =>
        var req := MaterialRequest(e);
        var h := PatchMaterial(db, req.key, req.body);
        && req.body.Keys == {"currentBalance"}
        && h.response == Ok(m.(currentBalance := parsed))
        && h.db == db.(materials := db.materials[i := m.(currentBalance := parsed)])
  {
    var e := BalanceBlur(db.materials[i], parsed);
    if e.Some? {
      MaterialEditPersists(db, i, e.value, Cache({}));
    }
  }

  /** Blurring "Ponto Pedido" of row `i` sets that row's order point, and only it, iff the number changed. */
  lemma OrderPointBlurPersists(db: Db, i: int, parsed: int)
    requires Valid(db) && 0 <= i < |db.materials|
    ensures var m := db.materials[i];
      match OrderPointBlur(m, parsed)
      case None => parsed == m.orderPoint
      case Some(e) =>
        var req := MaterialRequest(e);
        var h := PatchMaterial(db, req.key, req.body);
        && req.body.Keys == {"orderPoint"}
        && h.response == Ok(m.(orderPoint := parsed))
        && h.db == db.(materials := db.materials[i := m.(orderPoint := parsed)])
  {
    var e := OrderPointBlur(db.materials[i], parsed);
    if e.Some? {
      MaterialEditPersists(db, i, e.value, Cache({}));
    }
  }

  /** A revenue edit addressed to row `i`'s month rewrites exactly the fields it carries on that row. */
  lemma RevenueEditPersists(db: Db, i: int, e: RevenueEdit, cache: Cache)
    requires Valid(db) && 0 <= i < |db.revenue| && e.month == db.revenue[i].month
    ensures var r := db.revenue[i];
      var r' := r.(revenue := e.revenue.GetOr(r.revenue), expenses := e.expenses.GetOr(r.expenses));
      var req := RevenueRequest(e);
      var h := PatchRevenue(db, req.key, req.body);
      && h.response == Ok(r')
      && h.db == db.(revenue := db.revenue[i := r'])
      && Valid(h.db)
      && AfterResponse(cache, RevenueList, StatusCode(h.response)).stale == cache.stale + {RevenueList}
  {
    RevenueBodyRoundTrip(e);
    OnlyRowWithMonth(db, i);
    var req := RevenueRequest(e);
    UpdateRevenueReturnsStoredRow(db, req.key, DecodeRevenuePatch(req.body), i);
  }

  /** Blurring "Entradas" of row `i` sets that month's revenue, and only it, iff the number changed. */
  lemma RevenueBlurPersists(db: Db, i: int, parsed: int)
    requires Valid(db) && 0 <= i < |db.revenue|
    ensures var r := db.revenue[i];
      match RevenueBlur(r, parsed)
      case None => parsed == r.revenue
      case Some(e) =>
        var req := RevenueRequest(e);
        var h := PatchRevenue(db, req.key, req.body);
        && req.body.Keys == {"revenue"}
        && h.response == Ok(r.(revenue := parsed))
        && h.db == db.(revenue := db.revenue[i := r.(revenue := parsed)])
  {
    var e := RevenueBlur(db.revenue[i], parsed);
    if e.Some? {
      RevenueEditPersists(db, i, e.value, Cache({}));
    }
  }

  /** Blurring "Saídas" of row `i` sets that month's expenses, and only it, iff the number changed. */
  lemma ExpensesBlurPersists(db: Db, i: int, parsed: int)
    requires Valid(db) && 0 <= i < |db.revenue|
    ensures var r := db.revenue[i];
      match ExpensesBlur(r, parsed)
      case None => parsed == r.expenses
      case Some(e) =>
        var req := RevenueRequest(e);
        var h := PatchRevenue(db, req.key, req.body);
        && req.body.Keys == {"expenses"}
        && h.response == Ok(r.(expenses := parsed))
        && h.db == db.(revenue := db.revenue[i := r.(expenses := parsed)])
  {
    var e := ExpensesBlur(db.revenue[i], parsed);
    if e.Some? {
      RevenueEditPersists(db, i, e.value, Cache({}));
    }
  }

  /** A stat edit addressed to row `i`'s label rewrites exactly the fields it carries on that card. */
  lemma StatEditPersists(db: Db, i: int, e: StatEdit, cache: Cache)
    requires Valid(db) && 0 <= i < |db.stats| && e.key == db.stats[i].cardLabel
    ensures var s := db.stats[i];
      var s' := s.(value := e.value.GetOr(s.value),
                   change := if e.change.Some? then e.change else s.change,
                   trend := e.trend.GetOr(s.trend));
      var req := StatRequest(e);
      var h := PatchStat(db, req.key, req.body);
      && h.response == Ok(s')
      && h.db == db.(stats := db.stats[i := s'])
      && Valid(h.db)
      && AfterResponse(cache, StatsList, StatusCode(h.response)).stale == cache.stale + {StatsList}
  {
    StatBodyRoundTrip(e);
    OnlyRowWithLabel(db, i);
    var req := StatRequest(e);
    UpdateStatReturnsStoredRow(db, req.key, DecodeStatPatch(req.body), i);
  }

  /** Blurring "Valor" of card `i` stores the new text, and only it, iff the text changed. */
  lemma ValueBlurPersists(db: Db, i: int, text: string)
    requires Valid(db) && 0 <= i < |db.stats|
    ensures var s := db.stats[i];
      match ValueBlur(s, text)
      case None => text == s.value
      case Some(e) =>
        var req := StatRequest(e);
        var h := PatchStat(db, req.key, req.body);
        && req.body.Keys == {"value"}
        && h.response == Ok(s.(value := text))
        && h.db == db.(stats := db.stats[i := s.(value := text)])
  {
    var e := ValueBlur(db.stats[i], text);
    if e.Some? {
      StatEditPersists(db, i, e.value, Cache({}));
    }
  }

  /** Blurring "%" of card `i` stores the number, and only it, iff it differs from the stored change. */
  lemma ChangeBlurPersists(db: Db, i: int, parsed: int)
    requires Valid(db) && 0 <= i < |db.stats|
    ensures var s := db.stats[i];
      match ChangeBlur(s, parsed)
      case None => s.change == Some(parsed)
      case Some(e) =>
        var req := StatRequest(e);
        var h := PatchStat(db, req.key, req.body);
        && req.body.Keys == {"change"}
        && h.response == Ok(s.(change := Some(parsed)))
        && h.db == db.(stats := db.stats[i := s.(change := Some(parsed))])
  {
    var e := ChangeBlur(db.stats[i], parsed);
    if e.Some? {
      StatEditPersists(db, i, e.value, Cache({}));
    }
  }

  /**
   Clicking trend button `b` of card `i` stores that button's trend and leaves
   the card's value and change as they were: the only trends ever stored this
   way are "up", "down" and "neutral".
   */
  lemma TrendClickPersists(db: Db, i: int, b: int)
    requires Valid(db) && 0 <= i < |db.stats| && 0 <= b < |TrendButtons|
    ensures var s := db.stats[i];
      var req := StatRequest(TrendClicks(s)[b]);
      var h := PatchStat(db, req.key, req.body);
      && req.body.Keys == {"trend"}
      && h.response == Ok(s.(trend := TrendButtons[b]))
      && h.response.body.value == s.value && h.response.body.change == s.change
      && h.response.body.trend in {"up", "down", "neutral"}
      && h.db == db.(stats := db.stats[i := s.(trend := TrendButtons[b])])
  {
    StatEditPersists(db, i, TrendClicks(db.stats[i])[b], Cache({}));
  }

  /**
   An edit whose key no longer names a row (the row was renamed since the list
   was fetched) is answered 404, writes nothing, and leaves the cache as it was.
   */
  lemma MaterialEditForMissingCode(db: Db, e: MaterialEdit, cache: Cache)
    requires forall j :: 0 <= j < |db.materials| ==> db.materials[j].code != e.code
    ensures var req := MaterialRequest(e);
      var h := PatchMaterial(db, req.key, req.body);
      && h.response == NotFound(MaterialNotFound)
      && h.db == db
      && AfterResponse(cache, MaterialsList, StatusCode(h.response)) == cache
  {
  }
}
