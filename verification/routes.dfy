/**
 The HTTP layer: three GET pass-throughs and three PATCH handlers that hand the
 request body to storage and map "no row" to 404 with a message.
 */
module Routes {
  import opened Optional
  import opened Schema
  import opened Json
  import opened Storage
  import opened KeyedTable

  /** A response: 200 with a JSON body, or 404 with `{ message }`. */
  datatype Response<T> = Ok(body: T) | NotFound(message: string)

  /** The database after a request and the response sent. */
  datatype Handled<T> = Handled(db: Db, response: Response<T>)

  function StatusCode<T>(r: Response<T>): (code: int)
    ensures code == 200 || code == 404
    ensures code == 200 <==> r.Ok?
  {
    if r.Ok? then 200 else 404
  }

  const MaterialNotFound := "Material não encontrado"
  const MonthNotFound := "Mês não encontrado"
  const StatNotFound := "Stat não encontrado"

  /** `if (!data) return 404; res.json(data)`. */
  function Respond<T>(updated: Option<T>, message: string): (r: Response<T>)
    ensures r.NotFound? <==> updated.None?
    ensures r.NotFound? ==> r.message == message
    ensures r.Ok? ==> updated == Some(r.body)
  {
    if updated.None? then NotFound(message) else Ok(updated.value)
  }

  /**
   The storage patch the JSON body of `PATCH /api/materials/:code` denotes. Only the
   columns storage declares are read, with their declared types; the server itself
   passes the body on unvalidated.
   */
  function DecodeMaterialPatch(body: Object): MaterialPatch {
    MaterialPatch(
      StrField(body, "code"),
      StrField(body, "description"),
      StrField(body, "type"),
      NumField(body, "currentBalance"),
      NumField(body, "orderPoint"))
  }

  function DecodeRevenuePatch(body: Object): RevenuePatch {
    RevenuePatch(NumField(body, "revenue"), NumField(body, "expenses"))
  }

  function DecodeStatPatch(body: Object): StatPatch {
    StatPatch(StrField(body, "value"), NumField(body, "change"), StrField(body, "trend"))
  }

  /** `GET /api/materials`: the storage list, unfiltered and in storage order. */
  function ListMaterials(db: Db): (r: Response<seq<Material>>)
    ensures r.Ok? && StatusCode(r) == 200
    ensures r.body == db.materials
    ensures Valid(db) ==> AscendingIds(r.body, MaterialId)
  {
    Ok(GetMaterials(db))
  }

  /** `GET /api/revenue`: every stored month, unfiltered and in storage order. */
  function ListRevenue(db: Db): (r: Response<seq<Revenue>>)
    ensures r.Ok? && StatusCode(r) == 200
    ensures r.body == db.revenue
    ensures Valid(db) ==> AscendingIds(r.body, RevenueId)
  {
    Ok(GetRevenue(db))
  }

  /** `GET /api/stats`: every stored card, unfiltered and in storage order. */
  function ListStats(db: Db): (r: Response<seq<Stat>>)
    ensures r.Ok? && StatusCode(r) == 200
    ensures r.body == db.stats
    ensures Valid(db) ==> AscendingIds(r.body, StatId)
  {
    Ok(GetStats(db))
  }

  /** `PATCH /api/materials/:code`. */
  function PatchMaterial(db: Db, code: string, body: Object): (h: Handled<Material>)
    ensures h.response.NotFound? <==> forall i :: 0 <= i < |db.materials| ==> db.materials[i].code != code
    ensures h.response.NotFound? ==> h.db == db && h.response.message == MaterialNotFound
    ensures h.response.Ok? ==> UpdateMaterial(db, code, DecodeMaterialPatch(body)) == Write(h.db, Some(h.response.body))
  {
    var w := UpdateMaterial(db, code, DecodeMaterialPatch(body));
    Handled(w.db, Respond(w.updated, MaterialNotFound))
  }

  /** `PATCH /api/revenue/:month`. */
  function PatchRevenue(db: Db, month: string, body: Object): (h: Handled<Revenue>)
    ensures h.response.NotFound? <==> forall i :: 0 <= i < |db.revenue| ==> db.revenue[i].month != month
    ensures h.response.NotFound? ==> h.db == db && h.response.message == MonthNotFound
    ensures h.response.Ok? ==> UpdateRevenue(db, month, DecodeRevenuePatch(body)) == Write(h.db, Some(h.response.body))
  {
    var w := UpdateRevenue(db, month, DecodeRevenuePatch(body));
    Handled(w.db, Respond(w.updated, MonthNotFound))
  }

  /** `PATCH /api/stats/:label`. */
  function PatchStat(db: Db, key: string, body: Object): (h: Handled<Stat>)
    ensures h.response.NotFound? <==> forall i :: 0 <= i < |db.stats| ==> db.stats[i].cardLabel != key
    ensures h.response.NotFound? ==> h.db == db && h.response.message == StatNotFound
    ensures h.response.Ok? ==> UpdateStat(db, key, DecodeStatPatch(body)) == Write(h.db, Some(h.response.body))
  {
    var w := UpdateStat(db, key, DecodeStatPatch(body));
    Handled(w.db, Respond(w.updated, StatNotFound))
  }

  /** A request that finds no row writes nothing, so the next GET returns what the previous one did. */
  lemma NotFoundPatchKeepsListings(db: Db, code: string, body: Object)
    requires forall i :: 0 <= i < |db.materials| ==> db.materials[i].code != code
    ensures var h := PatchMaterial(db, code, body);
      && StatusCode(h.response) == 404
      && ListMaterials(h.db) == ListMaterials(db)
      && ListRevenue(h.db) == ListRevenue(db)
      && ListStats(h.db) == ListStats(db)
  {
  }
}
