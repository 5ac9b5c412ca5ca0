/**
 What the pages' mutation functions send: the key goes in the URL path, the
 edited fields in a JSON body built with `JSON.stringify({ … })`, so a field
 left `undefined` by the caller is absent from the body. After a 2xx response
 the affected list is marked stale in the query cache.
 */
module Requests {
  import opened Optional
  import opened Json

  /** `Partial<Material>` as the pages pass it to `mutation.mutate`. */
  datatype MaterialEdit = MaterialEdit(code: string, currentBalance: Option<int>, orderPoint: Option<int>)

  /** `Partial<Revenue>` as passed to `revenueMutation.mutate`. */
  datatype RevenueEdit = RevenueEdit(month: string, revenue: Option<int>, expenses: Option<int>)

  /** `Partial<Stat>` as passed to `statsMutation.mutate`. */
  datatype StatEdit = StatEdit(key: string, value: Option<string>, change: Option<int>, trend: Option<string>)

  /** A PATCH request: the path key (before URL encoding) and the JSON body. */
  datatype Request = Request(key: string, body: Object)

  /** `fetch(`/api/materials/${code}`, { body: JSON.stringify({ currentBalance, orderPoint }) })`. */
  function MaterialRequest(e: MaterialEdit): (r: Request)
    ensures r.key == e.code
    ensures r.body.Keys <= {"currentBalance", "orderPoint"}
    ensures "currentBalance" in r.body <==> e.currentBalance.Some?
    ensures "orderPoint" in r.body <==> e.orderPoint.Some?
    ensures e.currentBalance.Some? ==> r.body["currentBalance"] == Num(e.currentBalance.value)
    ensures e.orderPoint.Some? ==> r.body["orderPoint"] == Num(e.orderPoint.value)
  {
    Request(e.code, Member("currentBalance", NumOf(e.currentBalance)) + Member("orderPoint", NumOf(e.orderPoint)))
  }

  /** `fetch(`/api/revenue/${month}`, { body: JSON.stringify({ revenue, expenses }) })`. */
  function RevenueRequest(e: RevenueEdit): (r: Request)
    ensures r.key == e.month
    ensures r.body.Keys <= {"revenue", "expenses"}
    ensures "revenue" in r.body <==> e.revenue.Some?
    ensures "expenses" in r.body <==> e.expenses.Some?
    ensures e.revenue.Some? ==> r.body["revenue"] == Num(e.revenue.value)
    ensures e.expenses.Some? ==> r.body["expenses"] == Num(e.expenses.value)
  {
    Request(e.month, Member("revenue", NumOf(e.revenue)) + Member("expenses", NumOf(e.expenses)))
  }

  /** `fetch(`/api/stats/${label}`, { body: JSON.stringify({ value, change, trend }) })`. */
  function StatRequest(e: StatEdit): (r: Request)
    ensures r.key == e.key
    ensures r.body.Keys <= {"value", "change", "trend"}
    ensures "value" in r.body <==> e.value.Some?
    ensures "change" in r.body <==> e.change.Some?
    ensures "trend" in r.body <==> e.trend.Some?
    ensures e.value.Some? ==> r.body["value"] == Str(e.value.value)
    ensures e.change.Some? ==> r.body["change"] == Num(e.change.value)
    ensures e.trend.Some? ==> r.body["trend"] == Str(e.trend.value)
  {
    Request(e.key, Member("value", StrOf(e.value)) + Member("change", NumOf(e.change)) + Member("trend", StrOf(e.trend)))
  }

  /** The query-cache keys of the three lists. */
  datatype ListKey = MaterialsList | RevenueList | StatsList

  /** The lists whose cached copy must be refetched before the next render. */
  datatype Cache = Cache(stale: set<ListKey>)

  /**
   A mutation's completion: `res.ok` (a 2xx status) runs `onSuccess`, which
   invalidates `list`; any other status throws and leaves the cache alone.
   */
  function AfterResponse(cache: Cache, list: ListKey, status: int): (c: Cache)
    ensures 200 <= status < 300 ==> c.stale == cache.stale + {list}
    ensures !(200 <= status < 300) ==> c == cache
  {
    if 200 <= status < 300 then Cache(cache.stale + {list}) else cache
  }
}
