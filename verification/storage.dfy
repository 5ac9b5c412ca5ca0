/**
 The storage layer: three list operations ordered by surrogate id and three
 keyed partial updates returning the updated row or nothing. The database is
 a value; an update returns the new database alongside its result.
 */
module Storage {
  import opened Optional
  import opened Schema
  import opened KeyedTable

  datatype Db = Db(materials: seq<Material>, revenue: seq<Revenue>, stats: seq<Stat>)

  /** The result of an update: the database afterwards and the returned row (`undefined` when none). */
  datatype Write<R> = Write(db: Db, updated: Option<R>)

  /** Rows are held in ascending id order and every business key names one row. */
  predicate Valid(db: Db) {
    && AscendingIds(db.materials, MaterialId) && UniqueKeys(db.materials, MaterialCode)
    && AscendingIds(db.revenue, RevenueId) && UniqueKeys(db.revenue, RevenueMonth)
    && AscendingIds(db.stats, StatId) && UniqueKeys(db.stats, StatLabel)
  }

  /** `getMaterials`: every row, ascending by id. */
  function GetMaterials(db: Db): (r: seq<Material>)
    ensures |r| == |db.materials|
    ensures forall i :: 0 <= i < |r| ==> r[i] in db.materials
    ensures forall i :: 0 <= i < |db.materials| ==> db.materials[i] in r
    ensures Valid(db) ==> AscendingIds(r, MaterialId)
  {
    db.materials
  }

  /** `getRevenue`: every row, ascending by id. */
  function GetRevenue(db: Db): (r: seq<Revenue>)
    ensures |r| == |db.revenue|
    ensures forall i :: 0 <= i < |r| ==> r[i] in db.revenue
    ensures forall i :: 0 <= i < |db.revenue| ==> db.revenue[i] in r
    ensures Valid(db) ==> AscendingIds(r, RevenueId)
  {
    db.revenue
  }

  /** `getStats`: every row, ascending by id. */
  function GetStats(db: Db): (r: seq<Stat>)
    ensures |r| == |db.stats|
    ensures forall i :: 0 <= i < |r| ==> r[i] in db.stats
    ensures forall i :: 0 <= i < |db.stats| ==> db.stats[i] in r
    ensures Valid(db) ==> AscendingIds(r, StatId)
  {
    db.stats
  }

  /**
   `updateMaterial(code, data)`: merges `data` into the rows whose code is `code`,
   touches nothing else, and never inserts. The table stays valid when the
   patch carries no code or the code it is addressed by.
   */
  function UpdateMaterial(db: Db, code: string, data: MaterialPatch): (w: Write<Material>)
    ensures w.db.revenue == db.revenue && w.db.stats == db.stats
    ensures |w.db.materials| == |db.materials|
    ensures forall i :: 0 <= i < |db.materials| && db.materials[i].code != code ==>
              w.db.materials[i] == db.materials[i]
    ensures forall i :: 0 <= i < |db.materials| && db.materials[i].code == code ==>
              w.db.materials[i] == MergeMaterial(db.materials[i], data)
    ensures w.updated.None? <==> forall i :: 0 <= i < |db.materials| ==> db.materials[i].code != code
    ensures w.updated.None? ==> w.db == db
    ensures w.updated.Some? ==> w.updated.value in w.db.materials
    ensures Valid(db) && (data.code.None? || data.code == Some(code)) ==> Valid(w.db)
  {
    var o := UpdateReturning(db.materials, MaterialCode, code, MergeMaterial, data);
    assert Valid(db) && (data.code.None? || data.code == Some(code)) ==> Valid(db.(materials := o.rows)) by {
      if Valid(db) && (data.code.None? || data.code == Some(code)) {
        UpdateKeepsIdOrder(db.materials, MaterialId, MaterialCode, code, MergeMaterial, data);
        UpdateKeepsKeysUnique(db.materials, MaterialCode, code, MergeMaterial, data);
      }
    }
    Write(db.(materials := o.rows), o.returned)
  }

  /** `updateRevenue(month, data)`: the same keyed merge on the revenue table. */
  function UpdateRevenue(db: Db, month: string, data: RevenuePatch): (w: Write<Revenue>)
    ensures w.db.materials == db.materials && w.db.stats == db.stats
    ensures |w.db.revenue| == |db.revenue|
    ensures forall i :: 0 <= i < |db.revenue| && db.revenue[i].month != month ==>
              w.db.revenue[i] == db.revenue[i]
    ensures forall i :: 0 <= i < |db.revenue| && db.revenue[i].month == month ==>
              w.db.revenue[i] == MergeRevenue(db.revenue[i], data)
    ensures w.updated.None? <==> forall i :: 0 <= i < |db.revenue| ==> db.revenue[i].month != month
    ensures w.updated.None? ==> w.db == db
    ensures w.updated.Some? ==> w.updated.value in w.db.revenue
    ensures Valid(db) ==> Valid(w.db)
  {
    var o := UpdateReturning(db.revenue, RevenueMonth, month, MergeRevenue, data);
    assert Valid(db) ==> Valid(db.(revenue := o.rows)) by {
      if Valid(db) {
        UpdateKeepsIdOrder(db.revenue, RevenueId, RevenueMonth, month, MergeRevenue, data);
        UpdateKeepsKeysUnique(db.revenue, RevenueMonth, month, MergeRevenue, data);
      }
    }
    Write(db.(revenue := o.rows), o.returned)
  }

  /** `updateStat(label, data)`: the same keyed merge on the stats table. */
  function UpdateStat(db: Db, key: string, data: StatPatch): (w: Write<Stat>)
    ensures w.db.materials == db.materials && w.db.revenue == db.revenue
    ensures |w.db.stats| == |db.stats|
    ensures forall i :: 0 <= i < |db.stats| && db.stats[i].cardLabel != key ==>
              w.db.stats[i] == db.stats[i]
    ensures forall i :: 0 <= i < |db.stats| && db.stats[i].cardLabel == key ==>
              w.db.stats[i] == MergeStat(db.stats[i], data)
    ensures w.updated.None? <==> forall i :: 0 <= i < |db.stats| ==> db.stats[i].cardLabel != key
    ensures w.updated.None? ==> w.db == db
    ensures w.updated.Some? ==> w.updated.value in w.db.stats
    ensures Valid(db) ==> Valid(w.db)
  {
    var o := UpdateReturning(db.stats, StatLabel, key, MergeStat, data);
    assert Valid(db) ==> Valid(db.(stats := o.rows)) by {
      if Valid(db) {
        UpdateKeepsIdOrder(db.stats, StatId, StatLabel, key, MergeStat, data);
        UpdateKeepsKeysUnique(db.stats, StatLabel, key, MergeStat, data);
      }
    }
    Write(db.(stats := o.rows), o.returned)
  }

  /**
   Partial merge on a material: each column named in `data` takes the supplied
   value, each other column, the id included, keeps its old one.
   */
  lemma UpdateMaterialMergesOnlySuppliedFields(db: Db, code: string, data: MaterialPatch, i: int)
    requires 0 <= i < |db.materials| && db.materials[i].code == code
    ensures var before, after := db.materials[i], UpdateMaterial(db, code, data).db.materials[i];
      && after.id == before.id
      && (data.code.Some? ==> after.code == data.code.value)
      && (data.code.None? ==> after.code == before.code)
      && (data.description.Some? ==> after.description == data.description.value)
      && (data.description.None? ==> after.description == before.description)
      && (data.kind.Some? ==> after.kind == data.kind.value)
      && (data.kind.None? ==> after.kind == before.kind)
      && (data.currentBalance.Some? ==> after.currentBalance == data.currentBalance.value)
      && (data.currentBalance.None? ==> after.currentBalance == before.currentBalance)
      && (data.orderPoint.Some? ==> after.orderPoint == data.orderPoint.value)
      && (data.orderPoint.None? ==> after.orderPoint == before.orderPoint)
  {
  }

  /** Partial merge on a revenue row. */
  lemma UpdateRevenueMergesOnlySuppliedFields(db: Db, month: string, data: RevenuePatch, i: int)
    requires 0 <= i < |db.revenue| && db.revenue[i].month == month
    ensures var before, after := db.revenue[i], UpdateRevenue(db, month, data).db.revenue[i];
      && after.id == before.id && after.month == before.month
      && (data.revenue.Some? ==> after.revenue == data.revenue.value)
      && (data.revenue.None? ==> after.revenue == before.revenue)
      && (data.expenses.Some? ==> after.expenses == data.expenses.value)
      && (data.expenses.None? ==> after.expenses == before.expenses)
  {
  }

  /** Partial merge on a stat card. */
  lemma UpdateStatMergesOnlySuppliedFields(db: Db, key: string, data: StatPatch, i: int)
    requires 0 <= i < |db.stats| && db.stats[i].cardLabel == key
    ensures var before, after := db.stats[i], UpdateStat(db, key, data).db.stats[i];
      && after.id == before.id && after.cardLabel == before.cardLabel
      && (data.value.Some? ==> after.value == data.value.value)
      && (data.value.None? ==> after.value == before.value)
      && (data.change.Some? ==> after.change == data.change)
      && (data.change.None? ==> after.change == before.change)
      && (data.trend.Some? ==> after.trend == data.trend.value)
      && (data.trend.None? ==> after.trend == before.trend)
  {
  }

  /**
   In a valid table the returned row is the stored post-update row carrying the key.
   */
  lemma UpdateMaterialReturnsStoredRow(db: Db, code: string, data: MaterialPatch, i: int)
    requires Valid(db)
    requires 0 <= i < |db.materials| && db.materials[i].code == code
    ensures UpdateMaterial(db, code, data).updated == Some(UpdateMaterial(db, code, data).db.materials[i])
  {
    assert forall j :: 0 <= j < i ==> db.materials[j].code != code by {
      assert UniqueKeys(db.materials, MaterialCode);
    }
  }

  lemma UpdateRevenueReturnsStoredRow(db: Db, month: string, data: RevenuePatch, i: int)
    requires Valid(db)
    requires 0 <= i < |db.revenue| && db.revenue[i].month == month
    ensures UpdateRevenue(db, month, data).updated == Some(UpdateRevenue(db, month, data).db.revenue[i])
  {
    assert forall j :: 0 <= j < i ==> db.revenue[j].month != month by {
      assert UniqueKeys(db.revenue, RevenueMonth);
    }
  }

  lemma UpdateStatReturnsStoredRow(db: Db, key: string, data: StatPatch, i: int)
    requires Valid(db)
    requires 0 <= i < |db.stats| && db.stats[i].cardLabel == key
    ensures UpdateStat(db, key, data).updated == Some(UpdateStat(db, key, data).db.stats[i])
  {
    assert forall j :: 0 <= j < i ==> db.stats[j].cardLabel != key by {
      assert UniqueKeys(db.stats, StatLabel);
    }
  }

  /**
   Applying the same material update twice leaves the same database as applying
   it once; when the patch does not rename the key, the second call also
   returns the same row.
   */
  lemma UpdateMaterialIdempotent(db: Db, code: string, data: MaterialPatch)
    ensures var once := UpdateMaterial(db, code, data);
            var twice := UpdateMaterial(once.db, code, data);
            && twice.db == once.db
            && (data.code.None? || data.code == Some(code) ==> twice.updated == once.updated)
  {
    UpdateIdempotent(db.materials, MaterialCode, code, MergeMaterial, data);
    if data.code.None? || data.code == Some(code) {
      UpdateReturnsSameRowTwice(db.materials, MaterialCode, code, MergeMaterial, data);
    }
  }

  lemma UpdateRevenueIdempotent(db: Db, month: string, data: RevenuePatch)
    ensures var once := UpdateRevenue(db, month, data);
            var twice := UpdateRevenue(once.db, month, data);
            twice.db == once.db && twice.updated == once.updated
  {
    UpdateIdempotent(db.revenue, RevenueMonth, month, MergeRevenue, data);
    UpdateReturnsSameRowTwice(db.revenue, RevenueMonth, month, MergeRevenue, data);
  }

  lemma UpdateStatIdempotent(db: Db, key: string, data: StatPatch)
    ensures var once := UpdateStat(db, key, data);
            var twice := UpdateStat(once.db, key, data);
            twice.db == once.db && twice.updated == once.updated
  {
    UpdateIdempotent(db.stats, StatLabel, key, MergeStat, data);
    UpdateReturnsSameRowTwice(db.stats, StatLabel, key, MergeStat, data);
  }
}
