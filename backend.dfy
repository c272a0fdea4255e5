/**
 * The backend's in-memory bin table (`bins_db`) and the endpoints that update
 * and read it. Python floats are reals here; `int(...)` truncates toward zero.
 * The table is a map from bin id to record together with the order its keys
 * were inserted in, which is the order `bins_db.values()` yields them.
 */
module Backend {
  import opened Wrappers

  datatype BinRecord = BinRecord(
    id: string,
    kind: string,
    weight: real,
    level: int,
    full: bool,
    lastUpdate: Option<string>)

  /** The body of `/api/bins/update` (the `BinUpdate` model). */
  datatype BinUpdate = BinUpdate(
    organicId: string,
    nonOrganicId: string,
    organicWeight: real,
    nonOrganicWeight: real,
    organicFull: bool,
    nonOrganicFull: bool,
    timestamp: Option<int>)

  /** What `/api/stats` reports, before `round`. */
  datatype Statistics = Statistics(totalBins: nat, fullBins: nat, totalWeight: real, averageLevel: real)

  type Table = map<string, BinRecord>

  const ORGANIC_KEY: string := "0x001"
  const NON_ORGANIC_KEY: string := "0x002"

  /** The table `bins_db` starts with: both compartments empty and never updated. */
  const INITIAL_BINS: Table := map[
    ORGANIC_KEY := BinRecord(ORGANIC_KEY, "organic", 0.0, 0, false, None),
    NON_ORGANIC_KEY := BinRecord(NON_ORGANIC_KEY, "non_organic", 0.0, 0, false, None)]

  /** Python's `int()` on a float: truncation toward zero. */
  function Trunc(x: real): (n: int)
    ensures 0.0 <= x ==> 0 <= n && n as real <= x < n as real + 1.0
    ensures x < 0.0 ==> n <= 0 && n as real - 1.0 < x <= n as real
  {
    if x >= 0.0 then x.Floor else -((-x).Floor)
  }

  /** `int((weight / 10.0) * 100)`: the whole percentage of a 10 kg compartment. */
  function LevelFromWeight(weight: real): (level: int)
    ensures 0.0 <= weight <= 10.0 ==> 0 <= level <= 100
    ensures 0.0 <= weight ==> level as real <= weight * 10.0 < level as real + 1.0
  {
    Trunc((weight / 10.0) * 100.0)
  }

  /**
   * One `if id in bins_db` block of `update_bins`: a known entry takes the new
   * weight, its level and the full flag; an unknown id is ignored. Keys, ids
   * and kinds never change, and no other entry does.
   */
  function UpdateEntry(db: Table, id: string, weight: real, full: bool, now: string): (r: Table)
    ensures r.Keys == db.Keys
    ensures id !in db ==> r == db
    ensures id in db ==> r[id].weight == weight && r[id].full == full
                         && r[id].level == LevelFromWeight(weight) && r[id].lastUpdate == Some(now)
    ensures forall k :: k in db ==> r[k].id == db[k].id && r[k].kind == db[k].kind
    ensures forall k :: k in db && k != id ==> r[k] == db[k]
  {
    if id in db then
      db[id := db[id].(weight := weight, level := LevelFromWeight(weight), full := full, lastUpdate := Some(now))]
    else
      db
  }

  /**
   * `update_bins`: the organic entry, then the non-organic one (which wins when
   * both ids name the same entry). The key set never grows.
   */
  function ApplyUpdate(db: Table, u: BinUpdate, now: string): (r: Table)
    ensures r.Keys == db.Keys
    ensures forall k :: k in db ==> r[k].id == db[k].id && r[k].kind == db[k].kind
    ensures forall k :: k in db && k != u.organicId && k != u.nonOrganicId ==> r[k] == db[k]
    ensures u.nonOrganicId in db ==> r[u.nonOrganicId].weight == u.nonOrganicWeight
                                     && r[u.nonOrganicId].full == u.nonOrganicFull
                                     && r[u.nonOrganicId].level == LevelFromWeight(u.nonOrganicWeight)
                                     && r[u.nonOrganicId].lastUpdate == Some(now)
    ensures u.organicId in db && u.organicId != u.nonOrganicId ==>
              && r[u.organicId].weight == u.organicWeight && r[u.organicId].full == u.organicFull
              && r[u.organicId].level == LevelFromWeight(u.organicWeight)
              && r[u.organicId].lastUpdate == Some(now)
    ensures u.organicId !in db && u.nonOrganicId !in db ==> r == db
  {
    var db1 := UpdateEntry(db, u.organicId, u.organicWeight, u.organicFull, now);
    UpdateEntry(db1, u.nonOrganicId, u.nonOrganicWeight, u.nonOrganicFull, now)
  }

  /**
   * `reset_bin`: 404 for an unknown id; otherwise the entry is emptied (weight
   * 0.0, level 0, not full) and no other entry changes.
   */
  function ResetEntry(db: Table, id: string, now: string): (r: Result<Table, int>)
    ensures r.Err? <==> id !in db
    ensures r.Err? ==> r.error == 404
    ensures r.Ok? ==> r.value.Keys == db.Keys
    ensures r.Ok? ==> r.value[id].weight == 0.0 && r.value[id].level == 0 && !r.value[id].full
                      && r.value[id].id == db[id].id && r.value[id].kind == db[id].kind
    ensures r.Ok? ==> forall k :: k in db && k != id ==> r.value[k] == db[k]
  {
    if id !in db then
      Err(404)
    else
      Ok(db[id := db[id].(weight := 0.0, level := 0, full := false, lastUpdate := Some(now))])
  }

  // ------------------------------------------------- sums over bins_db.values()

  predicate Distinct(keys: seq<string>)
  {
    forall i, j :: 0 <= i < j < |keys| ==> keys[i] != keys[j]
  }

  function KeySet(keys: seq<string>): set<string>
  {
    set k | k in keys
  }

  /** `sum(bin["weight"] for bin in ...)` over the entries named by `keys`, in order. */
  function TotalWeight(keys: seq<string>, db: Table): (total: real)
    requires forall k :: k in keys ==> k in db
    ensures (forall k :: k in keys ==> 0.0 <= db[k].weight) ==> 0.0 <= total
  {
    if keys == [] then 0.0
    else TotalWeight(keys[..|keys| - 1], db) + db[keys[|keys| - 1]].weight
  }

  /** `sum(1 for bin in ... if bin["full"])`. */
  function FullCount(keys: seq<string>, db: Table): (count: nat)
    requires forall k :: k in keys ==> k in db
    ensures count == 0 <==> forall k :: k in keys ==> !db[k].full
  {
    if keys == [] then 0
    else FullCount(keys[..|keys| - 1], db) + (if db[keys[|keys| - 1]].full then 1 else 0)
  }

  /** `sum(bin["level"] for bin in ...)`. */
  function LevelSum(keys: seq<string>, db: Table): (sum: int)
    requires forall k :: k in keys ==> k in db
    ensures (forall k :: k in keys ==> 0 <= db[k].level <= 100) ==> 0 <= sum <= 100 * |keys|
  {
    if keys == [] then 0
    else LevelSum(keys[..|keys| - 1], db) + db[keys[|keys| - 1]].level
  }

  /** Distinct keys name as many entries as there are keys. */
  lemma {:induction false} DistinctCardinality(keys: seq<string>)
    requires Distinct(keys)
    ensures |KeySet(keys)| == |keys|
  {
    if keys != [] {
      var init := keys[..|keys| - 1];
      var last := keys[|keys| - 1];
      DistinctCardinality(init);
      assert KeySet(keys) == KeySet(init) + {last};
      assert last !in KeySet(init);
    }
  }

  /** At most every bin is full. */
  lemma {:induction false} FullCountAtMostCount(keys: seq<string>, db: Table)
    requires forall k :: k in keys ==> k in db
    ensures FullCount(keys, db) <= |keys|
  {
    if keys != [] {
      FullCountAtMostCount(keys[..|keys| - 1], db);
    }
  }

  /** Resetting one bin takes exactly its weight off the total and its flag off the full count. */
  lemma {:induction false} ResetLowersTotals(keys: seq<string>, db: Table, id: string, now: string)
    requires forall k :: k in keys ==> k in db
    requires Distinct(keys) && id in keys
    ensures ResetEntry(db, id, now).Ok?
    ensures var r := ResetEntry(db, id, now).value;
            && TotalWeight(keys, r) == TotalWeight(keys, db) - db[id].weight
            && FullCount(keys, r) == FullCount(keys, db) - (if db[id].full then 1 else 0)
            && LevelSum(keys, r) == LevelSum(keys, db) - db[id].level
  {
    var r := ResetEntry(db, id, now).value;
    var init := keys[..|keys| - 1];
    var last := keys[|keys| - 1];
    if last == id {
      assert id !in init by {
        forall i | 0 <= i < |init| ensures init[i] != id {
          assert keys[i] != keys[|keys| - 1];
        }
      }
      SumsIgnoreOtherEntries(init, db, r, id);
    } else {
      assert id in init by {
        var i :| 0 <= i < |keys| && keys[i] == id;
        assert i < |keys| - 1;
        assert init[i] == id;
      }
      ResetLowersTotals(init, db, id, now);
    }
  }

  /** The sums over keys that do not include `id` do not see a change to entry `id`. */
  lemma {:induction false} SumsIgnoreOtherEntries(keys: seq<string>, db: Table, db': Table, id: string)
    requires forall k :: k in keys ==> k in db && k in db' && k != id && db'[k] == db[k]
    ensures TotalWeight(keys, db') == TotalWeight(keys, db)
    ensures FullCount(keys, db') == FullCount(keys, db)
    ensures LevelSum(keys, db') == LevelSum(keys, db)
  {
    if keys != [] {
      SumsIgnoreOtherEntries(keys[..|keys| - 1], db, db', id);
    }
  }

  // ------------------------------------------------------------------ the table

  class BinStore {
    var bins: Table
    /** The insertion order of `bins_db`'s keys. */
    const order: seq<string>

    /**
     * The keys are exactly the ordered ones, each once; every record's `id`
     * is its key and its kind is one of the two compartments.
     */
    ghost predicate Valid()
      reads this
    {
      && Distinct(order)
      && KeySet(order) == bins.Keys
      && (forall k :: k in bins ==> bins[k].id == k)
      && (forall k :: k in bins ==> bins[k].kind == "organic" || bins[k].kind == "non_organic")
    }

    /** The two entries `bins_db` starts with. */
    constructor ()
      ensures Valid()
      ensures bins == INITIAL_BINS
      ensures order == [ORGANIC_KEY, NON_ORGANIC_KEY]
      ensures bins[ORGANIC_KEY] == BinRecord(ORGANIC_KEY, "organic", 0.0, 0, false, None)
      ensures bins[NON_ORGANIC_KEY] == BinRecord(NON_ORGANIC_KEY, "non_organic", 0.0, 0, false, None)
    {
      bins := INITIAL_BINS;
      order := [ORGANIC_KEY, NON_ORGANIC_KEY];
    }

    /** `update_bins`; `now` stands for `datetime.now().isoformat()`. */
    method UpdateBins(u: BinUpdate, now: string)
      requires Valid()
      modifies this
      ensures Valid()
      ensures bins == ApplyUpdate(old(bins), u, now)
    {
      if u.organicId in bins {
        bins := bins[u.organicId := bins[u.organicId].(
          weight := u.organicWeight,
          level := LevelFromWeight(u.organicWeight),
          full := u.organicFull,
          lastUpdate := Some(now))];
      }
      if u.nonOrganicId in bins {
        bins := bins[u.nonOrganicId := bins[u.nonOrganicId].(
          weight := u.nonOrganicWeight,
          level := LevelFromWeight(u.nonOrganicWeight),
          full := u.nonOrganicFull,
          lastUpdate := Some(now))];
      }
    }

    /** `reset_bin`: the HTTP status it answers with. */
    method ResetBin(id: string, now: string) returns (status: int)
      requires Valid()
      modifies this
      ensures Valid()
      ensures var r := ResetEntry(old(bins), id, now);
              && (r.Err? ==> bins == old(bins) && status == r.error)
              && (r.Ok? ==> bins == r.value && status == 200)
    {
      if id !in bins {
        return 404;
      }
      bins := bins[id := bins[id].(weight := 0.0, level := 0, full := false, lastUpdate := Some(now))];
      status := 200;
    }

    /** `get_bin_status`: the stored record, whose id is the one asked for, or 404. */
    function GetBinStatus(id: string): (r: Result<BinRecord, int>)
      reads this
      requires Valid()
      ensures r.Ok? <==> id in bins
      ensures r.Ok? ==> r.value == bins[id] && r.value.id == id
      ensures r.Err? ==> r.error == 404
    {
      if id !in bins then Err(404) else Ok(bins[id])
    }

    /** `get_all_bins`: every record once, in insertion order. */
    function GetAllBins(): (r: seq<BinRecord>)
      reads this
      requires Valid()
      ensures |r| == |order| == |bins|
      ensures forall i :: 0 <= i < |r| ==> order[i] in bins && r[i] == bins[order[i]] && r[i].id == order[i]
    {
      DistinctCardinality(order);
      var b := bins;
      assert forall i :: 0 <= i < |order| ==> order[i] in KeySet(order);
      seq(|order|, i requires 0 <= i < |order| && order[i] in b => b[order[i]])
    }

    /**
     * `get_statistics`: the number of bins, how many are full (never more than
     * the number of bins), the total weight and the mean level; an empty table
     * would divide by zero, which the endpoint answers with 500.
     */
    method GetStatistics() returns (r: Result<Statistics, int>)
      requires Valid()
      ensures |bins| == 0 ==> r == Err(500)
      ensures |bins| > 0 ==> r.Ok?
      ensures r.Ok? ==>
                && r.value.totalBins == |bins|
                && r.value.fullBins <= r.value.totalBins
                && r.value.fullBins == FullCount(order, bins)
                && r.value.totalWeight == TotalWeight(order, bins)
                && r.value.averageLevel == LevelSum(order, bins) as real / |bins| as real
    {
      var totalWeight := 0.0;
      var fullBins := 0;
      var levelSum := 0;
      for i := 0 to |order|
        invariant totalWeight == TotalWeight(order[..i], bins)
        invariant fullBins == FullCount(order[..i], bins)
        invariant levelSum == LevelSum(order[..i], bins)
      {
        var record := bins[order[i]];
        assert order[..i + 1][..i] == order[..i];
        totalWeight := totalWeight + record.weight;
        fullBins := fullBins + (if record.full then 1 else 0);
        levelSum := levelSum + record.level;
      }
      assert order[..|order|] == order;
      DistinctCardinality(order);
      FullCountAtMostCount(order, bins);
      if |bins| == 0 {
        return Err(500);
      }
      r := Ok(Statistics(|bins|, fullBins, totalWeight, levelSum as real / |bins| as real));
    }
  }
}
