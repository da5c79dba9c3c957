/**
 * The `plants` table (lib/plantRepository.ts over the schema of lib/db.ts),
 * held in memory: rows keyed by id, and the AUTOINCREMENT counter, which
 * keeps the next id to issue so that no id is ever issued twice, even after
 * a delete. Timestamps are epoch milliseconds rather than ISO strings.
 */
module PlantRepository {
  import opened Options

  /** `Plant`: one row of the table. */
  datatype Plant = Plant(
    id: int,
    name: string,
    photoUri: Option<string>,
    waterEveryDays: real,
    lastWateredAt: int,
    notes: Option<string>)

  /** `Omit<Plant, 'id'>`: the columns `createPlant` inserts. */
  datatype PlantFields = PlantFields(
    name: string,
    photoUri: Option<string>,
    waterEveryDays: real,
    lastWateredAt: int,
    notes: Option<string>)

  /** The row that inserting `f` under `id` produces. */
  function WithId(id: int, f: PlantFields): Plant {
    Plant(id, f.name, f.photoUri, f.waterEveryDays, f.lastWateredAt, f.notes)
  }

  /** Ids strictly decrease along the sequence. */
  predicate IdsDescending(ps: seq<Plant>) {
    forall i, j :: 0 <= i < j < |ps| ==> ps[i].id > ps[j].id
  }

  class PlantTable {
    var rows: map<int, Plant>
    var nextId: int

    /** Every row sits under its own id, and every id is one the counter has already issued. */
    ghost predicate Valid()
      reads this
    {
      nextId >= 1 &&
      forall id :: id in rows ==> 1 <= id < nextId && rows[id].id == id
    }

    /** A new, empty table: AUTOINCREMENT starts at 1. */
    constructor ()
      ensures Valid() && rows == map[] && nextId == 1
    {
      rows := map[];
      nextId := 1;
    }

    /** The rows whose ids lie in 1..k, from the largest id down. */
    function RowsDownFrom(k: int): (ps: seq<Plant>)
      reads this
      requires Valid()
      ensures IdsDescending(ps)
      ensures forall i :: 0 <= i < |ps| ==> 1 <= ps[i].id <= k && ps[i].id in rows && rows[ps[i].id] == ps[i]
      decreases k
    {
      if k < 1 then []
      else
        var rest := RowsDownFrom(k - 1);
        if k in rows then
          var ps := [rows[k]] + rest;
          assert forall i :: 1 <= i < |ps| ==> ps[i] == rest[i - 1];
          ps
        else rest
    }

    /** No row with an id in 1..k is missing from `RowsDownFrom(k)`. */
    lemma {:induction false} RowsDownFromComplete(k: int)
      requires Valid()
      ensures forall id :: 1 <= id <= k && id in rows ==> rows[id] in RowsDownFrom(k)
      decreases k
    {
      if k >= 1 {
        RowsDownFromComplete(k - 1);
        var rest := RowsDownFrom(k - 1);
        forall id | 1 <= id <= k && id in rows
          ensures rows[id] in RowsDownFrom(k)
        {
          if id < k {
            assert rows[id] in rest;
          }
        }
      }
    }

    /** `getAllPlants`: `SELECT * FROM plants ORDER BY id DESC`. */
    function GetAllPlants(): (ps: seq<Plant>)
      reads this
      requires Valid()
      ensures IdsDescending(ps)
      ensures forall p :: p in ps <==> p.id in rows && rows[p.id] == p
      ensures |ps| == |rows|
    {
      var ps := RowsDownFrom(nextId - 1);
      RowsDownFromComplete(nextId - 1);
      DistinctIdsCount(ps);
      ps
    }

    /** Descending ids are distinct, so the listing has exactly one entry per row. */
    lemma DistinctIdsCount(ps: seq<Plant>)
      requires Valid()
      requires IdsDescending(ps)
      requires forall p :: p in ps <==> p.id in rows && rows[p.id] == p
      ensures |ps| == |rows|
    {
      var ids := set p | p in ps :: p.id;
      forall id | id in rows ensures id in ids {
        assert rows[id] in ps && rows[id].id == id;
      }
      assert ids == rows.Keys;
      IdsCount(ps);
    }

    /** `getPlantById`: `SELECT * FROM plants WHERE id = ?`, or null. */
    function GetPlantById(id: int): (r: Option<Plant>)
      reads this
      requires Valid()
      ensures r.Some? <==> id in rows
      ensures r.Some? ==> r.value.id == id && r.value in GetAllPlants()
    {
      if id in rows then Some(rows[id]) else None
    }

    /** `createPlant`: one new row under a fresh id, larger than every id issued so far. */
    method CreatePlant(data: PlantFields)
      requires Valid()
      modifies this
      ensures Valid()
      ensures nextId == old(nextId) + 1
      ensures rows == old(rows)[old(nextId) := WithId(old(nextId), data)]
      ensures old(nextId) !in old(rows) && forall id :: id in old(rows) ==> id < old(nextId)
    {
      rows := rows[nextId := WithId(nextId, data)];
      nextId := nextId + 1;
    }

    /** `updatePlant`: rewrites the five columns of the row with `data.id`, if there is one. */
    method UpdatePlant(data: Plant)
      requires Valid()
      modifies this
      ensures Valid() && nextId == old(nextId)
      ensures rows.Keys == old(rows).Keys
      ensures data.id in old(rows) ==> rows == old(rows)[data.id := data]
      ensures data.id !in old(rows) ==> rows == old(rows)
      ensures forall id :: id in rows ==> rows[id].id == old(rows)[id].id
    {
      if data.id in rows {
        rows := rows[data.id := data];
      }
    }

    /** `markWateredNow`: sets `lastWateredAt` of that row to `now`; nothing else changes. */
    method MarkWateredNow(id: int, now: int)
      requires Valid()
      modifies this
      ensures Valid() && nextId == old(nextId)
      ensures id in old(rows) ==> rows == old(rows)[id := old(rows)[id].(lastWateredAt := now)]
      ensures id !in old(rows) ==> rows == old(rows)
    {
      if id in rows {
        rows := rows[id := rows[id].(lastWateredAt := now)];
      }
    }

    /** `deletePlant`: removes the row with that id, if any; the counter keeps its value. */
    method DeletePlant(id: int)
      requires Valid()
      modifies this
      ensures Valid() && nextId == old(nextId)
      ensures rows == old(rows) - {id}
    {
      rows := rows - {id};
    }
  }

  /** A sequence with strictly descending ids has as many entries as distinct ids. */
  lemma {:induction false} IdsCount(ps: seq<Plant>)
    requires IdsDescending(ps)
    ensures |set p | p in ps :: p.id| == |ps|
  {
    if ps != [] {
      var tail := ps[1..];
      IdsCount(tail);
      var ids := set p | p in ps :: p.id;
      var tailIds := set p | p in tail :: p.id;
      assert ids == tailIds + {ps[0].id};
      assert ps[0].id !in tailIds;
    }
  }
}
