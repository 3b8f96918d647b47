/** The catalog side of the data manager: the id backfill applied to every catalog loaded
    from JSON, and the lookup of a laptop by id. Reading and writing files is not part of this
    model: the catalog is given, and the fresh ids `uuid.uuid4()` would produce are given as
    a function of the laptop's position. */
module DataManager {
  import opened Wrappers
  import opened Models

  /** The catalog after the backfill: a laptop without an id gets the fresh id of its
      position, every other laptop stays as it is. */
  function Backfilled(catalog: seq<Laptop>, freshId: nat -> string): (r: seq<Laptop>)
    ensures |r| == |catalog|
  {
    seq(|catalog|, k requires 0 <= k < |catalog| =>
      if catalog[k].id.None? then catalog[k].(id := Some(freshId(k))) else catalog[k])
  }

  /** After the backfill every laptop has an id; a laptop that had one keeps it and is
      unchanged; a laptop that had none differs only in its id. */
  lemma BackfillGivesEveryId(catalog: seq<Laptop>, freshId: nat -> string)
    ensures forall k :: 0 <= k < |catalog| ==> Backfilled(catalog, freshId)[k].id.Some?
    ensures forall k :: 0 <= k < |catalog| && catalog[k].id.Some? ==> Backfilled(catalog, freshId)[k] == catalog[k]
    ensures forall k :: 0 <= k < |catalog| ==>
              Backfilled(catalog, freshId)[k].(id := catalog[k].id) == catalog[k]
  {
  }

  /** Backfilling a catalog that already went through the backfill changes nothing, whatever
      fresh ids are offered. */
  lemma BackfillIdempotent(catalog: seq<Laptop>, freshId: nat -> string, otherIds: nat -> string)
    ensures Backfilled(Backfilled(catalog, freshId), otherIds) == Backfilled(catalog, freshId)
  {
  }

  /** The loop of `_load_from_json` that adds the missing ids, in place. */
  method BackfillIds(data: array<Laptop>, freshId: nat -> string)
    modifies data
    ensures data[..] == Backfilled(old(data[..]), freshId)
  {
    for k := 0 to data.Length
      invariant data[..k] == Backfilled(old(data[..]), freshId)[..k]
      invariant data[k..] == old(data[k..])
    {
      if data[k].id.None? {
        data[k] := data[k].(id := Some(freshId(k)));
      }
    }
  }

  /** `get_laptop_by_id`: the first laptop in catalog order whose id is `laptopId`, or none
      when no laptop has that id. */
  method GetLaptopById(catalog: seq<Laptop>, laptopId: string) returns (r: Option<Laptop>)
    ensures r.Some? ==> exists k :: 0 <= k < |catalog| && catalog[k] == r.value
                                    && (forall j :: 0 <= j < k ==> catalog[j].id != Some(laptopId))
    ensures r.Some? ==> r.value.id == Some(laptopId)
    ensures r.None? <==> forall k :: 0 <= k < |catalog| ==> catalog[k].id != Some(laptopId)
  {
    for k := 0 to |catalog|
      invariant forall j :: 0 <= j < k ==> catalog[j].id != Some(laptopId)
    {
      if catalog[k].id == Some(laptopId) {
        return Some(catalog[k]);
      }
    }
    return None;
  }
}
