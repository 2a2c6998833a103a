/** Range PDFs: product-range brochures whose file lives in file storage. Rows are created,
    updated and deleted, so the table is a map from id to row; storage is the set of stored
    file ids. */
module RangePdfs {
  import opened Common
  import opened MediaCache

  type RangeId = nat

  const DEFAULT_CATEGORY := "DIVISION"
  const NOT_FOUND := "Range PDF not found"

  datatype RangePdf = RangePdf(name: string, division: Option<string>, category: string, storageId: StorageId)

  /** `category || "DIVISION"`. */
  function CategoryOrDefault(category: Option<string>): (c: string)
    ensures c != ""
    ensures category.Some? && category.value != "" ==> c == category.value
    ensures category.None? || category.value == "" ==> c == DEFAULT_CATEGORY
  {
    if category.Some? && category.value != "" then category.value else DEFAULT_CATEGORY
  }

  /** The patch of `updateRangePdf`. A `division` that is not given is written as absent, so
      it clears the stored one; a `storageId` that is not given keeps the stored file. */
  function Updated(r: RangePdf, name: string, division: Option<string>, category: Option<string>,
                   storageId: Option<StorageId>): (u: RangePdf)
    ensures u.name == name && u.division == division && u.category == CategoryOrDefault(category)
    ensures u.storageId == if storageId.Some? then storageId.value else r.storageId
  {
    var patched := r.(name := name, division := division, category := CategoryOrDefault(category));
    if storageId.Some? then patched.(storageId := storageId.value) else patched
  }

  class RangePdfStore {
    var rows: map<RangeId, RangePdf>
    var storage: set<StorageId>
    var nextId: RangeId

    /** Ids are handed out in increasing order and never reused. */
    predicate Valid()
      reads this
    {
      forall id :: id in rows ==> id < nextId
    }

    constructor ()
      ensures Valid() && rows == map[] && storage == {}
    {
      rows := map[];
      storage := {};
      nextId := 0;
    }

    /** `createRangePdf`. */
    method CreateRangePdf(name: string, division: Option<string>, category: Option<string>, storageId: StorageId)
      returns (id: RangeId)
      requires Valid()
      modifies this
      ensures Valid() && id !in old(rows) && storage == old(storage)
      ensures rows == old(rows)[id := RangePdf(name, division, CategoryOrDefault(category), storageId)]
    {
      id := nextId;
      rows := rows[id := RangePdf(name, division, CategoryOrDefault(category), storageId)];
      nextId := nextId + 1;
    }

    /** `deleteRangePdf`: the stored file goes first, then the row. */
    method DeleteRangePdf(id: RangeId) returns (error: Option<string>)
      requires Valid()
      modifies this
      ensures Valid() && nextId == old(nextId)
      ensures error.Some? <==> id !in old(rows)
      ensures error.Some? ==> error.value == NOT_FOUND && rows == old(rows) && storage == old(storage)
      ensures error.None? ==> rows == old(rows) - {id} && storage == old(storage) - {old(rows)[id].storageId}
    {
      if id !in rows {
        return Some(NOT_FOUND);
      }
      var rangePdf := rows[id];
      storage := storage - {rangePdf.storageId};
      rows := rows - {id};
      error := None;
    }

    /** `updateRangePdf`: replacing the file leaves the old one in storage. */
    method UpdateRangePdf(id: RangeId, name: string, division: Option<string>, category: Option<string>,
                          storageId: Option<StorageId>) returns (error: Option<string>)
      requires Valid()
      modifies this
      ensures Valid() && storage == old(storage) && nextId == old(nextId)
      ensures error.Some? <==> id !in old(rows)
      ensures error.Some? ==> error.value == NOT_FOUND && rows == old(rows)
      ensures error.None? ==> rows == old(rows)[id := Updated(old(rows)[id], name, division, category, storageId)]
    {
      if id !in rows {
        return Some(NOT_FOUND);
      }
      var updates := rows[id].(name := name, division := division, category := CategoryOrDefault(category));
      if storageId.Some? {
        updates := updates.(storageId := storageId.value);
      }
      rows := rows[id := updates];
      error := None;
    }
  }
}
