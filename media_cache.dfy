/** The `whatsappMediaCache` table: for a stored file, the media handle WhatsApp issued
    when the file was last uploaded, so that a resend can skip the upload. The table is
    searched through its `by_storageId` index and `.first()`, i.e. the earliest row for
    that storage id. */
module MediaCache {
  import opened Common

  type StorageId = nat

  /** One row; `rowId` is the row's `_id`, which a patch keeps. */
  datatype CacheEntry = CacheEntry(
    rowId: nat,
    storageId: StorageId,
    mediaId: string,
    mimeType: string,
    fileName: Option<string>,
    createdAt: int)

  /** The index of the first row for `s`. */
  function Find(rows: seq<CacheEntry>, s: StorageId): (r: Option<nat>)
    ensures r.Some? ==> r.value < |rows| && rows[r.value].storageId == s
    ensures r.Some? ==> forall k :: 0 <= k < r.value ==> rows[k].storageId != s
    ensures r.None? <==> forall k :: 0 <= k < |rows| ==> rows[k].storageId != s
  {
    if rows == [] then None
    else if rows[0].storageId == s then Some(0)
    else match Find(rows[1..], s)
      case None => None
      case Some(k) => Some(k + 1)
  }

  /** The first row for `s`, as the entry itself. */
  function Lookup(rows: seq<CacheEntry>, s: StorageId): (r: Option<CacheEntry>)
    ensures r.Some? <==> exists k :: 0 <= k < |rows| && rows[k].storageId == s
    ensures r.Some? ==> r.value in rows && r.value.storageId == s
  {
    if rows == [] then None
    else if rows[0].storageId == s then Some(rows[0])
    else
      var r := Lookup(rows[1..], s);
      assert forall k :: 1 <= k < |rows| ==> rows[k] == rows[1..][k - 1];
      r
  }

  lemma {:induction false} LookupFind(rows: seq<CacheEntry>, s: StorageId)
    ensures Lookup(rows, s) == if Find(rows, s).Some? then Some(rows[Find(rows, s).value]) else None
  {
    if rows != [] && rows[0].storageId != s {
      LookupFind(rows[1..], s);
    }
  }

  lemma {:induction false} LookupUpdateOther(a: seq<CacheEntry>, k: nat, e: CacheEntry, t: StorageId)
    requires k < |a| && a[k].storageId == e.storageId != t
    ensures Lookup(a[k := e], t) == Lookup(a, t)
  {
    if k > 0 {
      assert a[k := e][1..] == a[1..][k - 1 := e];
      LookupUpdateOther(a[1..], k - 1, e, t);
    }
  }

  lemma {:induction false} LookupUpdateFirst(a: seq<CacheEntry>, k: nat, e: CacheEntry)
    requires Find(a, e.storageId) == Some(k)
    ensures Lookup(a[k := e], e.storageId) == Some(e)
  {
    if k > 0 {
      assert a[k := e][1..] == a[1..][k - 1 := e];
      LookupUpdateFirst(a[1..], k - 1, e);
    }
  }

  lemma {:induction false} LookupAppend(a: seq<CacheEntry>, e: CacheEntry, t: StorageId)
    ensures Lookup(a + [e], t) == if Lookup(a, t).Some? then Lookup(a, t) else if e.storageId == t then Some(e) else None
  {
    if a == [] {
      assert a + [e] == [e];
    } else {
      assert (a + [e])[1..] == a[1..] + [e];
      LookupAppend(a[1..], e, t);
    }
  }

  lemma {:induction false} LookupDelete(a: seq<CacheEntry>, k: nat, t: StorageId)
    requires UniqueKeys(a) && k < |a|
    ensures Lookup(a[..k] + a[k + 1..], t) == if t == a[k].storageId then None else Lookup(a, t)
  {
    var b := a[..k] + a[k + 1..];
    if k == 0 {
      assert b == a[1..];
      if t == a[0].storageId {
        assert forall i :: 0 <= i < |b| ==> b[i] == a[i + 1];
      }
    } else {
      assert b == [a[0]] + (a[1..][..k - 1] + a[1..][k..]);
      assert b[1..] == a[1..][..k - 1] + a[1..][k..];
      LookupDelete(a[1..], k - 1, t);
    }
  }

  /** At most one row per storage id. */
  predicate UniqueKeys(rows: seq<CacheEntry>) {
    forall i, j :: 0 <= i < j < |rows| ==> rows[i].storageId != rows[j].storageId
  }

  /** Row ids are unique and below `next`, and storage ids are unique. */
  predicate ValidRows(rows: seq<CacheEntry>, next: nat) {
    UniqueKeys(rows)
    && (forall i :: 0 <= i < |rows| ==> rows[i].rowId < next)
    && (forall i, j :: 0 <= i < j < |rows| ==> rows[i].rowId != rows[j].rowId)
  }

  /** Patching a row's other fields keeps the table valid. */
  lemma ValidPatch(rows: seq<CacheEntry>, next: nat, k: nat, e: CacheEntry)
    requires ValidRows(rows, next) && k < |rows|
    requires e.rowId == rows[k].rowId && e.storageId == rows[k].storageId
    ensures ValidRows(rows[k := e], next)
  {
    var r := rows[k := e];
    assert forall i :: 0 <= i < |r| ==> r[i].rowId == rows[i].rowId && r[i].storageId == rows[i].storageId;
  }

  /** A row for a new storage id, with the next row id, keeps the table valid. */
  lemma ValidInsert(rows: seq<CacheEntry>, next: nat, e: CacheEntry)
    requires ValidRows(rows, next) && Find(rows, e.storageId).None? && e.rowId == next
    ensures ValidRows(rows + [e], next + 1)
  {
    var r := rows + [e];
    assert forall i :: 0 <= i < |rows| ==> r[i] == rows[i];
  }

  /** Deleting a row keeps the table valid. */
  lemma ValidDelete(rows: seq<CacheEntry>, next: nat, k: nat)
    requires ValidRows(rows, next) && k < |rows|
    ensures ValidRows(rows[..k] + rows[k + 1..], next)
  {
    var r := rows[..k] + rows[k + 1..];
    assert forall i :: 0 <= i < |r| ==> r[i] == if i < k then rows[i] else rows[i + 1];
  }

  class MediaCacheTable {
    var rows: seq<CacheEntry>
    var nextRowId: nat

    predicate Valid()
      reads this
    {
      ValidRows(rows, nextRowId)
    }

    constructor ()
      ensures Valid() && rows == []
    {
      rows := [];
      nextRowId := 0;
    }

    /** `get`: the row for `s`, or `None` (the query's `null`). */
    function Get(s: StorageId): (r: Option<CacheEntry>)
      reads this
      ensures r.Some? <==> exists k :: 0 <= k < |rows| && rows[k].storageId == s
      ensures r.Some? ==> r.value in rows && r.value.storageId == s
    {
      Lookup(rows, s)
    }

    /** `save`: patch the existing row for `s` (keeping its id and storage id), or insert one. */
    method Save(s: StorageId, mediaId: string, mimeType: string, fileName: Option<string>, now: int)
      requires Valid()
      modifies this
      ensures Valid()
      ensures Get(s).Some?
      ensures Get(s).value.mediaId == mediaId && Get(s).value.mimeType == mimeType
      ensures Get(s).value.fileName == fileName && Get(s).value.createdAt == now
      ensures old(Get(s)).Some? ==> Get(s).value.rowId == old(Get(s)).value.rowId && |rows| == |old(rows)|
      ensures old(Get(s)).None? ==> |rows| == |old(rows)| + 1 && Get(s).value.rowId == old(nextRowId)
      ensures forall t :: t != s ==> Get(t) == old(Get(t))
    {
      var existing := Find(rows, s);
      if existing.Some? {
        var k := existing.value;
        var e := rows[k].(mediaId := mediaId, mimeType := mimeType, fileName := fileName, createdAt := now);
        LookupFind(rows, s);
        LookupUpdateFirst(rows, k, e);
        forall t | t != s
          ensures Lookup(rows[k := e], t) == Lookup(rows, t)
        {
          LookupUpdateOther(rows, k, e, t);
        }
        ValidPatch(rows, nextRowId, k, e);
        rows := rows[k := e];
      } else {
        var entry := CacheEntry(nextRowId, s, mediaId, mimeType, fileName, now);
        forall t
          ensures Lookup(rows + [entry], t) == if t == s then Some(entry) else Lookup(rows, t)
        {
          LookupAppend(rows, entry, t);
        }
        ValidInsert(rows, nextRowId, entry);
        rows := rows + [entry];
        nextRowId := nextRowId + 1;
      }
    }

    /** `remove`: delete the row for `s`; a no-op when there is none. */
    method Remove(s: StorageId)
      requires Valid()
      modifies this
      ensures Valid()
      ensures Get(s).None?
      ensures old(Get(s)).None? ==> rows == old(rows)
      ensures old(Get(s)).Some? ==> |rows| == |old(rows)| - 1
      ensures forall t :: t != s ==> Get(t) == old(Get(t))
      ensures nextRowId == old(nextRowId)
    {
      var existing := Find(rows, s);
      if existing.Some? {
        var k := existing.value;
        forall t
          ensures Lookup(rows[..k] + rows[k + 1..], t) == if t == s then None else Lookup(rows, t)
        {
          LookupDelete(rows, k, t);
        }
        ValidDelete(rows, nextRowId, k);
        rows := rows[..k] + rows[k + 1..];
      }
    }
  }

  /** Two saves for the same file in a row: the second one's values win and no row is added. */
  method SaveTwiceKeepsLast(s: StorageId, m1: string, m2: string, mime: string) returns (entry: Option<CacheEntry>, size: nat)
    ensures entry.Some? && entry.value.mediaId == m2 && entry.value.storageId == s
    ensures size == 1
  {
    var cache := new MediaCacheTable();
    cache.Save(s, m1, mime, None, 0);
    cache.Save(s, m2, mime, None, 1);
    entry := cache.Get(s);
    size := |cache.rows|;
  }
}
