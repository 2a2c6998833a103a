/** Lead tags: a name and a colour, each unique across the table. A tag's id is its position
    in the table; tags are never deleted by the modelled code, so an id past the end is one
    that does not exist. */
module Tags {
  import opened Common

  type TagId = nat

  datatype Tag = Tag(name: string, color: string)

  /** Names are pairwise distinct, and so are colours. */
  predicate Distinct(tags: seq<Tag>) {
    forall i, j :: 0 <= i < j < |tags| ==> tags[i].name != tags[j].name && tags[i].color != tags[j].color
  }

  /** `getTagsByIds`: the tags of the ids that exist, in the order of the ids. */
  function TagsByIds(tags: seq<Tag>, ids: seq<TagId>): (r: seq<Tag>)
    ensures |r| <= |ids|
    ensures forall t :: t in r ==> t in tags
    ensures (forall k :: 0 <= k < |ids| ==> ids[k] < |tags|) ==> |r| == |ids|
  {
    if ids == [] then []
    else (if ids[0] < |tags| then [tags[ids[0]]] else []) + TagsByIds(tags, ids[1..])
  }

  /** When every id exists, the k-th result is the tag of the k-th id. */
  lemma {:induction false} TagsByIdsExact(tags: seq<Tag>, ids: seq<TagId>, k: nat)
    requires forall x :: 0 <= x < |ids| ==> ids[x] < |tags|
    requires k < |ids|
    ensures TagsByIds(tags, ids)[k] == tags[ids[k]]
  {
    if k > 0 {
      TagsByIdsExact(tags, ids[1..], k - 1);
    }
  }

  /** Ids of tags that do not exist are dropped and nothing else changes. */
  lemma {:induction false} TagsByIdsSkipsMissing(tags: seq<Tag>, ids: seq<TagId>, id: TagId)
    requires id >= |tags|
    ensures TagsByIds(tags, [id] + ids) == TagsByIds(tags, ids)
  {
    assert ([id] + ids)[1..] == ids;
  }

  class TagTable {
    var tags: seq<Tag>

    constructor (tags: seq<Tag>)
      ensures this.tags == tags
    {
      this.tags := tags;
    }

    /** `createTag`: the name is checked first, then the colour; on success exactly one tag
        is added, so names and colours stay pairwise distinct. */
    method CreateTag(name: string, color: string) returns (r: Result<TagId>)
      modifies this
      ensures (exists i :: 0 <= i < |old(tags)| && old(tags)[i].name == name) ==> r == Err("Tag name already exists")
      ensures ((forall i :: 0 <= i < |old(tags)| ==> old(tags)[i].name != name)
               && (exists i :: 0 <= i < |old(tags)| && old(tags)[i].color == color))
              ==> r == Err("Tag color already exists")
      ensures r.Ok? <==> forall i :: 0 <= i < |old(tags)| ==> old(tags)[i].name != name && old(tags)[i].color != color
      ensures r.Err? ==> tags == old(tags)
      ensures r.Ok? ==> r.value == |old(tags)| && tags == old(tags) + [Tag(name, color)]
      ensures Distinct(old(tags)) ==> Distinct(tags)
    {
      var i := 0;
      while i < |tags|
        invariant 0 <= i <= |tags| && tags == old(tags)
        invariant forall j :: 0 <= j < i ==> tags[j].name != name
      {
        if tags[i].name == name {
          return Err("Tag name already exists");
        }
        i := i + 1;
      }
      i := 0;
      while i < |tags|
        invariant 0 <= i <= |tags| && tags == old(tags)
        invariant forall j :: 0 <= j < i ==> tags[j].color != color
      {
        if tags[i].color == color {
          return Err("Tag color already exists");
        }
        i := i + 1;
      }
      r := Ok(|tags|);
      tags := tags + [Tag(name, color)];
    }

    /** `getTagsByIds`, as its loop. */
    method GetTagsByIds(ids: seq<TagId>) returns (found: seq<Tag>)
      ensures found == TagsByIds(tags, ids)
    {
      found := [];
      var k := 0;
      while k < |ids|
        invariant 0 <= k <= |ids|
        invariant found + TagsByIds(tags, ids[k..]) == TagsByIds(tags, ids)
      {
        assert ids[k..][1..] == ids[k + 1..];
        if ids[k] < |tags| {
          found := found + [tags[ids[k]]];
        }
        k := k + 1;
      }
    }
  }
}
