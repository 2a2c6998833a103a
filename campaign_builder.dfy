/** The campaign editor: the list of blocks and connections being built, the selected block,
    and the checks made before the campaign is saved. Each operation computes the editor's next
    state from the current one. */
module CampaignBuilder {
  import opened Common
  import opened CampaignUtils
  import CampaignExecutor

  type UserId = nat
  type CampaignId = nat
  type Connection = CampaignExecutor.Connection

  const LOGIN_REQUIRED := "You must be logged in to create a campaign"
  const NAME_REQUIRED := "Campaign name is required"
  const BLOCKS_REQUIRED := "Add at least one block to the campaign"
  const SAVE_FAILED := "Failed to save campaign"
  const BLOCK_X := 100
  const FIRST_Y := 100
  const ROW_HEIGHT := 150

  datatype BuilderBlock = BuilderBlock(id: string, kind: string, data: BlockData, x: int, y: int)

  datatype Editor = Editor(
    blocks: seq<BuilderBlock>,
    connections: seq<Connection>,
    selected: Option<string>,
    showBlockMenu: bool)

  /** `block_${Date.now()}`. */
  function BlockIdAt(now: nat): (id: string)
    ensures "block_" <= id && |id| > |"block_"|
  {
    "block_" + NatToString(now)
  }

  /** `addBlock`: one block of the type, with its default data, placed below the others, and
      selected; the block menu closes. */
  function AddBlock(s: Editor, kind: string, now: nat): (t: Editor)
    ensures |t.blocks| == |s.blocks| + 1 && t.blocks[..|s.blocks|] == s.blocks
    ensures t.blocks[|s.blocks|].kind == kind && t.blocks[|s.blocks|].data == DefaultBlockData(kind)
    ensures t.blocks[|s.blocks|].id == BlockIdAt(now) && t.selected == Some(BlockIdAt(now))
    ensures t.connections == s.connections && !t.showBlockMenu
  {
    var block := BuilderBlock(BlockIdAt(now), kind, DefaultBlockData(kind), BLOCK_X, |s.blocks| * ROW_HEIGHT + FIRST_Y);
    assert (s.blocks + [block])[..|s.blocks|] == s.blocks;
    s.(blocks := s.blocks + [block], showBlockMenu := false, selected := Some(block.id))
  }

  /** The layout `addBlock` produces: one column, one row of 150 pixels per block from y = 100. */
  predicate LaidOut(blocks: seq<BuilderBlock>) {
    forall i :: 0 <= i < |blocks| ==> blocks[i].x == BLOCK_X && blocks[i].y == FIRST_Y + ROW_HEIGHT * i
  }

  /** Adding a block keeps the column layout, so blocks never overlap. */
  lemma AddBlockKeepsLayout(s: Editor, kind: string, now: nat)
    requires LaidOut(s.blocks)
    ensures LaidOut(AddBlock(s, kind, now).blocks)
    ensures var b := AddBlock(s, kind, now).blocks;
      forall i, j :: 0 <= i < j < |b| ==> b[i].y + ROW_HEIGHT <= b[j].y
  {
    var b := AddBlock(s, kind, now).blocks;
    forall i | 0 <= i < |b|
      ensures b[i].x == BLOCK_X && b[i].y == FIRST_Y + ROW_HEIGHT * i
    {
      if i < |s.blocks| {
        assert b[i] == b[..|s.blocks|][i];
      }
    }
  }

  /** A wait block added by the editor, run by the executor, waits one hour. */
  lemma AddedWaitBlockWaitsOneHour(s: Editor, now: nat)
    ensures var b := AddBlock(s, "wait", now).blocks[|s.blocks|];
      CampaignExecutor.WaitDelay(ToExecutorBlock(b)) == CampaignExecutor.HOUR_MS
  {
  }

  /** How the executor reads a block saved by the editor. */
  function ToExecutorBlock(b: BuilderBlock): (e: CampaignExecutor.Block)
    ensures e.id == b.id && e.kind == b.kind
  {
    CampaignExecutor.Block(b.id, b.kind, CampaignExecutor.BlockData(
      NumField(b.data, "duration"), StrField(b.data, "unit"), StrField(b.data, "templateId"),
      StrField(b.data, "subject"), StrField(b.data, "htmlContent"), StrField(b.data, "message"),
      if "textContent" in b.data && b.data["textContent"].Str? then Some(b.data["textContent"].s) else None,
      StrField(b.data, "tagId")))
  }

  function NumField(d: BlockData, key: string): int {
    if key in d && d[key].Num? then d[key].n else 0
  }

  function StrField(d: BlockData, key: string): string {
    if key in d && d[key].Str? then d[key].s else ""
  }

  /** `updateBlockData`: the fields are merged into the data of the blocks with that id. */
  function UpdateBlockData(blocks: seq<BuilderBlock>, id: string, data: BlockData): (r: seq<BuilderBlock>)
    ensures |r| == |blocks|
    ensures forall i :: 0 <= i < |r| ==> r[i].(data := blocks[i].data) == blocks[i]
    ensures forall i :: 0 <= i < |r| && blocks[i].id != id ==> r[i] == blocks[i]
    ensures forall i :: 0 <= i < |r| && blocks[i].id == id ==>
      r[i].data.Keys == blocks[i].data.Keys + data.Keys
      && (forall k :: k in data ==> r[i].data[k] == data[k])
      && (forall k :: k in blocks[i].data && k !in data ==> r[i].data[k] == blocks[i].data[k])
  {
    seq(|blocks|, i requires 0 <= i < |blocks| =>
      if blocks[i].id == id then blocks[i].(data := blocks[i].data + data) else blocks[i])
  }

  /** Two updates of one block merge as one update with both sets of fields, the later winning. */
  lemma UpdatesCompose(blocks: seq<BuilderBlock>, id: string, d1: BlockData, d2: BlockData)
    ensures UpdateBlockData(UpdateBlockData(blocks, id, d1), id, d2) == UpdateBlockData(blocks, id, d1 + d2)
  {
    var a := UpdateBlockData(UpdateBlockData(blocks, id, d1), id, d2);
    var b := UpdateBlockData(blocks, id, d1 + d2);
    forall i | 0 <= i < |blocks|
      ensures a[i] == b[i]
    {
      MergeAssoc(blocks[i].data, d1, d2);
    }
  }

  lemma MergeAssoc(d: BlockData, d1: BlockData, d2: BlockData)
    ensures (d + d1) + d2 == d + (d1 + d2)
  {
    var l, r := (d + d1) + d2, d + (d1 + d2);
    assert l.Keys == r.Keys;
    forall k | k in l.Keys
      ensures l[k] == r[k]
    {
    }
  }

  /** Updating a block that is not there changes nothing. */
  lemma UpdateMissingBlock(blocks: seq<BuilderBlock>, id: string, data: BlockData)
    requires forall i :: 0 <= i < |blocks| ==> blocks[i].id != id
    ensures UpdateBlockData(blocks, id, data) == blocks
  {
  }

  /** `blocks.filter(b => b.id !== id)`. */
  function WithoutBlock(blocks: seq<BuilderBlock>, id: string): (r: seq<BuilderBlock>)
    ensures |r| <= |blocks|
    ensures forall b :: b in r <==> b in blocks && b.id != id
  {
    if blocks == [] then []
    else
      assert blocks == [blocks[0]] + blocks[1..];
      (if blocks[0].id != id then [blocks[0]] else []) + WithoutBlock(blocks[1..], id)
  }

  /** `connections.filter(c => c.from !== id && c.to !== id)`. */
  function WithoutConnections(connections: seq<Connection>, id: string): (r: seq<Connection>)
    ensures |r| <= |connections|
    ensures forall c :: c in r <==> c in connections && c.from != id && c.to != id
  {
    if connections == [] then []
    else
      assert connections == [connections[0]] + connections[1..];
      (if connections[0].from != id && connections[0].to != id then [connections[0]] else [])
        + WithoutConnections(connections[1..], id)
  }

  lemma {:induction false} WithoutAbsentBlock(blocks: seq<BuilderBlock>, id: string)
    requires forall i :: 0 <= i < |blocks| ==> blocks[i].id != id
    ensures WithoutBlock(blocks, id) == blocks
  {
    if blocks != [] {
      assert blocks[0].id != id;
      WithoutAbsentBlock(blocks[1..], id);
      assert [blocks[0]] + blocks[1..] == blocks;
    }
  }

  lemma {:induction false} WithoutBlockAppend(blocks: seq<BuilderBlock>, b: BuilderBlock, id: string)
    ensures WithoutBlock(blocks + [b], id) == WithoutBlock(blocks, id) + (if b.id != id then [b] else [])
  {
    if blocks == [] {
      assert blocks + [b] == [b];
      assert [b][1..] == [];
    } else {
      assert (blocks + [b])[0] == blocks[0] && (blocks + [b])[1..] == blocks[1..] + [b];
      WithoutBlockAppend(blocks[1..], b, id);
    }
  }

  lemma {:induction false} WithoutUnusedConnections(connections: seq<Connection>, id: string)
    requires forall i :: 0 <= i < |connections| ==> connections[i].from != id && connections[i].to != id
    ensures WithoutConnections(connections, id) == connections
  {
    if connections != [] {
      assert connections[0].from != id && connections[0].to != id;
      WithoutUnusedConnections(connections[1..], id);
      assert [connections[0]] + connections[1..] == connections;
    }
  }

  /** `removeBlock`: the block goes, every connection to or from it goes, and the selection is
      cleared when it was that block. */
  function RemoveBlock(s: Editor, id: string): (t: Editor)
    ensures forall i :: 0 <= i < |t.blocks| ==> t.blocks[i].id != id
    ensures forall b :: b in t.blocks <==> b in s.blocks && b.id != id
    ensures forall i :: 0 <= i < |t.connections| ==> t.connections[i].from != id && t.connections[i].to != id
    ensures forall c :: c in t.connections <==> c in s.connections && c.from != id && c.to != id
    ensures t.selected == if s.selected == Some(id) then None else s.selected
    ensures t.showBlockMenu == s.showBlockMenu
  {
    var blocks := WithoutBlock(s.blocks, id);
    var connections := WithoutConnections(s.connections, id);
    assert forall i :: 0 <= i < |blocks| ==> blocks[i] in blocks;
    assert forall i :: 0 <= i < |connections| ==> connections[i] in connections;
    Editor(blocks, connections, if s.selected == Some(id) then None else s.selected, s.showBlockMenu)
  }

  /** Removing a block just added takes the editor back to its blocks and connections before
      the addition, when the new id was not in use. */
  lemma RemoveUndoesAdd(s: Editor, kind: string, now: nat)
    requires forall i :: 0 <= i < |s.blocks| ==> s.blocks[i].id != BlockIdAt(now)
    requires forall i :: 0 <= i < |s.connections| ==>
      s.connections[i].from != BlockIdAt(now) && s.connections[i].to != BlockIdAt(now)
    ensures var t := RemoveBlock(AddBlock(s, kind, now), BlockIdAt(now));
      t.blocks == s.blocks && t.connections == s.connections && t.selected == None
  {
    var added := AddBlock(s, kind, now);
    assert added.blocks == s.blocks + [added.blocks[|s.blocks|]];
    WithoutBlockAppend(s.blocks, added.blocks[|s.blocks|], BlockIdAt(now));
    WithoutAbsentBlock(s.blocks, BlockIdAt(now));
    WithoutUnusedConnections(s.connections, BlockIdAt(now));
  }

  /** The `leadSelection` object: each list is sent only when it is not empty. */
  datatype LeadSelection = LeadSelection(
    kind: string,
    tagIds: Option<seq<string>>,
    statuses: Option<seq<string>>,
    sources: Option<seq<string>>,
    autoEnrollNew: bool)

  function NonEmptyList(xs: seq<string>): (r: Option<seq<string>>)
    ensures r.None? <==> xs == []
    ensures r.Some? ==> r.value == xs
  {
    if |xs| > 0 then Some(xs) else None
  }

  /** The settings the editor's form holds besides the blocks. */
  datatype Form = Form(
    name: string,
    description: string,
    selectionType: string,
    tags: seq<string>,
    statuses: seq<string>,
    sources: seq<string>,
    autoEnrollNew: bool)

  function SelectionOf(f: Form): (l: LeadSelection)
    ensures l.kind == f.selectionType && l.autoEnrollNew == f.autoEnrollNew
    ensures l.tagIds.None? <==> f.tags == []
    ensures l.statuses.None? <==> f.statuses == []
    ensures l.sources.None? <==> f.sources == []
    ensures l.tagIds.Some? ==> l.tagIds.value == f.tags
    ensures l.statuses.Some? ==> l.statuses.value == f.statuses
    ensures l.sources.Some? ==> l.sources.value == f.sources
  {
    LeadSelection(f.selectionType, NonEmptyList(f.tags), NonEmptyList(f.statuses), NonEmptyList(f.sources),
                  f.autoEnrollNew)
  }

  /** The mutation `handleSave` calls. */
  datatype SaveCall =
    | CreateCampaign(userId: UserId, name: string, description: string, campaignType: string,
                     leadSelection: LeadSelection, blocks: seq<BuilderBlock>, connections: seq<Connection>)
    | UpdateCampaign(userId: UserId, campaignId: CampaignId, name: string, description: string,
                     leadSelection: LeadSelection, blocks: seq<BuilderBlock>, connections: seq<Connection>)

  /** How the mutation ends: normally, by throwing an `Error`, or by throwing something else. */
  datatype MutationOutcome = Succeeds | ThrowsError(message: string) | ThrowsOther

  /** What `handleSave` shows: a refusal before any call, or the call and its toast. */
  datatype SaveResult = Refused(message: string) | Saved(call: SaveCall, message: string) | Failed(call: SaveCall, message: string)

  /** `handleSave`. */
  function HandleSave(user: Option<UserId>, campaignId: Option<CampaignId>, f: Form, s: Editor,
                      outcome: MutationOutcome): (r: SaveResult)
    ensures r.Refused? <==> user.None? || Trim(f.name) == "" || s.blocks == []
    ensures r.Refused? ==>
      r.message == if user.None? then LOGIN_REQUIRED else if Trim(f.name) == "" then NAME_REQUIRED else BLOCKS_REQUIRED
    ensures !r.Refused? ==>
      r.call.userId == user.value && r.call.name == f.name && r.call.blocks == s.blocks
      && r.call.connections == s.connections && r.call.leadSelection == SelectionOf(f)
      && r.call.description == f.description
      && (r.call.UpdateCampaign? <==> campaignId.Some?)
      && (r.call.UpdateCampaign? ==> r.call.campaignId == campaignId.value)
      && (r.call.CreateCampaign? ==> r.call.campaignType == "sequence")
    ensures !r.Refused? ==> (r.Failed? <==> !outcome.Succeeds?)
    ensures r.Failed? ==> r.message == if outcome.ThrowsError? then outcome.message else SAVE_FAILED
    ensures r.Saved? ==> r.message == if campaignId.Some? then "Campaign updated" else "Campaign created"
  {
    if user.None? then Refused(LOGIN_REQUIRED)
    else if Trim(f.name) == "" then Refused(NAME_REQUIRED)
    else if |s.blocks| == 0 then Refused(BLOCKS_REQUIRED)
    else
      var leadSelection := SelectionOf(f);
      var call := if campaignId.Some?
        then UpdateCampaign(user.value, campaignId.value, f.name, f.description, leadSelection, s.blocks, s.connections)
        else CreateCampaign(user.value, f.name, f.description, "sequence", leadSelection, s.blocks, s.connections);
      match outcome
      case Succeeds => Saved(call, if campaignId.Some? then "Campaign updated" else "Campaign created")
      case ThrowsError(message) => Failed(call, message)
      case ThrowsOther => Failed(call, SAVE_FAILED)
  }

  /** A campaign with a name and at least one block, saved by a signed-in user, reaches the
      mutation whatever it holds. */
  lemma SaveAfterAdd(user: UserId, campaignId: Option<CampaignId>, f: Form, s: Editor, kind: string, now: nat,
                     outcome: MutationOutcome)
    requires Trim(f.name) != ""
    ensures !HandleSave(Some(user), campaignId, f, AddBlock(s, kind, now), outcome).Refused?
  {
  }
}
