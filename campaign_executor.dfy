/** The campaign executor: a periodic action that takes the due executions (one lead at one
    block of a campaign), runs each block and schedules the blocks its connections lead to.

    The action works through queries, mutations and other actions it cannot see into. Their
    answers are a `World` given as a parameter, and every call the action makes is recorded,
    in order, as an `Effect` in an `ExecutorLog`. */
module CampaignExecutor {
  import opened Common

  type ExecutionId = nat
  type CampaignId = nat
  type LeadId = nat

  const MINUTE_MS := 60 * 1000
  const HOUR_MS := 60 * 60 * 1000
  const DAY_MS := 24 * 60 * 60 * 1000

  const CAMPAIGN_NOT_FOUND := "Campaign not found"
  const BLOCK_NOT_FOUND := "Block not found"
  const NO_EMAIL := "Lead not found or missing email address"
  const EMAIL_FAILED := "Failed to send email: "
  const DEFAULT_TO_NAME := "Valued Customer"
  const DEFAULT_SUBJECT := "Message from Cafoli Connect"
  const DEFAULT_BODY := "Hello!"
  /** What reading a property of `undefined` throws: an action's context has no `db`. */
  const NO_DB_ERROR := "Cannot read properties of undefined (reading 'get')"

  /** The fields of a block's `data` that the executor reads; "" and 0 stand for absent. */
  datatype BlockData = BlockData(
    duration: int,
    unit: string,
    templateId: string,
    subject: string,
    htmlContent: string,
    message: string,
    textContent: Option<string>,
    tagId: string)

  datatype Block = Block(id: string, kind: string, data: BlockData)

  datatype Connection = Connection(from: string, to: string)

  datatype Campaign = Campaign(blocks: seq<Block>, connections: seq<Connection>)

  datatype Execution = Execution(id: ExecutionId, campaignId: CampaignId, enrollmentId: nat,
                                 leadId: LeadId, blockId: string)

  /** The object a block returns: `{ success: true, message? }` or `{ success: false, error }`. */
  datatype Outcome = Succeeded(message: Option<string>) | FailedWith(error: string)

  /** One call the action makes. */
  datatype Effect =
    | MarkExecuting(executionId: ExecutionId)
    | MarkFailed(executionId: ExecutionId, error: string)
    | MarkCompleted(executionId: ExecutionId, result: Option<Outcome>)
    | ScheduleExecution(campaignId: CampaignId, enrollmentId: nat, leadId: LeadId, blockId: string,
                        scheduledFor: int)
    | SendTemplate(leadId: LeadId, templateId: string)
    | SendEmail(to: string, toName: string, subject: string, htmlContent: string, textContent: Option<string>)
    | AddTag(leadId: LeadId, tagId: string)
    | RemoveTag(leadId: LeadId, tagId: string)

  datatype Contact = Contact(name: string, email: string)

  /** The answers of everything outside the action: the campaigns and leads its queries read,
      the templates that exist, the error a failing email send or tag mutation throws for an
      execution, and, for an execution whose scheduling fails, which of its `scheduleExecution`
      calls (counting from 0) throws and with what message. */
  datatype World = World(
    campaigns: map<CampaignId, Campaign>,
    leads: map<LeadId, Contact>,
    templates: set<string>,
    emailErrors: map<ExecutionId, string>,
    tagErrors: map<ExecutionId, string>,
    scheduleErrors: map<ExecutionId, (nat, string)>)

  /** Which WhatsApp block runs: the one the program has, or the one it evidently means. */
  datatype Variant = AsWritten | Corrected

  /** `a || b` on strings. */
  function OrElse(a: string, b: string): (r: string)
    ensures r == (if a == "" then b else a)
    ensures a != "" || b != "" ==> r != ""
  {
    if a != "" then a else b
  }

  /** `blocks.find(b => b.id === id)`. */
  function FindBlock(blocks: seq<Block>, id: string): (r: Option<Block>)
    ensures r.None? <==> forall i :: 0 <= i < |blocks| ==> blocks[i].id != id
    ensures r.Some? ==> r.value.id == id && r.value in blocks
  {
    if blocks == [] then None
    else if blocks[0].id == id then Some(blocks[0])
    else
      var rest := FindBlock(blocks[1..], id);
      assert forall j :: 1 <= j < |blocks| ==> blocks[j] == blocks[1..][j - 1];
      rest
  }

  /** The delay before the block `b` runs once its predecessor is done: a wait block waits
      `duration || 1` units of `unit || "hours"`, and no time at all for an unknown unit;
      every other block runs at once. */
  function WaitDelay(b: Block): int {
    if b.kind != "wait" then 0
    else
      var duration := if b.data.duration == 0 then 1 else b.data.duration;
      var unit := OrElse(b.data.unit, "hours");
      if unit == "minutes" then duration * MINUTE_MS
      else if unit == "hours" then duration * HOUR_MS
      else if unit == "days" then duration * DAY_MS
      else 0
  }

  /** Only a wait block delays its run; a wait of a non-negative duration delays it by a
      non-negative time, and one of an unknown unit not at all. */
  lemma WaitDelayCases(b: Block)
    ensures b.kind != "wait" ==> WaitDelay(b) == 0
    ensures b.kind == "wait" && b.data.duration >= 0 ==> WaitDelay(b) >= 0
    ensures b.kind == "wait" && b.data.unit !in {"", "minutes", "hours", "days"} ==> WaitDelay(b) == 0
  {
  }

  /** A wait block without duration or unit waits one hour. */
  lemma DefaultWaitIsOneHour(b: Block)
    requires b.kind == "wait" && b.data.duration == 0 && b.data.unit == ""
    ensures WaitDelay(b) == HOUR_MS
  {
  }

  /** The delay is proportional to the duration. */
  lemma WaitDelayScales(b: Block, k: int)
    requires b.kind == "wait" && b.data.duration != 0 && k != 0
    ensures WaitDelay(b.(data := b.data.(duration := k * b.data.duration))) == k * WaitDelay(b)
  {
    var d := b.data.duration;
    assert k * d != 0;
    assert (k * d) * MINUTE_MS == k * (d * MINUTE_MS);
    assert (k * d) * HOUR_MS == k * (d * HOUR_MS);
    assert (k * d) * DAY_MS == k * (d * DAY_MS);
  }

  /** `campaign.connections.filter(c => c.from === from)`. */
  function Outgoing(connections: seq<Connection>, from: string): (r: seq<Connection>)
    ensures |r| <= |connections|
    ensures forall x :: x in r <==> x in connections && x.from == from
  {
    if connections == [] then []
    else (if connections[0].from == from then [connections[0]] else []) + Outgoing(connections[1..], from)
  }

  /** What one connection schedules: nothing when its target block is missing, otherwise an
      execution of the target, due after the target's wait delay. */
  function ScheduleOne(e: Execution, c: Campaign, conn: Connection, now: int): (r: seq<Effect>)
    ensures |r| <= 1
    ensures |r| == 1 <==> FindBlock(c.blocks, conn.to).Some?
  {
    match FindBlock(c.blocks, conn.to)
    case None => []
    case Some(next) => [ScheduleExecution(e.campaignId, e.enrollmentId, e.leadId, conn.to, now + WaitDelay(next))]
  }

  /** `x` schedules, for the enrolment of `e`, a block of `c` that exists, after its delay. */
  predicate ScheduledAfter(x: Effect, e: Execution, c: Campaign, now: int) {
    x.ScheduleExecution? && x.campaignId == e.campaignId && x.enrollmentId == e.enrollmentId
    && x.leadId == e.leadId && FindBlock(c.blocks, x.blockId).Some?
    && x.scheduledFor == now + WaitDelay(FindBlock(c.blocks, x.blockId).value)
  }

  /** The executions scheduled for `conns`, in order: one per connection whose target block
      exists, due after that block's wait delay. */
  function ScheduleFor(e: Execution, c: Campaign, conns: seq<Connection>, now: int): (r: seq<Effect>)
    ensures |r| <= |conns|
    ensures forall k :: 0 <= k < |r| ==> r[k].ScheduleExecution?
    decreases |conns|
  {
    if conns == [] then []
    else ScheduleFor(e, c, conns[..|conns| - 1], now) + ScheduleOne(e, c, conns[|conns| - 1], now)
  }

  /** What one connection schedules is for the enrolment of `e`, of a block that exists,
      after that block's delay. */
  lemma ScheduleOneScheduledAfter(e: Execution, c: Campaign, conn: Connection, now: int)
    ensures var one := ScheduleOne(e, c, conn, now);
      forall k :: 0 <= k < |one| ==> ScheduledAfter(one[k], e, c, now)
  {
    if FindBlock(c.blocks, conn.to).Some? {
      var next := FindBlock(c.blocks, conn.to).value;
      var x := ScheduleExecution(e.campaignId, e.enrollmentId, e.leadId, conn.to, now + WaitDelay(next));
      assert ScheduleOne(e, c, conn, now) == [x];
      assert ScheduledAfter(x, e, c, now);
    }
  }

  /** Each execution scheduled for `conns` is for the enrolment of `e`, of a block that
      exists, after that block's delay. */
  lemma {:induction false} ScheduleForScheduledAfter(e: Execution, c: Campaign, conns: seq<Connection>, now: int)
    ensures forall k :: 0 <= k < |ScheduleFor(e, c, conns, now)| ==> ScheduledAfter(ScheduleFor(e, c, conns, now)[k], e, c, now)
    decreases |conns|
  {
    if conns != [] {
      var before := ScheduleFor(e, c, conns[..|conns| - 1], now);
      var one := ScheduleOne(e, c, conns[|conns| - 1], now);
      ScheduleForScheduledAfter(e, c, conns[..|conns| - 1], now);
      ScheduleOneScheduledAfter(e, c, conns[|conns| - 1], now);
      var r := ScheduleFor(e, c, conns, now);
      assert r == before + one;
      forall k | 0 <= k < |r|
        ensures ScheduledAfter(r[k], e, c, now)
      {
        if k < |before| {
          assert r[k] == before[k];
        } else {
          assert r[k] == one[k - |before|];
        }
      }
    }
  }

  /** Each scheduled block is the target of one of `conns`. */
  lemma {:induction false} ScheduleForSound(e: Execution, c: Campaign, conns: seq<Connection>, now: int)
    ensures forall k :: 0 <= k < |ScheduleFor(e, c, conns, now)| ==>
      exists i :: 0 <= i < |conns| && conns[i].to == ScheduleFor(e, c, conns, now)[k].blockId
    decreases |conns|
  {
    if conns != [] {
      var init := conns[..|conns| - 1];
      var last := conns[|conns| - 1];
      var before := ScheduleFor(e, c, init, now);
      var one := ScheduleOne(e, c, last, now);
      var r := ScheduleFor(e, c, conns, now);
      ScheduleForSound(e, c, init, now);
      assert r == before + one;
      assert forall k :: 0 <= k < |one| ==> one[k].blockId == last.to;
      forall k | 0 <= k < |r|
        ensures exists i :: 0 <= i < |conns| && conns[i].to == r[k].blockId
      {
        if k < |before| {
          assert r[k] == before[k];
          var i :| 0 <= i < |init| && init[i].to == before[k].blockId;
          assert conns[i] == init[i];
        } else {
          assert r[k] == one[k - |before|];
          assert conns[|conns| - 1].to == r[k].blockId;
        }
      }
    } else {
      assert ScheduleFor(e, c, conns, now) == [];
    }
  }

  /** `r` schedules the block `id`. */
  predicate Schedules(r: seq<Effect>, id: string) {
    exists k :: 0 <= k < |r| && r[k].ScheduleExecution? && r[k].blockId == id
  }

  /** Each of `conns` whose target exists has its target scheduled. */
  lemma {:induction false} ScheduleForComplete(e: Execution, c: Campaign, conns: seq<Connection>, now: int)
    ensures forall i :: 0 <= i < |conns| && FindBlock(c.blocks, conns[i].to).Some? ==>
      Schedules(ScheduleFor(e, c, conns, now), conns[i].to)
    decreases |conns|
  {
    if conns != [] {
      var init := conns[..|conns| - 1];
      var last := conns[|conns| - 1];
      var before := ScheduleFor(e, c, init, now);
      var one := ScheduleOne(e, c, last, now);
      var r := ScheduleFor(e, c, conns, now);
      ScheduleForComplete(e, c, init, now);
      assert r == before + one;
      forall i | 0 <= i < |conns| && FindBlock(c.blocks, conns[i].to).Some?
        ensures Schedules(r, conns[i].to)
      {
        if i < |init| {
          assert conns[i] == init[i];
          var k :| 0 <= k < |before| && before[k].ScheduleExecution? && before[k].blockId == init[i].to;
          assert r[k] == before[k];
        } else {
          assert r[|before|] == one[0];
          assert r[|before|].blockId == conns[i].to;
        }
      }
    } else {
      assert ScheduleFor(e, c, conns, now) == [];
    }
  }

  lemma ScheduleForSnoc(e: Execution, c: Campaign, conns: seq<Connection>, k: nat, now: int)
    requires k < |conns|
    ensures ScheduleFor(e, c, conns[..k + 1], now) == ScheduleFor(e, c, conns[..k], now) + ScheduleOne(e, c, conns[k], now)
  {
    assert conns[..k + 1][..k] == conns[..k];
  }

  /** Scheduling for the first `k` connections records a prefix of what scheduling for all of
      them records. */
  lemma {:induction false} ScheduleForPrefix(e: Execution, c: Campaign, conns: seq<Connection>, k: nat, now: int)
    requires k <= |conns|
    ensures ScheduleFor(e, c, conns[..k], now) <= ScheduleFor(e, c, conns, now)
    decreases |conns| - k
  {
    if k < |conns| {
      ScheduleForSnoc(e, c, conns, k, now);
      ScheduleForPrefix(e, c, conns, k + 1, now);
    } else {
      assert conns[..k] == conns;
    }
  }

  /** The call made for the `k`-th connection, when its block exists, is the one counted
      by what was scheduled before it; what was scheduled before it is that much of the whole. */
  lemma ThrowPoint(e: Execution, c: Campaign, conns: seq<Connection>, k: nat, now: int)
    requires k < |conns| && FindBlock(c.blocks, conns[k].to).Some?
    ensures var before := ScheduleFor(e, c, conns[..k], now);
      |before| < |ScheduleFor(e, c, conns, now)| && ScheduleFor(e, c, conns, now)[..|before|] == before
  {
    ScheduleForSnoc(e, c, conns, k, now);
    ScheduleForPrefix(e, c, conns, k + 1, now);
    ScheduleForPrefix(e, c, conns, k, now);
  }

  /** `scheduleNextBlocks` as a value. */
  function NextBlocks(e: Execution, c: Campaign, now: int): (r: seq<Effect>)
    ensures |r| <= |Outgoing(c.connections, e.blockId)| <= |c.connections|
  {
    ScheduleFor(e, c, Outgoing(c.connections, e.blockId), now)
  }

  /** Everything scheduled after a block follows one of its connections to a block that
      exists, for the same enrolment, after that block's delay; and every such connection is
      followed. */
  lemma NextBlocksFollowConnections(e: Execution, c: Campaign, now: int)
    ensures var r := NextBlocks(e, c, now);
      (forall k :: 0 <= k < |r| ==>
         ScheduledAfter(r[k], e, c, now) && Connection(e.blockId, r[k].blockId) in c.connections)
      && (forall x :: x in c.connections && x.from == e.blockId && FindBlock(c.blocks, x.to).Some? ==>
            Schedules(r, x.to))
  {
    var out := Outgoing(c.connections, e.blockId);
    var r := NextBlocks(e, c, now);
    ScheduleForScheduledAfter(e, c, out, now);
    ScheduleForSound(e, c, out, now);
    ScheduleForComplete(e, c, out, now);
    forall k | 0 <= k < |r|
      ensures Connection(e.blockId, r[k].blockId) in c.connections
    {
      var i :| 0 <= i < |out| && out[i].to == r[k].blockId;
      assert out[i] in out;
      assert out[i] == Connection(e.blockId, r[k].blockId);
    }
    forall x | x in c.connections && x.from == e.blockId && FindBlock(c.blocks, x.to).Some?
      ensures Schedules(r, x.to)
    {
      assert x in out;
      var i :| 0 <= i < |out| && out[i] == x;
    }
  }

  /** A block without outgoing connections schedules nothing. */
  lemma {:induction false} LastBlockSchedulesNothing(e: Execution, c: Campaign, now: int)
    requires forall i :: 0 <= i < |c.connections| ==> c.connections[i].from != e.blockId
    ensures NextBlocks(e, c, now) == []
  {
    assert forall x :: x in c.connections ==> x.from != e.blockId;
  }

  /** What running a block did: the calls it made, and either the result it returned
      (`None` for `null`) or the message of the error it threw. */
  datatype BlockRun = BlockRun(calls: seq<Effect>, outcome: Result<Option<Outcome>>)

  /** `executeWhatsAppBlock` as written: its first statement reads `ctx.db`, which the
      context of an action does not have, so it always lands in its own `catch`. */
  function WhatsAppBlockAsWritten(block: Block, e: Execution, w: World): (r: BlockRun)
    ensures r.calls == [] && r.outcome == Ok(Some(FailedWith(NO_DB_ERROR)))
  {
    BlockRun([], Ok(Some(FailedWith(NO_DB_ERROR))))
  }

  /** `executeWhatsAppBlock` as intended: look the template up by the `templateId` of the
      block's data and schedule it to the execution's lead. The program reads `block.templateId`
      and hands the lead's id over where the lead is expected, but its run never gets that far. */
  function WhatsAppBlock(block: Block, e: Execution, w: World): (r: BlockRun)
    ensures r.outcome.Ok? && r.outcome.value.Some?
    ensures r.outcome.value.value.Succeeded? <==> block.data.templateId in w.templates
    ensures r.calls == (if block.data.templateId in w.templates
                        then [SendTemplate(e.leadId, block.data.templateId)] else [])
  {
    var id := block.data.templateId;
    if id !in w.templates then BlockRun([], Ok(Some(FailedWith("Template " + id + " not found"))))
    else BlockRun([SendTemplate(e.leadId, id)], Ok(Some(Succeeded(None))))
  }

  /** The executor as written never sends a WhatsApp message, even for a template that
      exists; the intended block sends it. */
  lemma WhatsAppBlockNeverSends(block: Block, e: Execution, w: World)
    requires block.data.templateId in w.templates
    ensures WhatsAppBlockAsWritten(block, e, w).calls == []
    ensures WhatsAppBlockAsWritten(block, e, w).outcome.value.value.FailedWith?
    ensures WhatsAppBlock(block, e, w).calls == [SendTemplate(e.leadId, block.data.templateId)]
    ensures WhatsAppBlock(block, e, w).outcome.value.value.Succeeded?
  {
  }

  /** `executeEmailBlock`: it throws when the lead is missing or has no email, and when the
      send fails; subject and body fall back to fixed defaults. */
  function EmailBlock(e: Execution, data: BlockData, w: World): (r: BlockRun)
    ensures (e.leadId !in w.leads || w.leads[e.leadId].email == "") <==> r.calls == []
    ensures r.calls == [] ==> r.outcome == Err(NO_EMAIL)
    ensures r.calls != [] ==>
      var lead := w.leads[e.leadId];
      |r.calls| == 1 && r.calls[0].SendEmail? && r.calls[0].to == lead.email
      && r.calls[0].toName != "" && r.calls[0].subject != "" && r.calls[0].htmlContent != ""
      && (r.outcome.Err? <==> e.id in w.emailErrors)
      && (r.outcome.Err? ==> r.outcome.msg == EMAIL_FAILED + w.emailErrors[e.id])
      && (r.outcome.Ok? ==> r.outcome.value == Some(Succeeded(Some("Email sent"))))
  {
    if e.leadId !in w.leads || w.leads[e.leadId].email == "" then BlockRun([], Err(NO_EMAIL))
    else
      var lead := w.leads[e.leadId];
      var call := SendEmail(lead.email, OrElse(lead.name, DEFAULT_TO_NAME), OrElse(data.subject, DEFAULT_SUBJECT),
                            OrElse(data.htmlContent, OrElse(data.message, DEFAULT_BODY)), data.textContent);
      if e.id in w.emailErrors then BlockRun([call], Err(EMAIL_FAILED + w.emailErrors[e.id]))
      else BlockRun([call], Ok(Some(Succeeded(Some("Email sent")))))
  }

  /** `executeAddTagBlock` and `executeRemoveTagBlock`: one mutation, whose error propagates. */
  function TagBlock(call: Effect, success: string, e: Execution, w: World): (r: BlockRun)
    ensures r.calls == [call]
    ensures r.outcome.Err? <==> e.id in w.tagErrors
    ensures r.outcome.Ok? ==> r.outcome.value == Some(Succeeded(Some(success)))
  {
    if e.id in w.tagErrors then BlockRun([call], Err(w.tagErrors[e.id]))
    else BlockRun([call], Ok(Some(Succeeded(Some(success)))))
  }

  /** A call a block makes itself: a send or a tag change, never a change to an execution. */
  predicate BlockCall(x: Effect) {
    x.SendTemplate? || x.SendEmail? || x.AddTag? || x.RemoveTag?
  }

  /** The dispatch on the block's type; an unknown type does nothing and returns `null`. */
  function RunBlock(v: Variant, block: Block, e: Execution, w: World): (r: BlockRun)
    ensures forall k :: 0 <= k < |r.calls| ==> BlockCall(r.calls[k])
    ensures block.kind !in {"send_whatsapp", "send_email", "wait", "add_tag", "remove_tag"} ==>
      r == BlockRun([], Ok(None))
    ensures block.kind == "wait" ==> r == BlockRun([], Ok(Some(Succeeded(Some("Wait completed")))))
    ensures block.kind == "send_whatsapp" ==>
      r == if v.AsWritten? then WhatsAppBlockAsWritten(block, e, w) else WhatsAppBlock(block, e, w)
    ensures v.AsWritten? ==> forall k :: 0 <= k < |r.calls| ==> !r.calls[k].SendTemplate?
  {
    if block.kind == "send_whatsapp" then
      if v.AsWritten? then WhatsAppBlockAsWritten(block, e, w) else WhatsAppBlock(block, e, w)
    else if block.kind == "send_email" then EmailBlock(e, block.data, w)
    else if block.kind == "wait" then BlockRun([], Ok(Some(Succeeded(Some("Wait completed")))))
    else if block.kind == "add_tag" then TagBlock(AddTag(e.leadId, block.data.tagId), "Tag added", e, w)
    else if block.kind == "remove_tag" then TagBlock(RemoveTag(e.leadId, block.data.tagId), "Tag removed", e, w)
    else BlockRun([], Ok(None))
  }

  /** One turn of the loop of `processCampaignExecutions`: mark the execution executing, stop
      with a failure when the campaign or the block is missing or the block throws, otherwise
      mark it completed and schedule the next blocks. */
  function ProcessOne(v: Variant, e: Execution, w: World, now: int): (r: seq<Effect>)
    ensures |r| >= 2 && r[0] == MarkExecuting(e.id)
  {
    [MarkExecuting(e.id)] +
    if e.campaignId !in w.campaigns then [MarkFailed(e.id, CAMPAIGN_NOT_FOUND)]
    else
      var c := w.campaigns[e.campaignId];
      match FindBlock(c.blocks, e.blockId)
      case None => [MarkFailed(e.id, BLOCK_NOT_FOUND)]
      case Some(block) => Conclude(e, c, RunBlock(v, block, e, w), w, now)
  }

  /** Scheduling the next blocks of `e` throws: one of the `scheduleExecution` calls it makes
      is the one that fails. */
  predicate SchedulingThrows(e: Execution, c: Campaign, w: World, now: int) {
    e.id in w.scheduleErrors && w.scheduleErrors[e.id].0 < |NextBlocks(e, c, now)|
  }

  /** The executions scheduling records: all of the next blocks, or those before the call that
      throws. */
  function Scheduled(e: Execution, c: Campaign, w: World, now: int): seq<Effect> {
    if SchedulingThrows(e, c, w, now) then NextBlocks(e, c, now)[..w.scheduleErrors[e.id].0]
    else NextBlocks(e, c, now)
  }

  /** What follows the completion: the scheduled executions, and, when a `scheduleExecution`
      call throws, the failure the `catch` of the loop records after the completion. */
  function AfterCompletion(e: Execution, c: Campaign, w: World, now: int): seq<Effect> {
    Scheduled(e, c, w, now) + if SchedulingThrows(e, c, w, now) then [MarkFailed(e.id, w.scheduleErrors[e.id].1)] else []
  }

  /** What follows the completion schedules executions, and at most marks this one failed. */
  lemma AfterCompletionKinds(e: Execution, c: Campaign, w: World, now: int)
    ensures var r := AfterCompletion(e, c, w, now);
      forall k :: 0 <= k < |r| ==> r[k].ScheduleExecution? || (r[k].MarkFailed? && r[k].executionId == e.id)
  {
    var sched := Scheduled(e, c, w, now);
    assert forall k :: 0 <= k < |sched| ==> sched[k] == NextBlocks(e, c, now)[k];
  }

  /** After the block ran: its calls, then the failure it threw, or its completion followed by
      the next blocks. */
  function Conclude(e: Execution, c: Campaign, run: BlockRun, w: World, now: int): (r: seq<Effect>)
    ensures |r| > |run.calls| && r[..|run.calls|] == run.calls
    ensures Ends(r[|run.calls|], e.id) && (r[|run.calls|].MarkFailed? <==> run.outcome.Err?)
  {
    run.calls +
    if run.outcome.Err? then [MarkFailed(e.id, run.outcome.msg)]
    else [MarkCompleted(e.id, run.outcome.value)] + AfterCompletion(e, c, w, now)
  }

  /** The whole loop over the due executions, in order. */
  function ProcessAll(v: Variant, pending: seq<Execution>, w: World, now: int): (r: seq<Effect>)
    ensures |r| >= 2 * |pending|
    decreases |pending|
  {
    if pending == [] then []
    else ProcessAll(v, pending[..|pending| - 1], w, now) + ProcessOne(v, pending[|pending| - 1], w, now)
  }

  lemma ProcessAllSnoc(v: Variant, pending: seq<Execution>, k: nat, w: World, now: int)
    requires k < |pending|
    ensures ProcessAll(v, pending[..k + 1], w, now) == ProcessAll(v, pending[..k], w, now) + ProcessOne(v, pending[k], w, now)
  {
    assert pending[..k + 1][..k] == pending[..k];
  }

  /** No effect of `r` sends a WhatsApp template. */
  predicate SendsNoTemplate(r: seq<Effect>) {
    forall k :: 0 <= k < |r| ==> !r[k].SendTemplate?
  }

  /** As written, a turn never sends a WhatsApp template. */
  lemma TurnAsWrittenSendsNoTemplate(e: Execution, w: World, now: int)
    ensures SendsNoTemplate(ProcessOne(AsWritten, e, w, now))
  {
    if e.campaignId in w.campaigns {
      var c := w.campaigns[e.campaignId];
      if FindBlock(c.blocks, e.blockId).Some? {
        var run := RunBlock(AsWritten, FindBlock(c.blocks, e.blockId).value, e, w);
        var after := AfterCompletion(e, c, w, now);
        AfterCompletionKinds(e, c, w, now);
        assert SendsNoTemplate(run.calls) && SendsNoTemplate(after);
        SendsNoTemplateAppend([MarkExecuting(e.id)], run.calls);
        if run.outcome.Ok? {
          SendsNoTemplateAppend([MarkCompleted(e.id, run.outcome.value)], after);
          SendsNoTemplateAppend([MarkExecuting(e.id)] + run.calls, [MarkCompleted(e.id, run.outcome.value)] + after);
        } else {
          SendsNoTemplateAppend([MarkExecuting(e.id)] + run.calls, [MarkFailed(e.id, run.outcome.msg)]);
        }
      }
    }
  }

  lemma SendsNoTemplateAppend(a: seq<Effect>, b: seq<Effect>)
    requires SendsNoTemplate(a) && SendsNoTemplate(b)
    ensures SendsNoTemplate(a + b)
  {
    assert forall k :: |a| <= k < |a + b| ==> (a + b)[k] == b[k - |a|];
  }

  /** As written, the loop never sends a WhatsApp template, whatever the campaigns hold. */
  lemma {:induction false} AsWrittenNeverSendsTemplates(pending: seq<Execution>, w: World, now: int)
    ensures SendsNoTemplate(ProcessAll(AsWritten, pending, w, now))
    decreases |pending|
  {
    if pending != [] {
      AsWrittenNeverSendsTemplates(pending[..|pending| - 1], w, now);
      TurnAsWrittenSendsNoTemplate(pending[|pending| - 1], w, now);
      SendsNoTemplateAppend(ProcessAll(AsWritten, pending[..|pending| - 1], w, now),
                            ProcessOne(AsWritten, pending[|pending| - 1], w, now));
    }
  }

  /** A missing campaign or block fails the execution and schedules nothing. */
  lemma MissingCampaignOrBlockFails(v: Variant, e: Execution, w: World, now: int)
    requires e.campaignId !in w.campaigns || FindBlock(w.campaigns[e.campaignId].blocks, e.blockId).None?
    ensures ProcessOne(v, e, w, now) == [MarkExecuting(e.id),
      MarkFailed(e.id, if e.campaignId !in w.campaigns then CAMPAIGN_NOT_FOUND else BLOCK_NOT_FOUND)]
  {
  }

  /** A block that throws fails the execution, and nothing is scheduled after it. */
  lemma ThrowingBlockStopsTheChain(v: Variant, e: Execution, w: World, now: int)
    requires e.campaignId in w.campaigns
    requires FindBlock(w.campaigns[e.campaignId].blocks, e.blockId).Some?
    requires RunBlock(v, FindBlock(w.campaigns[e.campaignId].blocks, e.blockId).value, e, w).outcome.Err?
    ensures var r := ProcessOne(v, e, w, now);
      r[|r| - 1] == MarkFailed(e.id, RunBlock(v, FindBlock(w.campaigns[e.campaignId].blocks, e.blockId).value, e, w).outcome.msg)
      && forall k :: 0 <= k < |r| ==> !r[k].ScheduleExecution?
  {
    var block := FindBlock(w.campaigns[e.campaignId].blocks, e.blockId).value;
    var run := RunBlock(v, block, e, w);
    assert forall k :: 0 <= k < |run.calls| ==> !run.calls[k].ScheduleExecution?;
  }

  /** A block of an unknown type completes with a `null` result and its successors run. */
  lemma UnknownBlockCompletes(v: Variant, e: Execution, w: World, now: int)
    requires e.campaignId in w.campaigns
    requires FindBlock(w.campaigns[e.campaignId].blocks, e.blockId).Some?
    requires FindBlock(w.campaigns[e.campaignId].blocks, e.blockId).value.kind
             !in {"send_whatsapp", "send_email", "wait", "add_tag", "remove_tag"}
    ensures ProcessOne(v, e, w, now) ==
      [MarkExecuting(e.id), MarkCompleted(e.id, None)] + AfterCompletion(e, w.campaigns[e.campaignId], w, now)
  {
    var c := w.campaigns[e.campaignId];
    var block := FindBlock(c.blocks, e.blockId).value;
    ProcessOneFound(v, e, w, now);
    var run := RunBlock(v, block, e, w);
    assert run == BlockRun([], Ok(None));
    ConcludeCompleted(e, c, run, w, now);
    AppendAssoc([MarkExecuting(e.id)], [MarkCompleted(e.id, None)], AfterCompletion(e, c, w, now));
    assert [MarkExecuting(e.id)] + [MarkCompleted(e.id, None)] == [MarkExecuting(e.id), MarkCompleted(e.id, None)];
  }

  /** A block that made no calls and completed is followed by its completion and the next
      blocks. */
  lemma ConcludeCompleted(e: Execution, c: Campaign, run: BlockRun, w: World, now: int)
    requires run.calls == [] && run.outcome.Ok?
    ensures Conclude(e, c, run, w, now) == [MarkCompleted(e.id, run.outcome.value)] + AfterCompletion(e, c, w, now)
  {
    var tail := [MarkCompleted(e.id, run.outcome.value)] + AfterCompletion(e, c, w, now);
    assert run.calls + tail == tail;
  }

  /** With the campaign and the block found, the turn is the block's run and its conclusion. */
  lemma ProcessOneFound(v: Variant, e: Execution, w: World, now: int)
    requires e.campaignId in w.campaigns
    requires FindBlock(w.campaigns[e.campaignId].blocks, e.blockId).Some?
    ensures ProcessOne(v, e, w, now) == [MarkExecuting(e.id)] +
      Conclude(e, w.campaigns[e.campaignId],
               RunBlock(v, FindBlock(w.campaigns[e.campaignId].blocks, e.blockId).value, e, w), w, now)
  {
  }

  /** Whether an effect ends the execution `id`, as completed or failed. */
  predicate Ends(x: Effect, id: ExecutionId) {
    (x.MarkFailed? || x.MarkCompleted?) && x.executionId == id
  }

  /** The number of effects that end the execution `id`. */
  function EndsOf(effects: seq<Effect>, id: ExecutionId): nat
    decreases |effects|
  {
    if effects == [] then 0
    else EndsOf(effects[..|effects| - 1], id) + (if Ends(effects[|effects| - 1], id) then 1 else 0)
  }

  lemma {:induction false} EndsOfAppend(a: seq<Effect>, b: seq<Effect>, id: ExecutionId)
    ensures EndsOf(a + b, id) == EndsOf(a, id) + EndsOf(b, id)
    decreases |b|
  {
    if b == [] {
      assert a + b == a;
    } else {
      var ab := a + b;
      assert ab[..|ab| - 1] == a + b[..|b| - 1];
      assert ab[|ab| - 1] == b[|b| - 1];
      EndsOfAppend(a, b[..|b| - 1], id);
    }
  }

  lemma {:induction false} EndsOfNone(effects: seq<Effect>, id: ExecutionId)
    requires forall k :: 0 <= k < |effects| ==> !Ends(effects[k], id)
    ensures EndsOf(effects, id) == 0
    decreases |effects|
  {
    if effects != [] {
      EndsOfNone(effects[..|effects| - 1], id);
    }
  }

  lemma EndsOfOne(x: Effect, id: ExecutionId)
    ensures EndsOf([x], id) == if Ends(x, id) then 1 else 0
  {
    assert [x][..0] == [];
  }

  /** What follows the completion ends the execution once more exactly when scheduling throws. */
  lemma AfterCompletionEnds(e: Execution, c: Campaign, w: World, now: int, id: ExecutionId)
    ensures EndsOf(AfterCompletion(e, c, w, now), id) == if id == e.id && SchedulingThrows(e, c, w, now) then 1 else 0
  {
    var sched := Scheduled(e, c, w, now);
    var next := NextBlocks(e, c, now);
    assert forall k :: 0 <= k < |sched| ==> sched[k] == next[k] && next[k].ScheduleExecution?;
    EndsOfNone(sched, id);
    if SchedulingThrows(e, c, w, now) {
      var last := MarkFailed(e.id, w.scheduleErrors[e.id].1);
      EndsOfOne(last, id);
      EndsOfAppend(sched, [last], id);
    } else {
      assert AfterCompletion(e, c, w, now) == sched;
    }
  }

  /** After the block ran, one effect ends its execution, and a second when scheduling
      throws after the execution was marked completed. */
  lemma ConcludeEnds(e: Execution, c: Campaign, run: BlockRun, w: World, now: int, id: ExecutionId)
    requires forall k :: 0 <= k < |run.calls| ==> BlockCall(run.calls[k])
    ensures EndsOf(Conclude(e, c, run, w, now), id) ==
      if id != e.id then 0 else if run.outcome.Ok? && SchedulingThrows(e, c, w, now) then 2 else 1
  {
    EndsOfNone(run.calls, id);
    if run.outcome.Err? {
      var last := MarkFailed(e.id, run.outcome.msg);
      EndsOfOne(last, id);
      EndsOfAppend(run.calls, [last], id);
    } else {
      var first := MarkCompleted(e.id, run.outcome.value);
      var after := AfterCompletion(e, c, w, now);
      EndsOfOne(first, id);
      AfterCompletionEnds(e, c, w, now, id);
      EndsOfAppend([first], after, id);
      EndsOfAppend(run.calls, [first] + after, id);
    }
  }

  /** The turn of `e` marked it completed, and then scheduling its next blocks threw. */
  predicate ThrowsAfterCompleting(v: Variant, e: Execution, w: World, now: int) {
    e.campaignId in w.campaigns
    && FindBlock(w.campaigns[e.campaignId].blocks, e.blockId).Some?
    && RunBlock(v, FindBlock(w.campaigns[e.campaignId].blocks, e.blockId).value, e, w).outcome.Ok?
    && SchedulingThrows(e, w.campaigns[e.campaignId], w, now)
  }

  /** Each turn ends its own execution and no other: once, or twice (completed, then failed)
      when scheduling throws after the completion. */
  lemma TurnEnds(v: Variant, e: Execution, w: World, now: int, id: ExecutionId)
    ensures EndsOf(ProcessOne(v, e, w, now), id) ==
      if id != e.id then 0 else if ThrowsAfterCompleting(v, e, w, now) then 2 else 1
  {
    var first := MarkExecuting(e.id);
    EndsOfOne(first, id);
    if e.campaignId !in w.campaigns {
      var rest := [MarkFailed(e.id, CAMPAIGN_NOT_FOUND)];
      EndsOfOne(rest[0], id);
      EndsOfAppend([first], rest, id);
    } else {
      var c := w.campaigns[e.campaignId];
      match FindBlock(c.blocks, e.blockId)
      case None =>
        var rest := [MarkFailed(e.id, BLOCK_NOT_FOUND)];
        EndsOfOne(rest[0], id);
        EndsOfAppend([first], rest, id);
      case Some(block) =>
        var rest := Conclude(e, c, RunBlock(v, block, e, w), w, now);
        ConcludeEnds(e, c, RunBlock(v, block, e, w), w, now, id);
        EndsOfAppend([first], rest, id);
    }
  }

  /** The loop goes on past every failure: with distinct ids, each due execution is ended
      once, or twice when scheduling throws after its completion. */
  lemma {:induction false} EveryExecutionEnds(v: Variant, pending: seq<Execution>, w: World, now: int, k: nat)
    requires forall i, j :: 0 <= i < j < |pending| ==> pending[i].id != pending[j].id
    requires k < |pending|
    ensures EndsOf(ProcessAll(v, pending, w, now), pending[k].id) ==
      if ThrowsAfterCompleting(v, pending[k], w, now) then 2 else 1
    decreases |pending|
  {
    var init := pending[..|pending| - 1];
    var last := pending[|pending| - 1];
    EndsOfAppend(ProcessAll(v, init, w, now), ProcessOne(v, last, w, now), pending[k].id);
    TurnEnds(v, last, w, now, pending[k].id);
    if k < |pending| - 1 {
      EveryExecutionEnds(v, init, w, now, k);
    } else {
      EndsNotYet(v, init, w, now, last.id);
    }
  }

  /** When no scheduling call of a due execution throws, it is ended exactly once. */
  lemma EveryExecutionEndsOnce(v: Variant, pending: seq<Execution>, w: World, now: int, k: nat)
    requires forall i, j :: 0 <= i < j < |pending| ==> pending[i].id != pending[j].id
    requires k < |pending| && pending[k].id !in w.scheduleErrors
    ensures EndsOf(ProcessAll(v, pending, w, now), pending[k].id) == 1
  {
    EveryExecutionEnds(v, pending, w, now, k);
  }

  lemma {:induction false} EndsNotYet(v: Variant, pending: seq<Execution>, w: World, now: int, id: ExecutionId)
    requires forall i :: 0 <= i < |pending| ==> pending[i].id != id
    ensures EndsOf(ProcessAll(v, pending, w, now), id) == 0
    decreases |pending|
  {
    if pending != [] {
      var init := pending[..|pending| - 1];
      EndsOfAppend(ProcessAll(v, init, w, now), ProcessOne(v, pending[|pending| - 1], w, now), id);
      TurnEnds(v, pending[|pending| - 1], w, now, id);
      EndsNotYet(v, init, w, now, id);
    }
  }

  /** `message.replace(/\{\{name\}\}/g, …)` and the same for company and subject; a `$`
      pattern in a value is expanded as JavaScript's `replace` does. */
  function Personalize(content: string, name: string, company: string, subject: string): string {
    var m := Replace(content, "{{name}}", name);
    var m := Replace(m, "{{company}}", company);
    Replace(m, "{{subject}}", subject)
  }

  /** A message without placeholders is left as it is. */
  lemma PersonalizeWithoutPlaceholders(content: string, name: string, company: string, subject: string)
    requires !Contains(content, "{{name}}") && !Contains(content, "{{company}}") && !Contains(content, "{{subject}}")
    ensures Personalize(content, name, company, subject) == content
  {
    ReplaceAbsent(content, "{{name}}", name);
    ReplaceAbsent(content, "{{company}}", company);
    ReplaceAbsent(content, "{{subject}}", subject);
  }

  /** Values without `$` go in as they are, each placeholder replaced by its value. */
  lemma PersonalizeLiteral(content: string, name: string, company: string, subject: string)
    requires '$' !in name && '$' !in company && '$' !in subject
    ensures Personalize(content, name, company, subject) ==
      ReplaceAll(ReplaceAll(ReplaceAll(content, "{{name}}", name), "{{company}}", company), "{{subject}}", subject)
  {
    var m1 := Replace(content, "{{name}}", name);
    ReplaceLiteral(content, "{{name}}", name);
    ReplaceLiteral(m1, "{{company}}", company);
    ReplaceLiteral(Replace(m1, "{{company}}", company), "{{subject}}", subject);
  }

  /** The sequence of calls `processCampaignExecutions` has made so far. */
  class ExecutorLog {
    var effects: seq<Effect>

    constructor ()
      ensures effects == []
    {
      effects := [];
    }

    /** `scheduleNextBlocks`: it returns the message of the `scheduleExecution` call that
        threw, if one did, after the calls before it. */
    method ScheduleNextBlocks(e: Execution, c: Campaign, w: World, now: int) returns (thrown: Option<string>)
      modifies this
      ensures effects == old(effects) + Scheduled(e, c, w, now)
      ensures thrown.Some? <==> SchedulingThrows(e, c, w, now)
      ensures thrown.Some? ==> thrown.value == w.scheduleErrors[e.id].1
    {
      var nextConnections := Outgoing(c.connections, e.blockId);
      var failAt := if e.id in w.scheduleErrors then Some(w.scheduleErrors[e.id].0) else None;
      var threw := ScheduleEach(e, c, nextConnections, failAt, now);
      thrown := if threw then Some(w.scheduleErrors[e.id].1) else None;
    }

    /** The loop of `scheduleNextBlocks` over `conns`, where the call counted `failAt` (from 0),
        if any, throws. */
    method ScheduleEach(e: Execution, c: Campaign, conns: seq<Connection>, failAt: Option<nat>, now: int)
      returns (threw: bool)
      modifies this
      ensures threw <==> failAt.Some? && failAt.value < |ScheduleFor(e, c, conns, now)|
      ensures threw ==> effects == old(effects) + ScheduleFor(e, c, conns, now)[..failAt.value]
      ensures !threw ==> effects == old(effects) + ScheduleFor(e, c, conns, now)
    {
      var made := 0;
      var k := 0;
      assert ScheduleFor(e, c, conns[..0], now) == [];
      assert effects == old(effects) + [];
      while k < |conns|
        invariant 0 <= k <= |conns|
        invariant effects == old(effects) + ScheduleFor(e, c, conns[..k], now)
        invariant made == |ScheduleFor(e, c, conns[..k], now)|
        invariant !(failAt.Some? && failAt.value < made)
      {
        var conn := conns[k];
        ghost var before := effects;
        threw := ScheduleConnection(e, c, conn, now, failAt == Some(made));
        if threw {
          ThrowPoint(e, c, conns, k, now);
          return;
        }
        var one := ScheduleOne(e, c, conn, now);
        ScheduleForSnoc(e, c, conns, k, now);
        AppendAssoc(old(effects), ScheduleFor(e, c, conns[..k], now), one);
        made := made + |one|;
        k := k + 1;
      }
      assert conns[..k] == conns;
      threw := false;
    }

    /** One turn of the loop of `scheduleNextBlocks`; when `fails`, its `scheduleExecution`
        call throws and records nothing. */
    method ScheduleConnection(e: Execution, c: Campaign, conn: Connection, now: int, fails: bool)
      returns (threw: bool)
      modifies this
      ensures threw <==> fails && FindBlock(c.blocks, conn.to).Some?
      ensures threw ==> effects == old(effects)
      ensures !threw ==> effects == old(effects) + ScheduleOne(e, c, conn, now)
    {
      var nextBlock := FindBlock(c.blocks, conn.to);
      if nextBlock.None? {
        assert effects + [] == effects;
        return false;
      }
      var delay := WaitDelay(nextBlock.value);
      if fails {
        return true;
      }
      effects := effects + [ScheduleExecution(e.campaignId, e.enrollmentId, e.leadId, conn.to, now + delay)];
      return false;
    }

    /** The body of the loop of `processCampaignExecutions`, its `catch` included. */
    method ProcessExecution(v: Variant, e: Execution, w: World, now: int)
      modifies this
      ensures effects == old(effects) + ProcessOne(v, e, w, now)
    {
      effects := effects + [MarkExecuting(e.id)];
      if e.campaignId !in w.campaigns {
        effects := effects + [MarkFailed(e.id, CAMPAIGN_NOT_FOUND)];
        return;
      }
      var campaign := w.campaigns[e.campaignId];
      var block := FindBlock(campaign.blocks, e.blockId);
      if block.None? {
        effects := effects + [MarkFailed(e.id, BLOCK_NOT_FOUND)];
        return;
      }
      ProcessOneFound(v, e, w, now);
      ghost var started := effects;
      RunAndConclude(v, e, campaign, block.value, w, now);
      AppendAssoc(old(effects), [MarkExecuting(e.id)], Conclude(e, campaign, RunBlock(v, block.value, e, w), w, now));
    }

    /** Run the block found for `e` and record how it ended. */
    method RunAndConclude(v: Variant, e: Execution, c: Campaign, block: Block, w: World, now: int)
      modifies this
      ensures effects == old(effects) + Conclude(e, c, RunBlock(v, block, e, w), w, now)
    {
      var run := RunBlock(v, block, e, w);
      ghost var start := effects;
      effects := effects + run.calls;
      if run.outcome.Err? {
        effects := effects + [MarkFailed(e.id, run.outcome.msg)];
        AppendAssoc(start, run.calls, [MarkFailed(e.id, run.outcome.msg)]);
        return;
      }
      Complete(e, c, run.outcome.value, w, now);
      ghost var completed := [MarkCompleted(e.id, run.outcome.value)];
      ghost var after := AfterCompletion(e, c, w, now);
      AppendAssoc(start + run.calls, completed, after);
      AppendAssoc(start, run.calls, completed + after);
    }

    /** The end of the `try` of the loop: mark the execution completed and schedule its next
        blocks; an error they throw is recorded by the `catch`. */
    method Complete(e: Execution, c: Campaign, result: Option<Outcome>, w: World, now: int)
      modifies this
      ensures effects == old(effects) + [MarkCompleted(e.id, result)] + AfterCompletion(e, c, w, now)
    {
      effects := effects + [MarkCompleted(e.id, result)];
      var thrown := ScheduleNextBlocks(e, c, w, now);
      if thrown.Some? {
        effects := effects + [MarkFailed(e.id, thrown.value)];
      }
    }

    /** `processCampaignExecutions` over the executions its query found due. */
    method ProcessCampaignExecutions(v: Variant, pending: seq<Execution>, w: World, now: int)
      modifies this
      ensures effects == old(effects) + ProcessAll(v, pending, w, now)
    {
      var k := 0;
      while k < |pending|
        invariant 0 <= k <= |pending|
        invariant effects == old(effects) + ProcessAll(v, pending[..k], w, now)
      {
        ProcessAllSnoc(v, pending, k, w, now);
        ghost var before := effects;
        ProcessExecution(v, pending[k], w, now);
        assert effects == before + ProcessOne(v, pending[k], w, now);
        AppendAssoc(old(effects), ProcessAll(v, pending[..k], w, now), ProcessOne(v, pending[k], w, now));
        k := k + 1;
      }
      assert pending[..k] == pending;
    }
  }
}
