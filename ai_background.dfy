/** Background AI processing of all leads: a first pass over the lead table in batches (one
    lead per Gemini key per batch), a retry pass over the leads that failed, and a stop flag
    that is read before every batch and before every retry.

    What the Gemini calls and the stores do for a lead is the oracle `succeeds(lead, attempt)`
    (attempt 0 is the first pass, 1 the retry); the answer of the `n`-th read of the stop flag
    is `stopAt(n)`. */
module AiBackground {
  import opened Common

  type LeadId = nat

  const JSON_FENCE := "```json"
  const FENCE := "```"

  /** `pat` occurs in `s` at position `k`. */
  predicate OccursAt(s: string, pat: string, k: nat) {
    k + |pat| <= |s| && s[k..k + |pat|] == pat
  }

  /** The first position at or after `from` where `pat` occurs in `s`. */
  function IndexOf(s: string, pat: string, from: nat): (r: Option<nat>)
    decreases |s| - from
    ensures r.Some? ==> from <= r.value && OccursAt(s, pat, r.value)
    ensures r.Some? ==> forall k :: from <= k < r.value ==> !OccursAt(s, pat, k)
    ensures r.None? ==> forall k :: from <= k ==> !OccursAt(s, pat, k)
  {
    if from + |pat| > |s| then None
    else if s[from..from + |pat|] == pat then Some(from)
    else IndexOf(s, pat, from + 1)
  }

  /** `extractJsonFromMarkdown`: the text between the first "```json" and the next "```",
      or the whole text when there is no such fenced block. */
  function ExtractJsonFromMarkdown(text: string): (r: string)
    ensures |r| <= |text|
    ensures IndexOf(text, JSON_FENCE, 0).None? ==> r == text
  {
    match IndexOf(text, JSON_FENCE, 0)
    case None => text
    case Some(i) =>
      match IndexOf(text, FENCE, i + |JSON_FENCE|)
      case None => text
      case Some(j) => text[i + |JSON_FENCE|..j]
  }

  predicate NoBacktick(s: string) {
    forall k :: 0 <= k < |s| ==> s[k] != '`'
  }

  /** The first occurrence of a pattern that starts with a backtick, after a prefix without
      backticks, is at the end of that prefix. */
  lemma FirstAfterPlain(s: string, pat: string, from: nat, plain: nat)
    requires |pat| > 0 && pat[0] == '`' && from <= plain && OccursAt(s, pat, plain)
    requires forall k :: from <= k < plain ==> s[k] != '`'
    ensures IndexOf(s, pat, from) == Some(plain)
  {
    forall k | from <= k < plain
      ensures !OccursAt(s, pat, k)
    {
      if k + |pat| <= |s| {
        assert s[k..k + |pat|][0] == s[k];
      }
    }
  }

  /** A reply that wraps a backtick-free JSON body in a "```json" fence, after backtick-free
      text, gives back exactly the body. */
  lemma ExtractFencedBody(pre: string, body: string, post: string)
    requires NoBacktick(pre) && NoBacktick(body)
    ensures ExtractJsonFromMarkdown(pre + JSON_FENCE + body + FENCE + post) == body
  {
    var s := pre + JSON_FENCE + body + FENCE + post;
    var i := |pre|;
    var j := |pre| + |JSON_FENCE| + |body|;
    assert OccursAt(s, JSON_FENCE, i) by { assert s[i..i + |JSON_FENCE|] == JSON_FENCE; }
    FirstAfterPlain(s, JSON_FENCE, 0, i);
    assert OccursAt(s, FENCE, j) by { assert s[j..j + |FENCE|] == FENCE; }
    forall k | i + |JSON_FENCE| <= k < j
      ensures s[k] != '`'
    {
      assert s[k] == body[k - i - |JSON_FENCE|];
    }
    FirstAfterPlain(s, FENCE, i + |JSON_FENCE|, j);
    assert s[i + |JSON_FENCE|..j] == body;
  }

  /** The score stored for a lead. */
  datatype AiScore = AiScore(score: int, tier: string, rationale: string)

  const FALLBACK_SCORE := AiScore(50, "Medium", "Unable to generate AI score")

  /** The score parsed from the model's reply; `parse` is `JSON.parse` (None when it throws). */
  function ScoreOf(reply: string, parse: string -> Option<AiScore>): (s: AiScore)
    ensures parse(ExtractJsonFromMarkdown(reply)).None? ==> s == FALLBACK_SCORE
  {
    match parse(ExtractJsonFromMarkdown(reply))
    case None => FALLBACK_SCORE
    case Some(parsed) => parsed
  }

  /** A fenced reply is scored from its body, and falls back to 50/"Medium" when the body does
      not parse. */
  lemma FencedReplyScore(pre: string, body: string, post: string, parse: string -> Option<AiScore>)
    requires NoBacktick(pre) && NoBacktick(body)
    ensures ScoreOf(pre + JSON_FENCE + body + FENCE + post, parse) ==
      if parse(body).Some? then parse(body).value else FALLBACK_SCORE
  {
    ExtractFencedBody(pre, body, post);
  }

  /** The batch `getLeadsForBatchInternal` returns: up to `limit` leads from `offset`. */
  function Batch(table: seq<LeadId>, offset: nat, limit: nat): (b: seq<LeadId>)
    requires offset <= |table|
    ensures |b| <= limit && offset + |b| <= |table|
    ensures b == [] <==> offset == |table| || limit == 0
  {
    table[offset..if offset + limit <= |table| then offset + limit else |table|]
  }

  /** The leads of `batch` whose first attempt succeeds, counted, and those that fail, in order. */
  function Successes(batch: seq<LeadId>, succeeds: (LeadId, nat) -> bool): (n: nat)
    ensures n <= |batch|
  {
    if batch == [] then 0
    else Successes(batch[..|batch| - 1], succeeds) + if succeeds(batch[|batch| - 1], 0) then 1 else 0
  }

  function Failures(batch: seq<LeadId>, succeeds: (LeadId, nat) -> bool): (f: seq<LeadId>)
    ensures Successes(batch, succeeds) + |f| == |batch|
  {
    if batch == [] then []
    else
      var last := batch[|batch| - 1];
      Failures(batch[..|batch| - 1], succeeds) + if succeeds(last, 0) then [] else [last]
  }

  /** The retry queue gets exactly the leads of the batch whose first attempt failed. */
  lemma {:induction false} FailuresFailed(batch: seq<LeadId>, succeeds: (LeadId, nat) -> bool)
    ensures forall x :: x in Failures(batch, succeeds) <==> x in batch && !succeeds(x, 0)
  {
    if batch != [] {
      var init := batch[..|batch| - 1];
      FailuresFailed(init, succeeds);
      assert batch == init + [batch[|batch| - 1]];
    }
  }

  /** The state of the first pass: leads processed, the retry queue, reads of the stop flag so
      far, and whether it was stopped. */
  datatype Pass = Pass(processed: nat, queue: seq<LeadId>, flagReads: nat, stopped: bool)

  /** The first pass from `offset` on, from state `p`. */
  function FirstPass(table: seq<LeadId>, numKeys: nat, succeeds: (LeadId, nat) -> bool, stopAt: nat -> bool,
                     offset: nat, p: Pass): (q: Pass)
    requires offset <= |table|
    decreases |table| - offset
    ensures q.flagReads > p.flagReads
  {
    if stopAt(p.flagReads) then p.(flagReads := p.flagReads + 1, stopped := true)
    else
      var batch := Batch(table, offset, numKeys);
      if batch == [] then p.(flagReads := p.flagReads + 1)
      else
        FirstPass(table, numKeys, succeeds, stopAt, offset + |batch|,
                  Pass(p.processed + Successes(batch, succeeds), p.queue + Failures(batch, succeeds), p.flagReads + 1, p.stopped))
  }

  /** No read of the stop flag from `from` to `from + n` (excluded) asks to stop. */
  predicate NoStop(stopAt: nat -> bool, from: nat, n: nat) {
    forall k :: from <= k < from + n ==> !stopAt(k)
  }

  /** The retry pass over `queue` from position `i` on, the read of the stop flag before
      position `i` being read number `flagReads + i`: how many leads it processed and how many
      failed again. */
  function RetryFrom(queue: seq<LeadId>, i: nat, succeeds: (LeadId, nat) -> bool, stopAt: nat -> bool, flagReads: nat)
    : (r: (nat, nat))
    requires i <= |queue|
    ensures r.0 + r.1 <= |queue| - i
    decreases |queue| - i
  {
    if i == |queue| || stopAt(flagReads + i) then (0, 0)
    else
      var rest := RetryFrom(queue, i + 1, succeeds, stopAt, flagReads);
      if succeeds(queue[i], 1) then (rest.0 + 1, rest.1) else (rest.0, rest.1 + 1)
  }

  /** The whole retry pass. */
  function Retry(queue: seq<LeadId>, succeeds: (LeadId, nat) -> bool, stopAt: nat -> bool, flagReads: nat): (r: (nat, nat))
    ensures r.0 + r.1 <= |queue|
  {
    RetryFrom(queue, 0, succeeds, stopAt, flagReads)
  }

  /** The retry pass counts every queued lead exactly when no stop is asked for during it. */
  lemma RetryCountsAllIffNoStop(queue: seq<LeadId>, succeeds: (LeadId, nat) -> bool, stopAt: nat -> bool, flagReads: nat)
    ensures var r := Retry(queue, succeeds, stopAt, flagReads);
      r.0 + r.1 == |queue| <==> NoStop(stopAt, flagReads, |queue|)
  {
    RetryFromCountsAll(queue, 0, succeeds, stopAt, flagReads);
  }

  lemma {:induction false} RetryFromCountsAll(queue: seq<LeadId>, i: nat, succeeds: (LeadId, nat) -> bool,
                                              stopAt: nat -> bool, flagReads: nat)
    requires i <= |queue|
    ensures var r := RetryFrom(queue, i, succeeds, stopAt, flagReads);
      r.0 + r.1 == |queue| - i <==> NoStop(stopAt, flagReads + i, |queue| - i)
    decreases |queue| - i
  {
    if i < |queue| && !stopAt(flagReads + i) {
      RetryFromCountsAll(queue, i + 1, succeeds, stopAt, flagReads);
      assert NoStop(stopAt, flagReads + i, |queue| - i) <==> NoStop(stopAt, flagReads + i + 1, |queue| - i - 1);
    } else if i < |queue| {
      assert !NoStop(stopAt, flagReads + i, |queue| - i);
    }
  }

  datatype BatchResult = BatchResult(processed: nat, failed: nat, total: nat, stopped: bool)

  /** `batchProcessLeadsBackground`'s result, and whether it deletes the control record. */
  function BatchProcess(table: seq<LeadId>, numKeys: nat, succeeds: (LeadId, nat) -> bool, stopAt: nat -> bool)
    : (r: (BatchResult, bool))
    ensures r.0.total == r.0.processed + r.0.failed
    ensures r.1 <==> !r.0.stopped
  {
    var p := FirstPass(table, numKeys, succeeds, stopAt, 0, Pass(0, [], 0, false));
    if p.stopped then (BatchResult(p.processed, |p.queue|, p.processed + |p.queue|, true), false)
    else
      var retry := Retry(p.queue, succeeds, stopAt, p.flagReads);
      (BatchResult(p.processed + retry.0, retry.1, p.processed + retry.0 + retry.1, false), true)
  }

  /** Without a stop, the first pass handles every lead from `offset` on once: each is
      processed or queued for retry. */
  lemma {:induction false} FirstPassCoversTable(table: seq<LeadId>, numKeys: nat, succeeds: (LeadId, nat) -> bool,
                                                stopAt: nat -> bool, offset: nat, p: Pass)
    requires offset <= |table| && numKeys > 0
    requires forall k :: !stopAt(k)
    ensures var q := FirstPass(table, numKeys, succeeds, stopAt, offset, p);
      q.processed + |q.queue| == p.processed + |p.queue| + |table| - offset
      && q.stopped == p.stopped
    decreases |table| - offset
  {
    var batch := Batch(table, offset, numKeys);
    if batch != [] {
      FirstPassCoversTable(table, numKeys, succeeds, stopAt, offset + |batch|,
                           Pass(p.processed + Successes(batch, succeeds), p.queue + Failures(batch, succeeds), p.flagReads + 1, p.stopped));
    }
  }

  /** With keys and no stop request, every lead of the table is counted once, as processed or
      as failed after its retry, and the control record is deleted. */
  lemma NoStopCountsEveryLead(table: seq<LeadId>, numKeys: nat, succeeds: (LeadId, nat) -> bool, stopAt: nat -> bool)
    requires numKeys > 0 && forall k :: !stopAt(k)
    ensures BatchProcess(table, numKeys, succeeds, stopAt).0.total == |table|
    ensures !BatchProcess(table, numKeys, succeeds, stopAt).0.stopped
    ensures BatchProcess(table, numKeys, succeeds, stopAt).1
  {
    FirstPassCoversTable(table, numKeys, succeeds, stopAt, 0, Pass(0, [], 0, false));
    var p := FirstPass(table, numKeys, succeeds, stopAt, 0, Pass(0, [], 0, false));
    assert NoStop(stopAt, p.flagReads, |p.queue|);
    RetryCountsAllIffNoStop(p.queue, succeeds, stopAt, p.flagReads);
  }

  /** A stop during the retry pass ends it early, yet the run reports it as not stopped,
      deletes the control record, and leaves the leads not yet retried out of every count. */
  lemma StopDuringRetryDropsQueued(table: seq<LeadId>, numKeys: nat, succeeds: (LeadId, nat) -> bool, stopAt: nat -> bool)
    requires var p := FirstPass(table, numKeys, succeeds, stopAt, 0, Pass(0, [], 0, false));
      !p.stopped && !NoStop(stopAt, p.flagReads, |p.queue|)
    ensures var p := FirstPass(table, numKeys, succeeds, stopAt, 0, Pass(0, [], 0, false));
      var r := BatchProcess(table, numKeys, succeeds, stopAt);
      !r.0.stopped && r.1 && r.0.total < p.processed + |p.queue|
  {
    var p := FirstPass(table, numKeys, succeeds, stopAt, 0, Pass(0, [], 0, false));
    RetryCountsAllIffNoStop(p.queue, succeeds, stopAt, p.flagReads);
  }

  /** `batchProcessLeadsBackground`: the first pass, then, unless it was stopped, the retry
      pass and the deletion of the control record. */
  method BatchProcessLeadsBackground(table: seq<LeadId>, numKeys: nat, succeeds: (LeadId, nat) -> bool, stopAt: nat -> bool)
    returns (r: BatchResult, controlDeleted: bool)
    ensures (r, controlDeleted) == BatchProcess(table, numKeys, succeeds, stopAt)
  {
    var totalFailed := 0;
    var pass := ProcessAllBatches(table, numKeys, succeeds, stopAt);
    if pass.stopped {
      r := BatchResult(pass.processed, totalFailed + |pass.queue|, pass.processed + totalFailed + |pass.queue|, true);
      return r, false;
    }
    var retriedOk, retriedFailed := RetryFailedLeads(pass.queue, succeeds, stopAt, pass.flagReads);
    var totalProcessed := pass.processed + retriedOk;
    totalFailed := totalFailed + retriedFailed;
    r := BatchResult(totalProcessed, totalFailed, totalProcessed + totalFailed, false);
    controlDeleted := true;
  }

  /** The first pass: one read of the stop flag per batch, then the batch, lead by lead, until
      a stop or an empty batch. */
  method ProcessAllBatches(table: seq<LeadId>, numKeys: nat, succeeds: (LeadId, nat) -> bool, stopAt: nat -> bool)
    returns (pass: Pass)
    ensures pass == FirstPass(table, numKeys, succeeds, stopAt, 0, Pass(0, [], 0, false))
  {
    var offset := 0;
    var totalProcessed: nat := 0;
    var failedLeads: seq<LeadId> := [];
    var flagReads := 0;
    ghost var goal := FirstPass(table, numKeys, succeeds, stopAt, 0, Pass(0, [], 0, false));
    while true
      invariant offset <= |table|
      invariant FirstPass(table, numKeys, succeeds, stopAt, offset, Pass(totalProcessed, failedLeads, flagReads, false)) == goal
      decreases |table| - offset
    {
      var done;
      done, offset, totalProcessed, failedLeads, flagReads :=
        BatchRound(table, numKeys, succeeds, stopAt, offset, totalProcessed, failedLeads, flagReads);
      if done.Some? {
        return done.value;
      }
    }
  }

  /** One round of the first pass: read the stop flag, fetch the batch at `offset` and
      process it. `done` is the pass's result when the round ends it. */
  method BatchRound(table: seq<LeadId>, numKeys: nat, succeeds: (LeadId, nat) -> bool, stopAt: nat -> bool,
                    offset: nat, totalProcessed: nat, failedLeads: seq<LeadId>, flagReads: nat)
    returns (done: Option<Pass>, offset': nat, totalProcessed': nat, failedLeads': seq<LeadId>, flagReads': nat)
    requires offset <= |table|
    ensures done.Some? ==>
      done.value == FirstPass(table, numKeys, succeeds, stopAt, offset, Pass(totalProcessed, failedLeads, flagReads, false))
    ensures done.None? ==> offset < offset' <= |table|
    ensures done.None? ==>
      FirstPass(table, numKeys, succeeds, stopAt, offset', Pass(totalProcessed', failedLeads', flagReads', false))
      == FirstPass(table, numKeys, succeeds, stopAt, offset, Pass(totalProcessed, failedLeads, flagReads, false))
  {
    var shouldStop := stopAt(flagReads);
    flagReads' := flagReads + 1;
    offset', totalProcessed', failedLeads' := offset, totalProcessed, failedLeads;
    if shouldStop {
      return Some(Pass(totalProcessed, failedLeads, flagReads', true)), offset', totalProcessed', failedLeads', flagReads';
    }
    var leads := Batch(table, offset, numKeys);
    if leads == [] {
      return Some(Pass(totalProcessed, failedLeads, flagReads', false)), offset', totalProcessed', failedLeads', flagReads';
    }
    var ok, failures := ProcessBatch(leads, succeeds);
    totalProcessed', failedLeads' := totalProcessed + ok, failedLeads + failures;
    offset' := offset + |leads|;
    done := None;
    FirstPassRound(table, numKeys, succeeds, stopAt, offset, Pass(totalProcessed, failedLeads, flagReads, false));
  }

  /** A round that neither stops nor finds an empty batch goes on from the next offset. */
  lemma FirstPassRound(table: seq<LeadId>, numKeys: nat, succeeds: (LeadId, nat) -> bool, stopAt: nat -> bool,
                       offset: nat, p: Pass)
    requires offset <= |table| && !stopAt(p.flagReads) && Batch(table, offset, numKeys) != []
    ensures var batch := Batch(table, offset, numKeys);
      FirstPass(table, numKeys, succeeds, stopAt, offset, p)
      == FirstPass(table, numKeys, succeeds, stopAt, offset + |batch|,
                   Pass(p.processed + Successes(batch, succeeds), p.queue + Failures(batch, succeeds), p.flagReads + 1, p.stopped))
  {
  }

  /** The retry pass: before each queued lead the stop flag is read, and a stop ends the pass;
      otherwise the lead's second attempt counts it as processed or as failed. */
  method RetryFailedLeads(failedLeads: seq<LeadId>, succeeds: (LeadId, nat) -> bool, stopAt: nat -> bool, flagReads: nat)
    returns (processed: nat, failed: nat)
    ensures (processed, failed) == Retry(failedLeads, succeeds, stopAt, flagReads)
  {
    processed, failed := 0, 0;
    var i := 0;
    while i < |failedLeads|
      invariant 0 <= i <= |failedLeads|
      invariant Retry(failedLeads, succeeds, stopAt, flagReads) ==
        (processed + RetryFrom(failedLeads, i, succeeds, stopAt, flagReads).0,
         failed + RetryFrom(failedLeads, i, succeeds, stopAt, flagReads).1)
    {
      if stopAt(flagReads + i) {
        break;
      }
      if succeeds(failedLeads[i], 1) {
        processed := processed + 1;
      } else {
        failed := failed + 1;
      }
      i := i + 1;
    }
  }

  /** One batch, lead by lead: a lead whose attempt succeeds is counted, the others are queued
      for retry. */
  method ProcessBatch(leads: seq<LeadId>, succeeds: (LeadId, nat) -> bool) returns (ok: nat, failedLeads: seq<LeadId>)
    ensures ok == Successes(leads, succeeds) && failedLeads == Failures(leads, succeeds)
  {
    ok, failedLeads := 0, [];
    for k := 0 to |leads|
      invariant ok == Successes(leads[..k], succeeds) && failedLeads == Failures(leads[..k], succeeds)
    {
      assert leads[..k + 1][..k] == leads[..k];
      if succeeds(leads[k], 0) {
        ok := ok + 1;
      } else {
        failedLeads := failedLeads + [leads[k]];
      }
    }
    assert leads[..|leads|] == leads;
  }
}
