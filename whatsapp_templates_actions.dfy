/** The template actions: the welcome message sent to recent leads that have not had it, and
    a stored template sent to one lead with its placeholders filled in. */
module WhatsAppTemplatesActions {
  import opened Common
  import Leads
  import opened WhatsAppBulk
  import CampaignExecutor

  /** 150 hours. */
  const RECENT_WINDOW_MS := 150 * 60 * 60 * 1000
  const WELCOME_MARKER := "[Template: cafoliwelcomemessage]"
  const NOT_CONFIGURED_SHORT := "WhatsApp API not configured"
  const NOT_FOUND := "Lead or template not found"

  /** The ids of the leads created at or after `now - 150 h`, in table order. */
  function RecentLeads(leads: seq<Leads.Lead>, now: int, n: nat): (ids: seq<LeadId>)
    requires n <= |leads|
    ensures forall k :: 0 <= k < |ids| ==> ids[k] < n && leads[ids[k]].creationTime >= now - RECENT_WINDOW_MS
    ensures forall a, b :: 0 <= a < b < |ids| ==> ids[a] < ids[b]
  {
    if n == 0 then []
    else RecentLeads(leads, now, n - 1) + if leads[n - 1].creationTime >= now - RECENT_WINDOW_MS then [n - 1] else []
  }

  /** Every lead created inside the window is listed: with the ordering, the list is exactly
      the recent leads, each once. */
  lemma {:induction false} RecentLeadsComplete(leads: seq<Leads.Lead>, now: int, n: nat, i: nat)
    requires n <= |leads| && i < n && leads[i].creationTime >= now - RECENT_WINDOW_MS
    ensures i in RecentLeads(leads, now, n)
  {
    if i < n - 1 {
      RecentLeadsComplete(leads, now, n - 1, i);
    }
  }

  /** Some stored chat message of the lead carries the welcome template's marker. */
  predicate HasWelcome(contents: seq<string>) {
    |contents| > 0 && (HasWelcome(contents[..|contents| - 1]) || Contains(contents[|contents| - 1], WELCOME_MARKER))
  }

  /** The numbers a welcome goes to: the mobile, then the alternate mobile, each when set. */
  function WelcomeNumbers(l: Leads.Lead): (phones: seq<string>)
    ensures |phones| == (if l.mobile != "" then 1 else 0) + (if l.altMobile != "" then 1 else 0)
    ensures forall k :: 0 <= k < |phones| ==> phones[k] != ""
  {
    (if l.mobile != "" then [l.mobile] else []) + (if l.altMobile != "" then [l.altMobile] else [])
  }

  /** One welcome sent (or attempted) to a number of a lead. */
  datatype WelcomeSend = WelcomeSend(leadId: LeadId, phoneNumber: string)

  /** The sends of the first `n` recent leads, with how many succeeded and how many threw;
      `sendOk` says whether the welcome action succeeds for a lead and number. */
  datatype WelcomeTally = WelcomeTally(sent: nat, errors: nat, sends: seq<WelcomeSend>)

  function Welcomes(leads: seq<Leads.Lead>, ids: seq<LeadId>, chats: map<LeadId, seq<string>>,
                    sendOk: (LeadId, string) -> bool, n: nat): (t: WelcomeTally)
    requires n <= |ids| && forall k :: 0 <= k < |ids| ==> ids[k] < |leads|
    ensures t.sent + t.errors == |t.sends|
  {
    if n == 0 then WelcomeTally(0, 0, [])
    else
      var id := ids[n - 1];
      WelcomeNext(Welcomes(leads, ids, chats, sendOk, n - 1), id, leads[id], if id in chats then chats[id] else [], sendOk)
  }

  lemma WelcomesUnfold(leads: seq<Leads.Lead>, ids: seq<LeadId>, chats: map<LeadId, seq<string>>,
                       sendOk: (LeadId, string) -> bool, n: nat)
    requires n < |ids| && forall k :: 0 <= k < |ids| ==> ids[k] < |leads|
    ensures Welcomes(leads, ids, chats, sendOk, n + 1)
      == WelcomeNext(Welcomes(leads, ids, chats, sendOk, n), ids[n], leads[ids[n]],
                     if ids[n] in chats then chats[ids[n]] else [], sendOk)
  {
  }

  /** The tally after one more lead, whose stored chat messages are `contents`. */
  function WelcomeNext(t: WelcomeTally, id: LeadId, l: Leads.Lead, contents: seq<string>, sendOk: (LeadId, string) -> bool)
    : (t': WelcomeTally)
    requires t.sent + t.errors == |t.sends|
    ensures t'.sent + t'.errors == |t'.sends|
  {
    if HasWelcome(contents) then t
    else
      var phones := WelcomeNumbers(l);
      var ok := OkCount(id, phones, sendOk);
      WelcomeTally(t.sent + ok, t.errors + (|phones| - ok), t.sends + SendsTo(id, phones))
  }

  /** The send `s` goes to a set number of one of the first `n` listed leads, which had no
      welcome yet. */
  ghost predicate SentToUnwelcomed(leads: seq<Leads.Lead>, ids: seq<LeadId>, chats: map<LeadId, seq<string>>, n: nat, s: WelcomeSend)
    requires n <= |ids| && forall k :: 0 <= k < |ids| ==> ids[k] < |leads|
  {
    exists k :: 0 <= k < n && s.leadId == ids[k]
                && !HasWelcome(if ids[k] in chats then chats[ids[k]] else [])
                && s.phoneNumber in WelcomeNumbers(leads[ids[k]])
  }

  /** Every send goes to a set number of a listed lead that had no welcome yet. */
  lemma {:induction false} WelcomesSentToUnwelcomed(leads: seq<Leads.Lead>, ids: seq<LeadId>, chats: map<LeadId, seq<string>>,
                                                    sendOk: (LeadId, string) -> bool, n: nat)
    requires n <= |ids| && forall k :: 0 <= k < |ids| ==> ids[k] < |leads|
    ensures forall j :: 0 <= j < |Welcomes(leads, ids, chats, sendOk, n).sends| ==>
      SentToUnwelcomed(leads, ids, chats, n, Welcomes(leads, ids, chats, sendOk, n).sends[j])
  {
    if n > 0 {
      WelcomesSentToUnwelcomed(leads, ids, chats, sendOk, n - 1);
      var t0 := Welcomes(leads, ids, chats, sendOk, n - 1);
      var t := Welcomes(leads, ids, chats, sendOk, n);
      forall j | 0 <= j < |t.sends|
        ensures SentToUnwelcomed(leads, ids, chats, n, t.sends[j])
      {
        if j < |t0.sends| {
          assert t.sends[j] == t0.sends[j];
          assert SentToUnwelcomed(leads, ids, chats, n - 1, t0.sends[j]);
          var k :| 0 <= k < n - 1 && t0.sends[j].leadId == ids[k]
                   && !HasWelcome(if ids[k] in chats then chats[ids[k]] else [])
                   && t0.sends[j].phoneNumber in WelcomeNumbers(leads[ids[k]]);
          assert 0 <= k < n;
        } else {
          var id := ids[n - 1];
          var phones := WelcomeNumbers(leads[id]);
          assert !HasWelcome(if id in chats then chats[id] else []);
          assert t.sends == t0.sends + SendsTo(id, phones);
          var x := j - |t0.sends|;
          assert t.sends[j] == SendsTo(id, phones)[x] == WelcomeSend(id, phones[x]);
          assert phones[x] in phones;
        }
      }
    }
  }

  /** One more lead adds its sends at the end: a welcomed lead nothing, another one its sends. */
  lemma WelcomeNextGrows(t: WelcomeTally, id: LeadId, l: Leads.Lead, contents: seq<string>, sendOk: (LeadId, string) -> bool)
    requires t.sent + t.errors == |t.sends|
    ensures WelcomeNext(t, id, l, contents, sendOk).sends
      == t.sends + (if HasWelcome(contents) then [] else SendsTo(id, WelcomeNumbers(l)))
  {
    if HasWelcome(contents) {
      assert t.sends + [] == t.sends;
    }
  }

  /** The `k`-th listed lead had no welcome yet and `p` is one of its set numbers. */
  ghost predicate Owed(leads: seq<Leads.Lead>, ids: seq<LeadId>, chats: map<LeadId, seq<string>>, k: nat, p: string)
    requires k < |ids| && ids[k] < |leads|
  {
    !HasWelcome(if ids[k] in chats then chats[ids[k]] else []) && p in WelcomeNumbers(leads[ids[k]])
  }

  /** Every listed lead without the welcome gets one send to each of its set numbers. */
  lemma UnwelcomedAreAttempted(leads: seq<Leads.Lead>, ids: seq<LeadId>, chats: map<LeadId, seq<string>>,
                                                  sendOk: (LeadId, string) -> bool, n: nat)
    requires n <= |ids| && forall x :: 0 <= x < |ids| ==> ids[x] < |leads|
    ensures forall k, p :: 0 <= k < n && Owed(leads, ids, chats, k, p)
                           ==> WelcomeSend(ids[k], p) in Welcomes(leads, ids, chats, sendOk, n).sends
  {
    forall k, p | 0 <= k < n && Owed(leads, ids, chats, k, p)
      ensures WelcomeSend(ids[k], p) in Welcomes(leads, ids, chats, sendOk, n).sends
    {
      OwedIsAttempted(leads, ids, chats, sendOk, n, k, p);
    }
  }

  /** The send owed to number `p` of the `k`-th lead is among those of the first `n` leads. */
  lemma {:induction false} OwedIsAttempted(leads: seq<Leads.Lead>, ids: seq<LeadId>, chats: map<LeadId, seq<string>>,
                                           sendOk: (LeadId, string) -> bool, n: nat, k: nat, p: string)
    requires k < n <= |ids| && forall x :: 0 <= x < |ids| ==> ids[x] < |leads|
    requires Owed(leads, ids, chats, k, p)
    ensures WelcomeSend(ids[k], p) in Welcomes(leads, ids, chats, sendOk, n).sends
    decreases n
  {
    if k < n - 1 {
      OwedIsAttempted(leads, ids, chats, sendOk, n - 1, k, p);
      WelcomesStep(leads, ids, chats, sendOk, n, WelcomeSend(ids[k], p));
    } else {
      WelcomesNewest(leads, ids, chats, sendOk, n, p);
    }
  }

  /** One more lead keeps every send already made. */
  lemma WelcomesStep(leads: seq<Leads.Lead>, ids: seq<LeadId>, chats: map<LeadId, seq<string>>,
                     sendOk: (LeadId, string) -> bool, n: nat, s: WelcomeSend)
    requires 0 < n <= |ids| && forall k :: 0 <= k < |ids| ==> ids[k] < |leads|
    requires s in Welcomes(leads, ids, chats, sendOk, n - 1).sends
    ensures s in Welcomes(leads, ids, chats, sendOk, n).sends
  {
    var t0 := Welcomes(leads, ids, chats, sendOk, n - 1);
    var id := ids[n - 1];
    WelcomeNextGrows(t0, id, leads[id], if id in chats then chats[id] else [], sendOk);
  }

  /** The lead added last, when it had no welcome yet, gets a send to each of its set numbers. */
  lemma WelcomesNewest(leads: seq<Leads.Lead>, ids: seq<LeadId>, chats: map<LeadId, seq<string>>,
                       sendOk: (LeadId, string) -> bool, n: nat, p: string)
    requires 0 < n <= |ids| && forall k :: 0 <= k < |ids| ==> ids[k] < |leads|
    requires Owed(leads, ids, chats, n - 1, p)
    ensures WelcomeSend(ids[n - 1], p) in Welcomes(leads, ids, chats, sendOk, n).sends
  {
    var t0 := Welcomes(leads, ids, chats, sendOk, n - 1);
    var t := Welcomes(leads, ids, chats, sendOk, n);
    var id := ids[n - 1];
    var phones := WelcomeNumbers(leads[id]);
    WelcomeNextGrows(t0, id, leads[id], if id in chats then chats[id] else [], sendOk);
    assert t.sends == t0.sends + SendsTo(id, phones);
    var x :| 0 <= x < |phones| && phones[x] == p;
    assert t.sends[|t0.sends| + x] == WelcomeSend(id, p);
  }

  /** What the two `if` blocks of one lead add up to. */
  lemma WelcomeNumbersCounted(id: LeadId, l: Leads.Lead, sendOk: (LeadId, string) -> bool)
    ensures SendsTo(id, WelcomeNumbers(l)) ==
      (if l.mobile != "" then [WelcomeSend(id, l.mobile)] else []) + (if l.altMobile != "" then [WelcomeSend(id, l.altMobile)] else [])
    ensures OkCount(id, WelcomeNumbers(l), sendOk) ==
      (if l.mobile != "" && sendOk(id, l.mobile) then 1 else 0) + (if l.altMobile != "" && sendOk(id, l.altMobile) then 1 else 0)
  {
    var p := WelcomeNumbers(l);
    if l.mobile != "" && l.altMobile != "" {
      assert p[1..][1..] == [];
    } else if p != [] {
      assert p[1..] == [];
    }
  }

  function SendsTo(id: LeadId, phones: seq<string>): (sends: seq<WelcomeSend>)
    ensures |sends| == |phones|
    ensures forall k {:trigger sends[k]} :: 0 <= k < |phones| ==> sends[k] == WelcomeSend(id, phones[k])
  {
    if phones == [] then [] else [WelcomeSend(id, phones[0])] + SendsTo(id, phones[1..])
  }

  function OkCount(id: LeadId, phones: seq<string>, sendOk: (LeadId, string) -> bool): (n: nat)
    ensures n <= |phones|
  {
    if phones == [] then 0 else (if sendOk(id, phones[0]) then 1 else 0) + OkCount(id, phones[1..], sendOk)
  }

  /** A lead that already has the welcome gets no further message. */
  lemma {:induction false} WelcomedLeadSkipped(leads: seq<Leads.Lead>, ids: seq<LeadId>, chats: map<LeadId, seq<string>>,
                                               sendOk: (LeadId, string) -> bool, k: nat)
    requires forall x :: 0 <= x < |ids| ==> ids[x] < |leads|
    requires forall a, b :: 0 <= a < b < |ids| ==> ids[a] != ids[b]
    requires k < |ids| && ids[k] in chats && HasWelcome(chats[ids[k]])
    ensures forall j :: 0 <= j < |Welcomes(leads, ids, chats, sendOk, |ids|).sends| ==>
      Welcomes(leads, ids, chats, sendOk, |ids|).sends[j].leadId != ids[k]
  {
    var t := Welcomes(leads, ids, chats, sendOk, |ids|);
    WelcomesSentToUnwelcomed(leads, ids, chats, sendOk, |ids|);
    forall j | 0 <= j < |t.sends|
      ensures t.sends[j].leadId != ids[k]
    {
      assert SentToUnwelcomed(leads, ids, chats, |ids|, t.sends[j]);
      var x :| 0 <= x < |ids| && t.sends[j].leadId == ids[x] && !HasWelcome(if ids[x] in chats then chats[ids[x]] else []);
      assert x != k;
    }
  }

  datatype WelcomeSummary = WelcomeSummary(success: bool, leadsProcessed: nat, messagesSent: nat, errors: nat)

  /** `sendWelcomeToRecentLeads`: every number of every recent lead without the welcome is
      attempted once, and counted as sent or as an error. */
  method SendWelcomeToRecentLeads(leads: seq<Leads.Lead>, now: int, chats: map<LeadId, seq<string>>,
                                  sendOk: (LeadId, string) -> bool)
    returns (r: WelcomeSummary, sends: seq<WelcomeSend>)
    ensures var ids := RecentLeads(leads, now, |leads|);
      var t := Welcomes(leads, ids, chats, sendOk, |ids|);
      r == WelcomeSummary(true, |ids|, t.sent, t.errors) && sends == t.sends
    ensures r.messagesSent + r.errors == |sends|
    ensures forall i, p :: 0 <= i < |leads| && leads[i].creationTime >= now - RECENT_WINDOW_MS
                           && !HasWelcome(if i in chats then chats[i] else []) && p in WelcomeNumbers(leads[i])
                           ==> WelcomeSend(i, p) in sends
  {
    var recentLeads := RecentLeads(leads, now, |leads|);
    var sentCount, errorCount;
    sentCount, errorCount, sends := WelcomeEach(leads, recentLeads, chats, sendOk);
    r := WelcomeSummary(true, |recentLeads|, sentCount, errorCount);
    UnwelcomedAreAttempted(leads, recentLeads, chats, sendOk, |recentLeads|);
    forall i | 0 <= i < |leads| && leads[i].creationTime >= now - RECENT_WINDOW_MS
               && !HasWelcome(if i in chats then chats[i] else [])
      ensures forall p :: p in WelcomeNumbers(leads[i]) ==> WelcomeSend(i, p) in sends
    {
      RecentLeadsComplete(leads, now, |leads|, i);
      var k :| 0 <= k < |recentLeads| && recentLeads[k] == i;
      assert forall p :: p in WelcomeNumbers(leads[i]) ==> Owed(leads, recentLeads, chats, k, p);
    }
  }

  /** The loop over the recent leads. */
  method WelcomeEach(leads: seq<Leads.Lead>, recentLeads: seq<LeadId>, chats: map<LeadId, seq<string>>,
                     sendOk: (LeadId, string) -> bool)
    returns (sentCount: nat, errorCount: nat, sends: seq<WelcomeSend>)
    requires forall k :: 0 <= k < |recentLeads| ==> recentLeads[k] < |leads|
    ensures Welcomes(leads, recentLeads, chats, sendOk, |recentLeads|) == WelcomeTally(sentCount, errorCount, sends)
  {
    sentCount, errorCount, sends := 0, 0, [];
    var k := 0;
    while k < |recentLeads|
      invariant 0 <= k <= |recentLeads|
      invariant Welcomes(leads, recentLeads, chats, sendOk, k) == WelcomeTally(sentCount, errorCount, sends)
    {
      var id := recentLeads[k];
      var lead := leads[id];
      var existingChats := if id in chats then chats[id] else [];
      WelcomesUnfold(leads, recentLeads, chats, sendOk, k);
      sentCount, errorCount, sends := WelcomeIfNew(id, lead, existingChats, sendOk, sentCount, errorCount, sends);
      k := k + 1;
    }
  }

  /** The loop body: a lead whose chat holds the welcome is skipped, any other is sent it. */
  method WelcomeIfNew(id: LeadId, lead: Leads.Lead, existingChats: seq<string>, sendOk: (LeadId, string) -> bool,
                      sentCount: nat, errorCount: nat, sends: seq<WelcomeSend>)
    returns (sentCount': nat, errorCount': nat, sends': seq<WelcomeSend>)
    requires sentCount + errorCount == |sends|
    ensures WelcomeTally(sentCount', errorCount', sends')
      == WelcomeNext(WelcomeTally(sentCount, errorCount, sends), id, lead, existingChats, sendOk)
  {
    sentCount', errorCount', sends' := sentCount, errorCount, sends;
    var hasWelcomeMessage := HasWelcome(existingChats);
    if !hasWelcomeMessage {
      var sent, failed, leadSends := WelcomeLead(id, lead, sendOk);
      sentCount', errorCount', sends' := sentCount + sent, errorCount + failed, sends + leadSends;
    }
  }

  /** One lead without the welcome: the mobile, then the alternate mobile, each when set, is
      sent the welcome and counted as sent or as an error. */
  method WelcomeLead(id: LeadId, lead: Leads.Lead, sendOk: (LeadId, string) -> bool)
    returns (sent: nat, errors: nat, sends: seq<WelcomeSend>)
    ensures sends == SendsTo(id, WelcomeNumbers(lead))
    ensures sent == OkCount(id, WelcomeNumbers(lead), sendOk) && errors == |sends| - sent
  {
    sent, errors, sends := 0, 0, [];
    if lead.mobile != "" {
      sends := sends + [WelcomeSend(id, lead.mobile)];
      if sendOk(id, lead.mobile) {
        sent := sent + 1;
      } else {
        errors := errors + 1;
      }
    }
    if lead.altMobile != "" {
      sends := sends + [WelcomeSend(id, lead.altMobile)];
      if sendOk(id, lead.altMobile) {
        sent := sent + 1;
      } else {
        errors := errors + 1;
      }
    }
    WelcomeNumbersCounted(id, lead, sendOk);
  }

  /** The lead fields a template reads. */
  datatype Recipient = Recipient(name: string, company: string, subject: string, mobile: string)

  /** What `sendTemplateToLead` did: its result (the message id, if the API returned one),
      the text it sent, and the message it stored. */
  datatype TemplateSend = TemplateSend(result: Result<Option<string>>, sent: Option<string>, stored: Option<StoredMessage>)

  /** `sendTemplateToLead`. */
  function SendTemplateToLead(accessToken: string, phoneNumberId: string, leadId: LeadId, lead: Option<Recipient>,
                              template: Option<string>, a: Attempt): (r: TemplateSend)
    ensures (accessToken == "" || phoneNumberId == "") ==> r == TemplateSend(Err(NOT_CONFIGURED_SHORT), None, None)
    ensures accessToken != "" && phoneNumberId != "" && (lead.None? || template.None?) ==>
      r == TemplateSend(Err(NOT_FOUND), None, None)
    ensures r.sent.Some? ==>
      (lead.Some? && template.Some?
       && r.sent.value == CampaignExecutor.Personalize(template.value, lead.value.name, lead.value.company, lead.value.subject))
    ensures r.result.Ok? <==> r.stored.Some?
    ensures r.result.Ok? <==> accessToken != "" && phoneNumberId != "" && lead.Some? && template.Some?
                              && a.reply.Accepted? && a.storeError.None?
    ensures r.stored.Some? ==> r.sent.Some? && r.stored.value.content == r.sent.value && r.stored.value.leadId == leadId
                               && lead.Some? && r.stored.value.phoneNumber == lead.value.mobile
  {
    if accessToken == "" || phoneNumberId == "" then TemplateSend(Err(NOT_CONFIGURED_SHORT), None, None)
    else if lead.None? || template.None? then TemplateSend(Err(NOT_FOUND), None, None)
    else
      var l := lead.value;
      var message := CampaignExecutor.Personalize(template.value, l.name, l.company, l.subject);
      match a.reply
      case Threw(m) => TemplateSend(Err(m), Some(message), None)
      case Rejected(body) => TemplateSend(Err(API_ERROR + body), Some(message), None)
      case Accepted(id) =>
        if a.storeError.Some? then TemplateSend(Err(a.storeError.value), Some(message), None)
        else TemplateSend(Ok(id), Some(message),
                          Some(StoredMessage(leadId, l.mobile, message, if id.Some? then id.value else "")))
  }
}
