/** Bulk WhatsApp send: one text message to each of a list of leads, with a tally of the
    sends and of the failures, each failure with the lead it concerns.

    The lead lookup is a map from lead id to mobile number ("" when the lead has none). What
    the Cloud API and the message store do for the lead at position `i` of the list is the
    oracle `attempt(i)`. */
module WhatsAppBulk {
  import opened Common

  type LeadId = nat

  const NOT_CONFIGURED := "WhatsApp API not configured. Please set CLOUD_API_ACCESS_TOKEN and WA_PHONE_NUMBER_ID in backend environment variables."
  const NO_MOBILE := "Lead not found or missing mobile number"
  const API_ERROR := "WhatsApp API error: "

  /** The answer to the send request: accepted (with the message id it returns, if any),
      rejected with a non-ok status (its JSON body), or a thrown error. */
  datatype Reply = Accepted(messageId: Option<string>) | Rejected(body: string) | Threw(message: string)

  /** What happens outside the action for one lead: the reply, and the error storing the
      message throws, if it does. */
  datatype Attempt = Attempt(reply: Reply, storeError: Option<string>)

  datatype BulkError = BulkError(leadId: LeadId, error: string)

  datatype StoredMessage = StoredMessage(leadId: LeadId, phoneNumber: string, content: string, externalId: string)

  datatype Results = Results(total: nat, sent: nat, failed: nat, errors: seq<BulkError>)

  datatype LeadOutcome = Stored(message: StoredMessage) | Failed(error: string)

  /** One turn of the loop: a lead without a mobile number fails before any request; a
      rejected or failed request, or a failed store, fails the lead; otherwise the message is
      stored. */
  function Outcome(leadId: LeadId, mobiles: map<LeadId, string>, message: string, a: Attempt): (o: LeadOutcome)
    ensures (leadId !in mobiles || mobiles[leadId] == "") ==> o == Failed(NO_MOBILE)
    ensures a.reply.Rejected? ==> o.Failed?
    ensures o.Stored? <==> leadId in mobiles && mobiles[leadId] != "" && a.reply.Accepted? && a.storeError.None?
    ensures o.Stored? ==> o.message.leadId == leadId && o.message.phoneNumber == mobiles[leadId]
                          && o.message.content == message
  {
    if leadId !in mobiles || mobiles[leadId] == "" then Failed(NO_MOBILE)
    else
      match a.reply
      case Threw(m) => Failed(m)
      case Rejected(body) => Failed(API_ERROR + body)
      case Accepted(id) =>
        if a.storeError.Some? then Failed(a.storeError.value)
        else Stored(StoredMessage(leadId, mobiles[leadId], message, if id.Some? then id.value else ""))
  }

  /** A lead without a mobile number fails the same way whatever the API would have said: no
      request is made for it. */
  lemma NoMobileMakesNoRequest(leadId: LeadId, mobiles: map<LeadId, string>, message: string, a: Attempt, b: Attempt)
    requires leadId !in mobiles || mobiles[leadId] == ""
    ensures Outcome(leadId, mobiles, message, a) == Outcome(leadId, mobiles, message, b) == Failed(NO_MOBILE)
  {
  }

  /** The tally after the first `n` leads, and the messages stored so far. */
  datatype Tally = Tally(sent: nat, failed: nat, errors: seq<BulkError>, stored: seq<StoredMessage>)

  function Run(leadIds: seq<LeadId>, mobiles: map<LeadId, string>, message: string, attempt: nat -> Attempt, n: nat): (t: Tally)
    requires n <= |leadIds|
    ensures t.sent + t.failed == n
    ensures |t.errors| == t.failed && |t.stored| == t.sent
    ensures forall j :: 0 <= j < |t.errors| ==>
      exists i :: 0 <= i < n && t.errors[j].leadId == leadIds[i]
                 && Outcome(leadIds[i], mobiles, message, attempt(i)) == Failed(t.errors[j].error)
    ensures forall j :: 0 <= j < |t.stored| ==>
      exists i :: 0 <= i < n && Outcome(leadIds[i], mobiles, message, attempt(i)) == Stored(t.stored[j])
  {
    if n == 0 then Tally(0, 0, [], [])
    else
      var t := Run(leadIds, mobiles, message, attempt, n - 1);
      match Outcome(leadIds[n - 1], mobiles, message, attempt(n - 1))
      case Stored(m) => t.(sent := t.sent + 1, stored := t.stored + [m])
      case Failed(e) => t.(failed := t.failed + 1, errors := t.errors + [BulkError(leadIds[n - 1], e)])
  }

  /** The number of leads among the first `n` whose message was stored. */
  function StoredCount(leadIds: seq<LeadId>, mobiles: map<LeadId, string>, message: string, attempt: nat -> Attempt, n: nat): nat
    requires n <= |leadIds|
  {
    if n == 0 then 0
    else StoredCount(leadIds, mobiles, message, attempt, n - 1)
         + if Outcome(leadIds[n - 1], mobiles, message, attempt(n - 1)).Stored? then 1 else 0
  }

  /** `sent` counts exactly the leads whose message was accepted and stored, and every other
      lead is a failure: one failure does not stop the rest. */
  lemma {:induction false} SentCountsStored(leadIds: seq<LeadId>, mobiles: map<LeadId, string>, message: string,
                                            attempt: nat -> Attempt, n: nat)
    requires n <= |leadIds|
    ensures Run(leadIds, mobiles, message, attempt, n).sent == StoredCount(leadIds, mobiles, message, attempt, n)
    ensures Run(leadIds, mobiles, message, attempt, n).failed == n - StoredCount(leadIds, mobiles, message, attempt, n)
  {
    if n > 0 {
      SentCountsStored(leadIds, mobiles, message, attempt, n - 1);
    }
  }

  /** `sendBulkWhatsAppMessages`: throws when the credentials are missing, before any lead;
      otherwise every lead ends up sent or failed. */
  method SendBulkWhatsAppMessages(accessToken: string, phoneNumberId: string, leadIds: seq<LeadId>, message: string,
                                  mobiles: map<LeadId, string>, attempt: nat -> Attempt)
    returns (r: Result<Results>, stored: seq<StoredMessage>)
    ensures r.Err? <==> accessToken == "" || phoneNumberId == ""
    ensures r.Err? ==> r.msg == NOT_CONFIGURED && stored == []
    ensures r.Ok? ==>
      var t := Run(leadIds, mobiles, message, attempt, |leadIds|);
      r.value == Results(|leadIds|, t.sent, t.failed, t.errors) && stored == t.stored
      && r.value.sent + r.value.failed == r.value.total
  {
    stored := [];
    if accessToken == "" || phoneNumberId == "" {
      return Err(NOT_CONFIGURED), stored;
    }
    var sent, failed, errors := 0, 0, [];
    var k := 0;
    while k < |leadIds|
      invariant 0 <= k <= |leadIds|
      invariant Run(leadIds, mobiles, message, attempt, k) == Tally(sent, failed, errors, stored)
    {
      var leadId := leadIds[k];
      if leadId !in mobiles || mobiles[leadId] == "" {
        failed := failed + 1;
        errors := errors + [BulkError(leadId, NO_MOBILE)];
      } else {
        var mobile := mobiles[leadId];
        var a := attempt(k);
        match a.reply
        case Threw(m) =>
          failed := failed + 1;
          errors := errors + [BulkError(leadId, m)];
        case Rejected(body) =>
          failed := failed + 1;
          errors := errors + [BulkError(leadId, API_ERROR + body)];
        case Accepted(id) =>
          if a.storeError.Some? {
            failed := failed + 1;
            errors := errors + [BulkError(leadId, a.storeError.value)];
          } else {
            stored := stored + [StoredMessage(leadId, mobile, message, if id.Some? then id.value else "")];
            sent := sent + 1;
          }
      }
      k := k + 1;
    }
    r := Ok(Results(|leadIds|, sent, failed, errors));
  }
}
