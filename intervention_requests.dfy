/** Intervention requests: a customer message the AI could not answer becomes a request that
    a staff member claims, follows up on, and resolves or dismisses. A request's id is its
    position in the table; the code never deletes requests. */
module InterventionRequests {
  import opened Common
  import opened Leads

  type RequestId = nat

  datatype Status = Pending | Claimed | Resolved | Dismissed

  datatype Request = Request(
    leadId: LeadId,
    assignedTo: Option<UserId>,
    requestedProduct: Option<string>,
    customerMessage: string,
    aiDraftedMessage: string,
    status: Status,
    requiresFollowUp: bool,
    claimedBy: Option<UserId>,
    claimedAt: Option<int>,
    resolvedAt: Option<int>)

  /** Five minutes. */
  const FOLLOW_UP_AFTER_MS := 5 * 60 * 1000

  const NOT_FOUND := "Intervention not found"
  const ALREADY_CLAIMED := "This intervention has already been claimed by another user"
  /** What the database reports for a patch of a row that does not exist. */
  const NO_SUCH_ROW := "Update on nonexistent document ID"

  /** The row both create mutations insert. */
  function NewRequest(leadId: LeadId, assignedTo: Option<UserId>, requestedProduct: Option<string>,
                      customerMessage: string, aiDraftedMessage: string): (r: Request)
    ensures r.status == Pending && !r.requiresFollowUp
    ensures r.claimedBy.None? && r.claimedAt.None? && r.resolvedAt.None?
    ensures r.leadId == leadId && r.assignedTo == assignedTo && r.customerMessage == customerMessage
  {
    Request(leadId, assignedTo, requestedProduct, customerMessage, aiDraftedMessage, Pending, false, None, None, None)
  }

  /** The filter of `getPendingInterventions`. */
  predicate VisibleTo(r: Request, user: UserId) {
    r.status == Pending && (r.assignedTo == Some(user) || r.assignedTo.None?)
  }

  /** The ids of the first `n` requests visible to `user`, in table order. */
  function PendingInterventions(requests: seq<Request>, n: nat, user: UserId): (ids: seq<RequestId>)
    requires n <= |requests|
    ensures forall i :: i in ids <==> 0 <= i < n && VisibleTo(requests[i], user)
    ensures forall a, b :: 0 <= a < b < |ids| ==> ids[a] < ids[b]
    ensures forall k :: 0 <= k < |ids| ==> ids[k] < n
  {
    if n == 0 then []
    else
      var rest := PendingInterventions(requests, n - 1, user);
      if VisibleTo(requests[n - 1], user) then rest + [n - 1] else rest
  }

  /** The request patch of `claimIntervention`; only a request that is already claimed is
      refused, so a resolved or dismissed one can be claimed again. */
  function Claim(r: Request, user: UserId, now: int): (c: Result<Request>)
    ensures c.Err? <==> r.status == Claimed
    ensures c.Err? ==> c.msg == ALREADY_CLAIMED
    ensures c.Ok? ==> c.value.status == Claimed && c.value.requiresFollowUp
                      && c.value.claimedBy == Some(user) && c.value.claimedAt == Some(now)
    ensures c.Ok? ==> c.value.(status := r.status, requiresFollowUp := r.requiresFollowUp,
                               claimedBy := r.claimedBy, claimedAt := r.claimedAt) == r
  {
    if r.status == Claimed then Err(ALREADY_CLAIMED)
    else Ok(r.(status := Claimed, claimedBy := Some(user), claimedAt := Some(now), requiresFollowUp := true))
  }

  /** The claimer takes over a lead nobody owns, or one that is still a cold-caller lead. */
  predicate TakesOver(l: Lead) {
    l.assignedTo.None? || l.isColdCallerLead
  }

  function TakeOver(l: Lead, user: UserId): (t: Lead)
    ensures t.assignedTo == Some(user) && !t.isColdCallerLead
    ensures t.(assignedTo := l.assignedTo, isColdCallerLead := l.isColdCallerLead) == l
  {
    l.(assignedTo := Some(user), isColdCallerLead := false)
  }

  /** The patch of `resolveIntervention`: any status may be resolved or dismissed. */
  function Resolve(r: Request, status: Status, now: int): (s: Request)
    requires status == Resolved || status == Dismissed
    ensures s.status == status && s.resolvedAt == Some(now)
    ensures s.(status := r.status, resolvedAt := r.resolvedAt) == r
  {
    r.(status := status, resolvedAt := Some(now))
  }

  /** The patch of `markFollowUpComplete`. */
  function CompleteFollowUp(r: Request, now: int): (s: Request)
    ensures s.status == Resolved && !s.requiresFollowUp && s.resolvedAt == Some(now)
    ensures s.(status := r.status, requiresFollowUp := r.requiresFollowUp, resolvedAt := r.resolvedAt) == r
  {
    r.(requiresFollowUp := false, status := Resolved, resolvedAt := Some(now))
  }

  /** The filter of `checkFollowUpRequired`. A missing `claimedAt` sorts below every number
      in the database's ordering, so it counts as older. */
  predicate FollowUpDue(r: Request, user: UserId, now: int) {
    r.claimedBy == Some(user) && r.status == Claimed && r.requiresFollowUp
    && (r.claimedAt.None? || r.claimedAt.value < now - FOLLOW_UP_AFTER_MS)
  }

  /** `checkFollowUpRequired`: the first due request in table order, or none. */
  function FirstDue(requests: seq<Request>, user: UserId, now: int): (r: Option<RequestId>)
    ensures r.Some? ==> r.value < |requests| && FollowUpDue(requests[r.value], user, now)
    ensures r.Some? ==> forall i :: 0 <= i < r.value ==> !FollowUpDue(requests[i], user, now)
    ensures r.None? <==> forall i :: 0 <= i < |requests| ==> !FollowUpDue(requests[i], user, now)
  {
    if requests == [] then None
    else if FollowUpDue(requests[0], user, now) then Some(0)
    else
      var rest := FirstDue(requests[1..], user, now);
      if rest.None? then None
      else
        assert forall i :: 1 <= i < |requests| ==> requests[i] == requests[1..][i - 1];
        Some(rest.value + 1)
  }

  /** A claimed request is due for a follow-up exactly when more than five minutes have passed. */
  lemma ClaimIsDueAfterFiveMinutes(r: Request, user: UserId, claimedAt: int, now: int)
    requires r.status != Claimed
    ensures FollowUpDue(Claim(r, user, claimedAt).value, user, now) <==> now > claimedAt + 300000
  {
  }

  /** Claims are exclusive: a second claim, by anyone, is refused until the request is
      resolved or dismissed, after which it may be claimed again. */
  lemma ClaimIsExclusive(r: Request, first: UserId, second: UserId, t1: int, t2: int, t3: int, s: Status)
    requires Claim(r, first, t1).Ok?
    requires s == Resolved || s == Dismissed
    ensures Claim(Claim(r, first, t1).value, second, t2) == Err(ALREADY_CLAIMED)
    ensures Claim(Resolve(Claim(r, first, t1).value, s, t3), second, t2).Ok?
  {
  }

  /** Completing the follow-up stops the reminder, and the request is no longer pending. */
  lemma CompletionEndsReminder(r: Request, user: UserId, t: int, now: int)
    ensures !FollowUpDue(CompleteFollowUp(r, t), user, now)
    ensures !VisibleTo(CompleteFollowUp(r, t), user)
  {
  }

  class InterventionTable {
    var requests: seq<Request>

    constructor (requests: seq<Request>)
      ensures this.requests == requests
    {
      this.requests := requests;
    }

    /** `createInterventionRequest` and its internal twin. */
    method Create(leadId: LeadId, assignedTo: Option<UserId>, requestedProduct: Option<string>,
                  customerMessage: string, aiDraftedMessage: string) returns (id: RequestId)
      modifies this
      ensures id == |old(requests)|
      ensures requests == old(requests) + [NewRequest(leadId, assignedTo, requestedProduct, customerMessage, aiDraftedMessage)]
    {
      id := |requests|;
      requests := requests + [Request(leadId, assignedTo, requestedProduct, customerMessage, aiDraftedMessage,
                                      Pending, false, None, None, None)];
    }

    /** `claimIntervention`: patch the request, then take over its lead when it exists and is
        unowned or still a cold-caller lead; the result is the lead id. */
    method ClaimIntervention(db: LeadTables, id: RequestId, user: UserId, now: int) returns (r: Result<LeadId>)
      requires db.Valid()
      modifies this, db
      ensures db.Valid() && db.users == old(db.users) && db.comments == old(db.comments)
      ensures |requests| == |old(requests)| && |db.leads| == |old(db.leads)|
      ensures id >= |old(requests)| ==> r == Err(NOT_FOUND)
      ensures id < |old(requests)| ==> (r.Ok? <==> Claim(old(requests)[id], user, now).Ok?)
      ensures r.Err? ==> requests == old(requests) && db.leads == old(db.leads)
      ensures r.Err? && id < |old(requests)| ==> r.msg == ALREADY_CLAIMED
      ensures r.Ok? ==>
        var leadId := old(requests)[id].leadId;
        r.value == leadId
        && requests == old(requests)[id := Claim(old(requests)[id], user, now).value]
        && db.leads == if leadId < |old(db.leads)| && TakesOver(old(db.leads)[leadId])
                       then old(db.leads)[leadId := TakeOver(old(db.leads)[leadId], user)]
                       else old(db.leads)
    {
      if id >= |requests| {
        return Err(NOT_FOUND);
      }
      var intervention := requests[id];
      if intervention.status == Claimed {
        return Err(ALREADY_CLAIMED);
      }
      requests := requests[id := intervention.(status := Claimed, claimedBy := Some(user),
                                               claimedAt := Some(now), requiresFollowUp := true)];
      var leadId := intervention.leadId;
      if leadId < |db.leads| {
        var lead := db.leads[leadId];
        if lead.assignedTo.None? || lead.isColdCallerLead {
          db.leads := db.leads[leadId := lead.(assignedTo := Some(user), isColdCallerLead := false)];
        }
      }
      r := Ok(leadId);
    }

    /** `resolveIntervention`: no check of the current status; a missing row makes the patch fail. */
    method ResolveIntervention(id: RequestId, status: Status, now: int) returns (error: Option<string>)
      requires status == Resolved || status == Dismissed
      modifies this
      ensures error.Some? <==> id >= |old(requests)|
      ensures error.Some? ==> error.value == NO_SUCH_ROW && requests == old(requests)
      ensures error.None? ==> requests == old(requests)[id := Resolve(old(requests)[id], status, now)]
    {
      if id >= |requests| {
        return Some(NO_SUCH_ROW);
      }
      requests := requests[id := requests[id].(status := status, resolvedAt := Some(now))];
      error := None;
    }

    /** `markFollowUpComplete`. */
    method MarkFollowUpComplete(id: RequestId, now: int) returns (error: Option<string>)
      modifies this
      ensures error.Some? <==> id >= |old(requests)|
      ensures error.Some? ==> error.value == NO_SUCH_ROW && requests == old(requests)
      ensures error.None? ==> requests == old(requests)[id := CompleteFollowUp(old(requests)[id], now)]
    {
      if id >= |requests| {
        return Some(NO_SUCH_ROW);
      }
      requests := requests[id := requests[id].(requiresFollowUp := false, status := Resolved, resolvedAt := Some(now))];
      error := None;
    }
  }
}
