/** Shared lead helpers: phone-number standardisation, the search text stored on a lead,
    the role check of the mutations, and closing a lead's pending follow-ups when its
    follow-up date changes. */
module LeadUtils {
  import opened Common
  import opened Leads

  predicate IsDigit(c: char) {
    '0' <= c <= '9'
  }

  /** `s.replace(/\D/g, "")`: a single character is kept exactly when it is a digit, and
      `DigitsAppend` keeps the digits of a longer text in their order. */
  function Digits(s: string): (r: string)
    ensures |r| <= |s|
    ensures forall i :: 0 <= i < |r| ==> IsDigit(r[i])
    ensures forall c :: IsDigit(c) ==> (c in r <==> c in s)
    ensures |s| == 1 ==> r == (if IsDigit(s[0]) then s else "")
  {
    if s == [] then []
    else if IsDigit(s[0]) then [s[0]] + Digits(s[1..])
    else Digits(s[1..])
  }

  /** The digits of two texts put together are the digits of the first followed by those of
      the second. */
  lemma {:induction false} DigitsAppend(a: string, b: string)
    ensures Digits(a + b) == Digits(a) + Digits(b)
    decreases |a|
  {
    if a != [] {
      assert (a + b)[0] == a[0] && (a + b)[1..] == a[1..] + b;
      DigitsAppend(a[1..], b);
    } else {
      assert a + b == b;
    }
  }

  lemma {:induction false} DigitsOfDigits(s: string)
    requires forall i :: 0 <= i < |s| ==> IsDigit(s[i])
    ensures Digits(s) == s
  {
    if s != [] {
      DigitsOfDigits(s[1..]);
      assert s == [s[0]] + s[1..];
    }
  }

  const COUNTRY_CODE := "91"

  /** `standardizePhoneNumber`: the digits of the input, with the country code put in
      front of a bare 10-digit number. */
  function StandardizePhoneNumber(phone: string): (r: string)
    ensures phone == "" ==> r == ""
    ensures forall i :: 0 <= i < |r| ==> IsDigit(r[i])
    ensures |r| >= |Digits(phone)| && r[|r| - |Digits(phone)|..] == Digits(phone)
    ensures |r| == |Digits(phone)| + (if |Digits(phone)| == 10 then 2 else 0)
    ensures |r| > |Digits(phone)| ==> r[..2] == COUNTRY_CODE
  {
    if phone == "" then ""
    else
      var cleaned := Digits(phone);
      if |cleaned| == 10 then COUNTRY_CODE + cleaned else cleaned
  }

  lemma StandardizeIdempotent(phone: string)
    ensures StandardizePhoneNumber(StandardizePhoneNumber(phone)) == StandardizePhoneNumber(phone)
  {
    var once := StandardizePhoneNumber(phone);
    DigitsOfDigits(once);
  }

  /** The seven fields `generateSearchText` reads, in its order. */
  datatype SearchFields = SearchFields(name: string, subject: string, mobile: string, altMobile: string,
                                       email: string, altEmail: string, message: string)

  function FieldList(d: SearchFields): seq<string> {
    [d.name, d.subject, d.mobile, d.altMobile, d.email, d.altEmail, d.message]
  }

  /** `generateSearchText`: the non-empty fields joined by single spaces. */
  function GenerateSearchText(d: SearchFields): (r: string)
    ensures r == "" <==> forall f :: f in FieldList(d) ==> f == ""
    ensures forall f :: f in FieldList(d) ==> Contains(r, f)
  {
    var parts := NonEmpty(FieldList(d));
    assert forall i :: 0 <= i < |parts| ==> parts[i] in parts;
    JoinEmpty(" ", parts);
    assert parts == [] <==> forall f :: f in FieldList(d) ==> f == "" by {
      if parts != [] { assert parts[0] in parts; }
    }
    forall f | f in FieldList(d)
      ensures Contains(Join(" ", parts), f)
    {
      if f == "" {
        ContainsPrefixOf(Join(" ", parts), f);
      } else {
        var i :| 0 <= i < |parts| && parts[i] == f;
        JoinContainsPart(" ", parts, i);
      }
    }
    Join(" ", parts)
  }

  function FindUser(users: seq<User>, id: UserId): (r: Option<User>)
    ensures r.Some? ==> r.value in users && r.value.id == id
    ensures r.None? ==> forall u :: u in users ==> u.id != id
  {
    if users == [] then None
    else if users[0].id == id then Some(users[0])
    else FindUser(users[1..], id)
  }

  /** `checkRole`: the signed-in user when their role is allowed, and an administrator
      always; "Unauthorized" without a session, "Permission denied" otherwise. */
  function CheckRole(userId: Option<UserId>, users: seq<User>, allowedRoles: seq<string>): (r: Result<User>)
    ensures userId.None? ==> r == Err("Unauthorized")
    ensures r.Ok? <==> userId.Some? && FindUser(users, userId.value).Some?
                       && var role := FindUser(users, userId.value).value.role;
                          role != "" && (role in allowedRoles || role == ADMIN)
    ensures r.Ok? ==> r.value.id == userId.value && r.value in users
    ensures userId.Some? && r.Err? ==> r.msg == "Permission denied"
  {
    if userId.None? then Err("Unauthorized")
    else
      var user := FindUser(users, userId.value);
      if user.None? || user.value.role == "" || user.value.role !in allowedRoles then
        if user.Some? && user.value.role == ADMIN then Ok(user.value) else Err("Permission denied")
      else Ok(user.value)
  }

  /** 20 minutes of grace after the scheduled time. */
  const GRACE_PERIOD_MS := 20 * 60 * 1000

  datatype CompletionStatus = Timely | Overdue

  datatype FollowUpStatus = Pending | Completed

  /** A row of the `followups` table. */
  datatype FollowUp = FollowUp(
    leadId: LeadId,
    assignedTo: UserId,
    scheduledAt: int,
    status: FollowUpStatus,
    completedAt: Option<int>,
    completionStatus: Option<CompletionStatus>)

  predicate PendingFor(f: FollowUp, leadId: LeadId) {
    f.leadId == leadId && f.status == Pending
  }

  /** The patch that completes one follow-up at `now`. */
  function Close(f: FollowUp, now: int): (r: FollowUp)
    ensures r.status == Completed && r.completedAt == Some(now)
    ensures r.completionStatus == Some(Overdue) <==> now > f.scheduledAt + 1200000
    ensures r.completionStatus.Some?
    ensures r.leadId == f.leadId && r.assignedTo == f.assignedTo && r.scheduledAt == f.scheduledAt
  {
    var isOverdue := now > f.scheduledAt + GRACE_PERIOD_MS;
    f.(status := Completed, completedAt := Some(now), completionStatus := Some(if isOverdue then Overdue else Timely))
  }

  class FollowUpTable {
    var rows: seq<FollowUp>

    constructor (rows: seq<FollowUp>)
      ensures this.rows == rows
    {
      this.rows := rows;
    }

    /** `handleFollowUpChange`: complete every pending follow-up of the lead, then schedule
        the new one when a (truthy) date is given. Afterwards the lead has exactly one
        pending follow-up if a date was given and none otherwise. */
    method HandleFollowUpChange(leadId: LeadId, newDate: Option<int>, userId: UserId, now: int)
      modifies this
      ensures var scheduled := newDate.Some? && newDate.value != 0;
        |rows| == |old(rows)| + (if scheduled then 1 else 0)
        && (scheduled ==> rows[|rows| - 1] == FollowUp(leadId, userId, newDate.value, Pending, None, None))
        && (forall i :: 0 <= i < |rows| && PendingFor(rows[i], leadId) ==> scheduled && i == |rows| - 1)
      ensures forall i :: 0 <= i < |old(rows)| ==>
        rows[i] == if PendingFor(old(rows)[i], leadId) then Close(old(rows)[i], now) else old(rows)[i]
    {
      var i := 0;
      while i < |rows|
        invariant 0 <= i <= |rows| == |old(rows)|
        invariant forall k :: 0 <= k < |rows| ==>
          rows[k] == if k < i && PendingFor(old(rows)[k], leadId) then Close(old(rows)[k], now) else old(rows)[k]
      {
        if PendingFor(rows[i], leadId) {
          var isOverdue := now > rows[i].scheduledAt + GRACE_PERIOD_MS;
          rows := rows[i := rows[i].(status := Completed, completedAt := Some(now),
                                     completionStatus := Some(if isOverdue then Overdue else Timely))];
        }
        i := i + 1;
      }
      if newDate.Some? && newDate.value != 0 {
        rows := rows + [FollowUp(leadId, userId, newDate.value, Pending, None, None)];
      }
    }
  }
}
