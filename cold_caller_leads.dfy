/** Cold-caller leads: leads nobody picked up within 72 hours are marked as cold-caller
    leads, and on weekdays (India Standard Time) the unallocated ones are handed out to the
    staff, ten each, in consecutive slices. */
module ColdCallerLeads {
  import opened Common
  import opened Leads

  const COLD_AFTER_MS := 72 * 60 * 60 * 1000
  /** UTC+05:30. */
  const IST_OFFSET_MS := 19800000
  const DAY_MS := 86400000
  const LEADS_PER_STAFF := 10
  const MARK_COMMENT := "Lead marked as Cold Caller Lead (unassigned for 72+ hours)"

  /** The filter of `markColdCallerLeads`. */
  predicate Markable(l: Lead, now: int) {
    l.assignedTo.None? && l.leadType != "Irrelevant" && !l.isColdCallerLead && l.creationTime < now - 259200000
  }

  predicate Increasing(s: seq<LeadId>) {
    forall a, b :: 0 <= a < b < |s| ==> s[a] < s[b]
  }

  /** The ids of the first `n` leads that satisfy `Markable`, in table order. */
  function MarkCandidates(leads: seq<Lead>, n: nat, now: int): (r: seq<LeadId>)
    requires n <= |leads|
    ensures forall i :: i in r <==> 0 <= i < n && Markable(leads[i], now)
    ensures r == [] <==> forall i :: 0 <= i < n ==> !Markable(leads[i], now)
    ensures Increasing(r) && |r| <= n
    ensures forall k :: 0 <= k < |r| ==> r[k] < n
  {
    if n == 0 then []
    else
      var rest := MarkCandidates(leads, n - 1, now);
      if Markable(leads[n - 1], now) then rest + [n - 1] else rest
  }

  /** The patch `isColdCallerLead: true`: the flag is set and nothing else changes. */
  function Mark(l: Lead): (r: Lead)
    ensures r.isColdCallerLead
    ensures r.(isColdCallerLead := l.isColdCallerLead) == l
  {
    l.(isColdCallerLead := true)
  }

  /** The leads table after marking. */
  function MarkedLeads(leads: seq<Lead>, now: int): (r: seq<Lead>)
    ensures |r| == |leads|
  {
    seq(|leads|, i requires 0 <= i < |leads| => if Markable(leads[i], now) then Mark(leads[i]) else leads[i])
  }

  function MarkComments(ids: seq<LeadId>): (r: seq<Comment>)
    ensures |r| == |ids|
  {
    seq(|ids|, k requires 0 <= k < |ids| => Comment(ids[k], MARK_COMMENT, true))
  }

  /** A second run at the same time marks nothing. */
  lemma MarkingIsIdempotent(leads: seq<Lead>, now: int)
    ensures MarkCandidates(MarkedLeads(leads, now), |leads|, now) == []
  {
    var after := MarkedLeads(leads, now);
    var again := MarkCandidates(after, |leads|, now);
    assert forall x :: 0 <= x < |after| ==> !Markable(after[x], now);
  }

  /** Only the marked leads change, and a marked lead keeps everything but its flag. */
  lemma MarkingChangesOnlyTheFlag(leads: seq<Lead>, now: int, i: nat)
    requires i < |leads|
    ensures MarkedLeads(leads, now)[i].(isColdCallerLead := leads[i].isColdCallerLead) == leads[i]
    ensures MarkedLeads(leads, now)[i] != leads[i] <==> i in MarkCandidates(leads, |leads|, now)
  {
  }

  /** The table state once the first `k` candidates are flagged. */
  ghost predicate MarkedUpTo(leads: seq<Lead>, before: seq<Lead>, ids: seq<LeadId>, k: nat)
    requires k <= |ids|
  {
    |leads| == |before|
    && forall i :: 0 <= i < |before| ==> leads[i] == if i in ids[..k] then Mark(before[i]) else before[i]
  }

  lemma MarkStep(leads: seq<Lead>, before: seq<Lead>, ids: seq<LeadId>, k: nat)
    requires k < |ids| && Increasing(ids) && ids[k] < |before|
    requires MarkedUpTo(leads, before, ids, k)
    ensures MarkedUpTo(leads[ids[k] := Mark(leads[ids[k]])], before, ids, k + 1)
  {
    assert ids[..k + 1] == ids[..k] + [ids[k]];
    assert ids[k] !in ids[..k];
  }

  lemma MarkCommentsSnoc(ids: seq<LeadId>, k: nat)
    requires k < |ids|
    ensures MarkComments(ids[..k + 1]) == MarkComments(ids[..k]) + [Comment(ids[k], MARK_COMMENT, true)]
  {
    assert ids[..k + 1] == ids[..k] + [ids[k]];
  }

  lemma MarkedAll(leads: seq<Lead>, before: seq<Lead>, now: int)
    requires MarkedUpTo(leads, before, MarkCandidates(before, |before|, now), |MarkCandidates(before, |before|, now)|)
    ensures leads == MarkedLeads(before, now)
  {
    var ids := MarkCandidates(before, |before|, now);
    assert ids[..|ids|] == ids;
  }

  /** `markColdCallerLeads`: flag every markable lead and add one system comment for each. */
  method MarkColdCallerLeads(db: LeadTables, now: int) returns (markedCount: nat)
    requires db.Valid()
    modifies db
    ensures db.Valid()
    ensures db.leads == MarkedLeads(old(db.leads), now)
    ensures markedCount == |MarkCandidates(old(db.leads), |old(db.leads)|, now)|
    ensures db.comments == old(db.comments) + MarkComments(MarkCandidates(old(db.leads), |old(db.leads)|, now))
    ensures db.users == old(db.users)
  {
    var unassigned := MarkCandidates(db.leads, |db.leads|, now);
    ghost var before := db.leads;
    var k := 0;
    while k < |unassigned|
      invariant 0 <= k <= |unassigned|
      invariant MarkedUpTo(db.leads, before, unassigned, k)
      invariant db.comments == old(db.comments) + MarkComments(unassigned[..k])
      invariant db.users == old(db.users)
      invariant db.Valid()
    {
      MarkLead(db, before, old(db.comments), unassigned, k);
      k := k + 1;
    }
    assert unassigned[..k] == unassigned;
    MarkedAll(db.leads, before, now);
    markedCount := |unassigned|;
  }

  /** The loop body: lead `ids[k]` is flagged and its comment written. */
  method MarkLead(db: LeadTables, ghost before: seq<Lead>, ghost comments: seq<Comment>, ids: seq<LeadId>, k: nat)
    requires k < |ids| && Increasing(ids) && ids[k] < |before|
    requires MarkedUpTo(db.leads, before, ids, k)
    requires db.comments == comments + MarkComments(ids[..k]) && db.Valid()
    modifies db
    ensures MarkedUpTo(db.leads, before, ids, k + 1)
    ensures db.comments == comments + MarkComments(ids[..k + 1]) && db.Valid()
    ensures db.users == old(db.users)
  {
    var id := ids[k];
    MarkStep(db.leads, before, ids, k);
    MarkCommentsSnoc(ids, k);
    db.leads := db.leads[id := db.leads[id].(isColdCallerLead := true)];
    db.comments := db.comments + [Comment(id, MARK_COMMENT, true)];
  }

  /** The UTC day of the week (0 = Sunday) of `now` shifted to India Standard Time;
      1 January 1970 was a Thursday. */
  function IstWeekday(now: int): (d: int)
    ensures 0 <= d < 7
  {
    ((now + IST_OFFSET_MS) / DAY_MS + 4) % 7
  }

  predicate IsWeekend(now: int) {
    IstWeekday(now) == 0 || IstWeekday(now) == 6
  }

  /** One day later is the next day of the week. */
  lemma {:induction false} WeekdayAdvances(now: int)
    ensures IstWeekday(now + DAY_MS) == (IstWeekday(now) + 1) % 7
  {
    var q := (now + IST_OFFSET_MS) / DAY_MS;
    var r := (now + IST_OFFSET_MS) % DAY_MS;
    assert now + IST_OFFSET_MS == q * DAY_MS + r;
    assert now + DAY_MS + IST_OFFSET_MS == (q + 1) * DAY_MS + r;
    assert (now + DAY_MS + IST_OFFSET_MS) / DAY_MS == q + 1;
  }

  /** Of every seven consecutive days, exactly five are allocation days. */
  lemma FiveWorkingDays(now: int)
    ensures IsWeekend(now) <==> IstWeekday(now) in {0, 6}
    ensures IstWeekday(now) == 5 ==> IsWeekend(now + DAY_MS)
    ensures IstWeekday(now) == 5 ==> IsWeekend(now + 2 * DAY_MS) && !IsWeekend(now + 3 * DAY_MS)
  {
    WeekdayAdvances(now);
    WeekdayAdvances(now + DAY_MS);
    WeekdayAdvances(now + 2 * DAY_MS);
  }

  function Staff(users: seq<User>): (r: seq<User>)
    ensures forall u :: u in r <==> u in users && u.role == STAFF
    ensures |r| <= |users|
  {
    if users == [] then []
    else (if users[0].role == STAFF then [users[0]] else []) + Staff(users[1..])
  }

  /** The ids of the first `n` cold-caller leads not yet allocated, in table order. */
  function Unallocated(leads: seq<Lead>, n: nat): (r: seq<LeadId>)
    requires n <= |leads|
    ensures forall i :: i in r <==> 0 <= i < n && leads[i].isColdCallerLead && leads[i].coldCallerAssignedTo.None?
    ensures Increasing(r)
    ensures forall k :: 0 <= k < |r| ==> r[k] < n
  {
    if n == 0 then []
    else
      var rest := Unallocated(leads, n - 1);
      if leads[n - 1].isColdCallerLead && leads[n - 1].coldCallerAssignedTo.None? then rest + [n - 1] else rest
  }

  /** The query's `.take(staff × 10)`. */
  function Pool(leads: seq<Lead>, staffCount: nat): (r: seq<LeadId>)
    ensures |r| <= 10 * staffCount
    ensures Increasing(r) && forall k :: 0 <= k < |r| ==> r[k] < |leads|
    ensures r <= Unallocated(leads, |leads|)
  {
    var all := Unallocated(leads, |leads|);
    if |all| <= 10 * staffCount then all else all[..10 * staffCount]
  }

  /** `user.name || user.email`. */
  function DisplayName(u: User): string {
    if u.name != "" then u.name else u.email
  }

  /** The patch of the allocation: assignee and time are set and nothing else changes. */
  function Allocate(l: Lead, u: User, now: int): (r: Lead)
    ensures r.coldCallerAssignedTo == Some(u.id) && r.coldCallerAssignedAt == Some(now)
    ensures r.(coldCallerAssignedTo := l.coldCallerAssignedTo, coldCallerAssignedAt := l.coldCallerAssignedAt) == l
  {
    l.(coldCallerAssignedTo := Some(u.id), coldCallerAssignedAt := Some(now))
  }

  function AllocationComment(id: LeadId, u: User): Comment {
    Comment(id, "Cold Caller Lead allocated to " + DisplayName(u), true)
  }

  /** The comments written for the first `n` pool entries: entry j goes to staff member j / 10. */
  function AllocationComments(pool: seq<LeadId>, staff: seq<User>, n: nat): (r: seq<Comment>)
    requires n <= |pool| <= 10 * |staff|
    ensures |r| == n
  {
    seq(n, j requires 0 <= j < n => AllocationComment(pool[j], staff[j / 10]))
  }

  datatype AllocationResult = SkippedWeekend | Allocated(allocatedCount: nat, staffCount: nat)

  /** The table state after the first `n` pool entries have been handed out. */
  ghost predicate AllocatedUpTo(leads: seq<Lead>, before: seq<Lead>, pool: seq<LeadId>, staff: seq<User>, n: nat, now: int)
    requires n <= |pool| <= 10 * |staff|
    requires forall k :: 0 <= k < |pool| ==> pool[k] < |before|
  {
    |leads| == |before|
    && (forall j :: 0 <= j < n ==> leads[pool[j]] == Allocate(before[pool[j]], staff[j / 10], now))
    && (forall i :: 0 <= i < |leads| && i !in pool[..n] ==> leads[i] == before[i])
  }

  /** Handing out pool entry `j` extends the allocated prefix by one. */
  lemma AllocateStep(leads: seq<Lead>, before: seq<Lead>, pool: seq<LeadId>, staff: seq<User>, j: nat, now: int)
    requires j < |pool| <= 10 * |staff|
    requires Increasing(pool) && forall k :: 0 <= k < |pool| ==> pool[k] < |before|
    requires AllocatedUpTo(leads, before, pool, staff, j, now)
    ensures AllocatedUpTo(leads[pool[j] := Allocate(leads[pool[j]], staff[j / 10], now)], before, pool, staff, j + 1, now)
  {
    var id := pool[j];
    assert pool[..j + 1] == pool[..j] + [id];
    assert id !in pool[..j];
  }

  /** One staff member's turn: pool entries `start` up to `stop` go to `staff[k]`. */
  method AllocateSlice(db: LeadTables, ghost before: seq<Lead>, ghost comments: seq<Comment>, pool: seq<LeadId>,
                       staff: seq<User>, k: nat, start: nat, stop: nat, now: int)
    requires stop <= |pool| <= 10 * |staff| && start <= stop && k < |staff|
    requires start < stop ==> start == 10 * k && stop <= start + 10
    requires Increasing(pool) && forall x :: 0 <= x < |pool| ==> pool[x] < |before|
    requires AllocatedUpTo(db.leads, before, pool, staff, start, now)
    requires db.comments == comments + AllocationComments(pool, staff, start) && db.Valid()
    modifies db
    ensures AllocatedUpTo(db.leads, before, pool, staff, stop, now)
    ensures db.comments == comments + AllocationComments(pool, staff, stop) && db.Valid()
    ensures db.users == old(db.users)
  {
    var user := staff[k];
    var userLeads := pool[start..stop];
    var m := 0;
    while m < |userLeads|
      invariant 0 <= m <= |userLeads|
      invariant AllocatedUpTo(db.leads, before, pool, staff, start + m, now)
      invariant db.comments == comments + AllocationComments(pool, staff, start + m)
      invariant db.Valid() && db.users == old(db.users)
    {
      var j := start + m;
      assert userLeads[m] == pool[j] && j / 10 == k;
      AllocateLead(db, before, comments, pool, staff, j, userLeads[m], user, now);
      m := m + 1;
    }
  }

  /** The loop body: `lead` (pool entry `j`) is patched to `user` and its comment written. */
  method AllocateLead(db: LeadTables, ghost before: seq<Lead>, ghost comments: seq<Comment>, pool: seq<LeadId>,
                      staff: seq<User>, j: nat, id: LeadId, user: User, now: int)
    requires j < |pool| <= 10 * |staff| && id == pool[j] && user == staff[j / 10]
    requires Increasing(pool) && forall x :: 0 <= x < |pool| ==> pool[x] < |before|
    requires AllocatedUpTo(db.leads, before, pool, staff, j, now)
    requires db.comments == comments + AllocationComments(pool, staff, j) && db.Valid()
    modifies db
    ensures AllocatedUpTo(db.leads, before, pool, staff, j + 1, now)
    ensures db.comments == comments + AllocationComments(pool, staff, j + 1) && db.Valid()
    ensures db.users == old(db.users)
  {
    AllocateStep(db.leads, before, pool, staff, j, now);
    db.leads := db.leads[id := db.leads[id].(coldCallerAssignedTo := Some(user.id), coldCallerAssignedAt := Some(now))];
    db.comments := db.comments + [Comment(id, "Cold Caller Lead allocated to " + DisplayName(user), true)];
    assert AllocationComments(pool, staff, j + 1) == AllocationComments(pool, staff, j) + [AllocationComment(id, user)];
  }

  /** `allocateColdCallerLeads`. Every allocation is stamped with `now`. */
  method AllocateColdCallerLeads(db: LeadTables, now: int) returns (r: AllocationResult)
    requires db.Valid()
    modifies db
    ensures db.Valid() && db.users == old(db.users) && |db.leads| == |old(db.leads)|
    ensures IsWeekend(now) ==> r == SkippedWeekend && db.leads == old(db.leads) && db.comments == old(db.comments)
    ensures !IsWeekend(now) ==>
      var staff := Staff(old(db.users));
      var pool := Pool(old(db.leads), |staff|);
      r == Allocated(|pool|, |staff|)
      && (forall j :: 0 <= j < |pool| ==> db.leads[pool[j]] == Allocate(old(db.leads)[pool[j]], staff[j / 10], now))
      && (forall i :: 0 <= i < |db.leads| && i !in pool ==> db.leads[i] == old(db.leads)[i])
      && db.comments == old(db.comments) + AllocationComments(pool, staff, |pool|)
  {
    var dayOfWeek := ((now + IST_OFFSET_MS) / DAY_MS + 4) % 7;
    if dayOfWeek == 0 || dayOfWeek == 6 {
      return SkippedWeekend;
    }
    var staff := Staff(db.users);
    var available := Pool(db.leads, |staff|);
    ghost var before := db.leads;
    ghost var comments := db.comments;
    var allocatedCount := 0;
    var k := 0;
    assert available[..0] == [];
    while k < |staff|
      invariant 0 <= k <= |staff|
      invariant allocatedCount == if 10 * k <= |available| then 10 * k else |available|
      invariant AllocatedUpTo(db.leads, before, available, staff, allocatedCount, now)
      invariant db.comments == comments + AllocationComments(available, staff, allocatedCount)
      invariant db.Valid() && db.users == old(db.users)
    {
      var stop := if allocatedCount + 10 <= |available| then allocatedCount + 10 else |available|;
      AllocateSlice(db, before, comments, available, staff, k, allocatedCount, stop, now);
      allocatedCount := stop;
      k := k + 1;
    }
    assert available[..allocatedCount] == available;
    r := Allocated(allocatedCount, |staff|);
  }
}
