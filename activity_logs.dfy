/** The activity log: an append-only table of timestamped entries, the admin query that reads
    it through one index, and the per-category statistics. Entries are appended in time order,
    so "newest first" is the reverse of table order. */
module ActivityLogs {
  import opened Common
  import opened Leads
  import opened LeadUtils

  datatype LogRow = LogRow(
    userId: Option<UserId>,
    category: string,
    action: string,
    details: Option<string>,
    leadId: Option<LeadId>,
    ipAddress: Option<string>,
    timestamp: int)

  const DEFAULT_LIMIT := 100
  const ADMIN_REQUIRED := "Admin access required"

  /** Times are non-decreasing in table order. */
  predicate Chronological(rows: seq<LogRow>) {
    forall i, j :: 0 <= i < j < |rows| ==> rows[i].timestamp <= rows[j].timestamp
  }

  class ActivityLog {
    var rows: seq<LogRow>

    constructor ()
      ensures rows == []
    {
      rows := [];
    }

    /** `logActivity`: one entry stamped with `now`; while the clock does not go back, the table
        stays in time order. */
    method LogActivity(userId: Option<UserId>, category: string, action: string, details: Option<string>,
                       leadId: Option<LeadId>, ipAddress: Option<string>, now: int)
      modifies this
      ensures rows == old(rows) + [LogRow(userId, category, action, details, leadId, ipAddress, now)]
      ensures Chronological(old(rows)) && (forall i :: 0 <= i < |old(rows)| ==> old(rows)[i].timestamp <= now)
        ==> Chronological(rows)
    {
      rows := rows + [LogRow(userId, category, action, details, leadId, ipAddress, now)];
    }

    /** `createLog`: as `logActivity` without an IP address, for a user that must exist. */
    method CreateLog(users: seq<User>, userId: UserId, category: string, action: string, details: Option<string>,
                     leadId: Option<LeadId>, now: int) returns (error: Option<string>)
      modifies this
      ensures error.Some? <==> FindUser(users, userId).None?
      ensures error.Some? ==> error.value == "User not found" && rows == old(rows)
      ensures error.None? ==> rows == old(rows) + [LogRow(Some(userId), category, action, details, leadId, None, now)]
      ensures Chronological(old(rows)) && (forall i :: 0 <= i < |old(rows)| ==> old(rows)[i].timestamp <= now)
        ==> Chronological(rows)
    {
      if FindUser(users, userId).None? {
        return Some("User not found");
      }
      rows := rows + [LogRow(Some(userId), category, action, details, leadId, None, now)];
      error := None;
    }
  }

  /** The filters of `getLogs`; an empty category and a zero bound or limit count as absent,
      as JavaScript's truthiness makes them. */
  datatype LogQuery = LogQuery(category: string, userId: Option<UserId>, leadId: Option<LeadId>,
                               startDate: int, endDate: int, limit: nat)

  /** The one index the query reads: category first, then user, then lead, else all. */
  predicate IndexMatches(row: LogRow, q: LogQuery) {
    if q.category != "" then row.category == q.category
    else if q.userId.Some? then row.userId == q.userId
    else if q.leadId.Some? then row.leadId == q.leadId
    else true
  }

  predicate InDateRange(row: LogRow, startDate: int, endDate: int) {
    (startDate == 0 || row.timestamp >= startDate) && (endDate == 0 || row.timestamp <= endDate)
  }

  function EffectiveLimit(limit: nat): nat {
    if limit == 0 then DEFAULT_LIMIT else limit
  }

  /** The positions of the first `n` rows that the index yields, newest first. */
  function IndexScan(rows: seq<LogRow>, n: nat, q: LogQuery): (r: seq<nat>)
    requires n <= |rows|
    ensures forall i :: i in r <==> 0 <= i < n && IndexMatches(rows[i], q)
    ensures forall a, b :: 0 <= a < b < |r| ==> r[a] > r[b]
    ensures forall k :: 0 <= k < |r| ==> r[k] < n
  {
    if n == 0 then []
    else (if IndexMatches(rows[n - 1], q) then [n - 1] else []) + IndexScan(rows, n - 1, q)
  }

  function Take(s: seq<nat>, n: nat): (r: seq<nat>)
    ensures |r| <= n && r <= s
    ensures |s| >= n ==> |r| == n
    ensures |s| <= n ==> r == s
  {
    if |s| <= n then s else s[..n]
  }

  /** The date filter, applied after the limit. */
  function DateFilter(rows: seq<LogRow>, ids: seq<nat>, startDate: int, endDate: int): (r: seq<nat>)
    requires forall k :: 0 <= k < |ids| ==> ids[k] < |rows|
    ensures forall i :: i in r <==> i in ids && InDateRange(rows[i], startDate, endDate)
    ensures forall k :: 0 <= k < |r| ==> r[k] < |rows|
    ensures |r| <= |ids|
  {
    if ids == [] then []
    else
      var rest := DateFilter(rows, ids[1..], startDate, endDate);
      assert forall i :: i in ids[1..] ==> i in ids;
      (if InDateRange(rows[ids[0]], startDate, endDate) then [ids[0]] else []) + rest
  }

  predicate Decreasing(ids: seq<nat>) {
    forall a, b :: 0 <= a < b < |ids| ==> ids[a] > ids[b]
  }

  /** Filtering keeps the newest-first order. */
  lemma DateFilterDecreasing(rows: seq<LogRow>, ids: seq<nat>, startDate: int, endDate: int)
    requires forall k :: 0 <= k < |ids| ==> ids[k] < |rows|
    requires Decreasing(ids)
    ensures Decreasing(DateFilter(rows, ids, startDate, endDate))
  {
    DateFilterBelow(rows, ids, startDate, endDate, |rows|);
  }

  /** The induction behind `DateFilterDecreasing`: a bound on the positions carries over to
      the filtered ones. */
  lemma {:induction false} DateFilterBelow(rows: seq<LogRow>, ids: seq<nat>, startDate: int, endDate: int, bound: nat)
    requires forall k :: 0 <= k < |ids| ==> ids[k] < |rows|
    requires Decreasing(ids) && forall k :: 0 <= k < |ids| ==> ids[k] < bound
    ensures var r := DateFilter(rows, ids, startDate, endDate);
      Decreasing(r) && forall k :: 0 <= k < |r| ==> r[k] < bound
  {
    if ids != [] {
      var tail := ids[1..];
      assert forall k :: 0 <= k < |tail| ==> tail[k] == ids[k + 1];
      DateFilterBelow(rows, tail, startDate, endDate, ids[0]);
      var rest := DateFilter(rows, tail, startDate, endDate);
      var head := if InDateRange(rows[ids[0]], startDate, endDate) then [ids[0]] else [];
      assert DateFilter(rows, ids, startDate, endDate) == head + rest;
      PrependDecreasing(head, rest, ids[0], bound);
    }
  }

  lemma PrependDecreasing(head: seq<nat>, rest: seq<nat>, x: nat, bound: nat)
    requires head == [] || head == [x]
    requires Decreasing(rest) && (forall k :: 0 <= k < |rest| ==> rest[k] < x) && x < bound
    ensures var r := head + rest; Decreasing(r) && forall k :: 0 <= k < |r| ==> r[k] < bound
  {
    var r := head + rest;
    var h := |head|;
    assert forall k :: h <= k < |r| ==> r[k] == rest[k - h];
  }

  /** `user?.name || user?.email || "System"`. */
  function UserName(users: seq<User>, userId: Option<UserId>): (s: string)
    ensures s != ""
    ensures userId.None? || FindUser(users, userId.value).None? ==> s == "System"
    ensures userId.Some? && FindUser(users, userId.value).Some? ==>
      var u := FindUser(users, userId.value).value;
      (u.name != "" ==> s == u.name) &&
      (u.name == "" && u.email != "" ==> s == u.email) &&
      (u.name == "" && u.email == "" ==> s == "System")
  {
    if userId.None? then "System"
    else
      match FindUser(users, userId.value)
      case None => "System"
      case Some(u) => if u.name != "" then u.name else if u.email != "" then u.email else "System"
  }

  /** `lead?.name || undefined`. */
  function LeadName(leads: seq<Lead>, leadId: Option<LeadId>): (r: Option<string>)
    ensures r.Some? <==> leadId.Some? && leadId.value < |leads| && leads[leadId.value].name != ""
    ensures r.Some? ==> r.value == leads[leadId.value].name && r.value != ""
  {
    if leadId.Some? && leadId.value < |leads| && leads[leadId.value].name != "" then Some(leads[leadId.value].name) else None
  }

  datatype LogView = LogView(row: LogRow, userName: string, leadName: Option<string>)

  function IsAdmin(users: seq<User>, adminId: UserId): bool {
    FindUser(users, adminId).Some? && FindUser(users, adminId).value.role == ADMIN
  }

  /** The rows `getLogs` returns, newest first: the index scan, cut to the limit, then
      filtered by date. */
  function Selected(rows: seq<LogRow>, q: LogQuery): (r: seq<nat>)
    ensures |r| <= EffectiveLimit(q.limit)
    ensures forall k :: 0 <= k < |r| ==> r[k] < |rows| && IndexMatches(rows[r[k]], q) && InDateRange(rows[r[k]], q.startDate, q.endDate)
    ensures forall a, b :: 0 <= a < b < |r| ==> r[a] > r[b]
  {
    var scan := IndexScan(rows, |rows|, q);
    var taken := Take(scan, EffectiveLimit(q.limit));
    assert forall k :: 0 <= k < |taken| ==> taken[k] == scan[k];
    assert forall k :: 0 <= k < |taken| ==> taken[k] in scan;
    assert Decreasing(taken);
    var kept := DateFilter(rows, taken, q.startDate, q.endDate);
    assert forall k :: 0 <= k < |kept| ==> kept[k] in taken && kept[k] in kept;
    DateFilterDecreasing(rows, taken, q.startDate, q.endDate);
    kept
  }

  /** `getLogs`. */
  function GetLogs(rows: seq<LogRow>, users: seq<User>, leads: seq<Lead>, adminId: UserId, q: LogQuery): (r: Result<seq<LogView>>)
    ensures r.Err? <==> !IsAdmin(users, adminId)
    ensures r.Err? ==> r.msg == ADMIN_REQUIRED
    ensures r.Ok? ==> |r.value| <= EffectiveLimit(q.limit)
    ensures r.Ok? ==> |r.value| == |Selected(rows, q)|
    ensures r.Ok? ==> forall k :: 0 <= k < |r.value| ==>
      r.value[k].row == rows[Selected(rows, q)[k]] && r.value[k].userName == UserName(users, r.value[k].row.userId)
      && r.value[k].leadName == LeadName(leads, r.value[k].row.leadId)
  {
    if !IsAdmin(users, adminId) then Err(ADMIN_REQUIRED)
    else
      Ok(Views(rows, users, leads, Selected(rows, q)))
  }

  /** The rows at `kept`, each with its user's and its lead's name. */
  function Views(rows: seq<LogRow>, users: seq<User>, leads: seq<Lead>, kept: seq<nat>): (vs: seq<LogView>)
    requires forall k :: 0 <= k < |kept| ==> kept[k] < |rows|
    ensures |vs| == |kept|
    ensures forall k :: 0 <= k < |vs| ==>
      vs[k].row == rows[kept[k]] && vs[k].userName == UserName(users, vs[k].row.userId)
      && vs[k].leadName == LeadName(leads, vs[k].row.leadId)
  {
    seq(|kept|, k requires 0 <= k < |kept| =>
      LogView(rows[kept[k]], UserName(users, rows[kept[k]].userId), LeadName(leads, rows[kept[k]].leadId)))
  }

  /** The limit is applied before the date filter: a row that is old enough to be cut by the
      limit is not returned even if it is inside the date range. */
  lemma LimitBeforeDateFilter(rows: seq<LogRow>, q: LogQuery, i: nat)
    requires i < |rows| && IndexMatches(rows[i], q)
    requires |IndexScan(rows, |rows|, q)| > EffectiveLimit(q.limit)
    requires i !in IndexScan(rows, |rows|, q)[..EffectiveLimit(q.limit)]
    ensures i !in DateFilter(rows, Take(IndexScan(rows, |rows|, q), EffectiveLimit(q.limit)), q.startDate, q.endDate)
  {
  }

  /** Without a date bound, the result is exactly the newest `limit` matching rows. */
  lemma {:induction false} NoDateBoundKeepsAll(rows: seq<LogRow>, ids: seq<nat>)
    requires forall k :: 0 <= k < |ids| ==> ids[k] < |rows|
    ensures DateFilter(rows, ids, 0, 0) == ids
  {
    if ids != [] {
      NoDateBoundKeepsAll(rows, ids[1..]);
    }
  }

  /** The rows of `getLogStats`: the whole table with the date filter. */
  function InRange(rows: seq<LogRow>, startDate: int, endDate: int): (r: seq<LogRow>)
    ensures |r| <= |rows|
    ensures forall row :: row in r <==> row in rows && InDateRange(row, startDate, endDate)
  {
    if rows == [] then []
    else (if InDateRange(rows[0], startDate, endDate) then [rows[0]] else []) + InRange(rows[1..], startDate, endDate)
  }

  /** How many rows have the category. */
  function Count(rows: seq<LogRow>, category: string): (n: nat)
    ensures n <= |rows|
    ensures (forall i :: 0 <= i < |rows| ==> rows[i].category != category) ==> n == 0
  {
    if rows == [] then 0
    else Count(rows[..|rows| - 1], category) + (if rows[|rows| - 1].category == category then 1 else 0)
  }

  /** `m` is a `statsByCategory` dictionary for `rows`: one key per category that occurs,
      mapped to its number of rows. */
  ghost predicate CountsOf(m: map<string, nat>, rows: seq<LogRow>) {
    (forall c :: c in m <==> exists i :: 0 <= i < |rows| && rows[i].category == c)
    && forall c :: c in m ==> m[c] == Count(rows, c)
  }

  lemma CountsOfStep(m: map<string, nat>, logs: seq<LogRow>, k: nat)
    requires k < |logs| && CountsOf(m, logs[..k])
    ensures var c := logs[k].category;
      CountsOf(m[c := (if c in m then m[c] else 0) + 1], logs[..k + 1])
  {
    CountsOfSnoc(m, logs[..k], logs[k]);
    assert logs[..k + 1] == logs[..k] + [logs[k]];
  }

  lemma CountsOfSnoc(m: map<string, nat>, init: seq<LogRow>, row: LogRow)
    requires CountsOf(m, init)
    ensures CountsOf(m[row.category := (if row.category in m then m[row.category] else 0) + 1], init + [row])
  {
    var r := init + [row];
    assert r[..|r| - 1] == init;
    var m' := m[row.category := (if row.category in m then m[row.category] else 0) + 1];
    forall c
      ensures c in m' <==> exists i :: 0 <= i < |r| && r[i].category == c
    {
      if c in m && c != row.category {
        var i :| 0 <= i < |init| && init[i].category == c;
        assert r[i] == init[i];
      }
      if c != row.category && exists i :: 0 <= i < |r| && r[i].category == c {
        var i :| 0 <= i < |r| && r[i].category == c;
        assert init[i] == r[i];
      }
      if c == row.category {
        assert r[|r| - 1].category == c;
      }
    }
    forall c | c in m'
      ensures m'[c] == Count(r, c)
    {
      if c == row.category && c !in m {
        assert forall i :: 0 <= i < |init| ==> init[i].category != c;
      }
    }
  }

  /** The sum of the counts of `keys`. */
  function SumCounts(rows: seq<LogRow>, keys: seq<string>): nat {
    if keys == [] then 0 else Count(rows, keys[0]) + SumCounts(rows, keys[1..])
  }

  lemma {:induction false} SumCountsSnoc(rows: seq<LogRow>, row: LogRow, keys: seq<string>)
    ensures SumCounts(rows + [row], keys) == SumCounts(rows, keys) + Occurrences(keys, row.category)
  {
    if keys != [] {
      assert (rows + [row])[..|rows|] == rows;
      SumCountsSnoc(rows, row, keys[1..]);
    }
  }

  function Occurrences(keys: seq<string>, c: string): nat {
    if keys == [] then 0 else (if keys[0] == c then 1 else 0) + Occurrences(keys[1..], c)
  }

  lemma {:induction false} OccursOnce(keys: seq<string>, c: string)
    requires forall a, b :: 0 <= a < b < |keys| ==> keys[a] != keys[b]
    requires c in keys
    ensures Occurrences(keys, c) == 1
  {
    if keys[0] != c {
      OccursOnce(keys[1..], c);
    } else {
      OccursNot(keys[1..], c);
    }
  }

  lemma {:induction false} OccursNot(keys: seq<string>, c: string)
    requires c !in keys
    ensures Occurrences(keys, c) == 0
  {
    if keys != [] {
      OccursNot(keys[1..], c);
    }
  }

  /** Listing every category once, the counts add up to the number of rows. */
  lemma {:induction false} CountsAddUp(rows: seq<LogRow>, keys: seq<string>)
    requires forall a, b :: 0 <= a < b < |keys| ==> keys[a] != keys[b]
    requires forall i :: 0 <= i < |rows| ==> rows[i].category in keys
    ensures SumCounts(rows, keys) == |rows|
  {
    if rows == [] {
      SumCountsEmpty(keys);
    } else {
      var init := rows[..|rows| - 1];
      var last := rows[|rows| - 1];
      assert rows == init + [last];
      CountsAddUp(init, keys);
      SumCountsSnoc(init, last, keys);
      OccursOnce(keys, last.category);
    }
  }

  lemma {:induction false} SumCountsEmpty(keys: seq<string>)
    ensures SumCounts([], keys) == 0
  {
    if keys != [] {
      SumCountsEmpty(keys[1..]);
    }
  }

  datatype LogStats = LogStats(total: nat, byCategory: map<string, nat>)

  /** `getLogStats`. */
  method GetLogStats(rows: seq<LogRow>, users: seq<User>, adminId: UserId, startDate: int, endDate: int)
    returns (r: Result<LogStats>)
    ensures r.Err? <==> !IsAdmin(users, adminId)
    ensures r.Err? ==> r.msg == ADMIN_REQUIRED
    ensures r.Ok? ==> r.value.total == |InRange(rows, startDate, endDate)|
                      && CountsOf(r.value.byCategory, InRange(rows, startDate, endDate))
  {
    if !IsAdmin(users, adminId) {
      return Err(ADMIN_REQUIRED);
    }
    var filteredLogs := InRange(rows, startDate, endDate);
    var statsByCategory := CountByCategory(filteredLogs);
    r := Ok(LogStats(|filteredLogs|, statsByCategory));
  }

  /** The `forEach` of `getLogStats` that builds `statsByCategory`. */
  method CountByCategory(logs: seq<LogRow>) returns (statsByCategory: map<string, nat>)
    ensures CountsOf(statsByCategory, logs)
  {
    statsByCategory := map[];
    var k := 0;
    while k < |logs|
      invariant 0 <= k <= |logs|
      invariant CountsOf(statsByCategory, logs[..k])
    {
      var c := logs[k].category;
      CountsOfStep(statsByCategory, logs, k);
      statsByCategory := statsByCategory[c := (if c in statsByCategory then statsByCategory[c] else 0) + 1];
      k := k + 1;
    }
    assert logs[..k] == logs;
  }

  /** The statistics balance: summed over its categories, a `statsByCategory` dictionary
      gives the number of rows. */
  lemma StatsBalance(m: map<string, nat>, rows: seq<LogRow>, keys: seq<string>)
    requires CountsOf(m, rows)
    requires forall a, b :: 0 <= a < b < |keys| ==> keys[a] != keys[b]
    requires forall c :: c in keys <==> c in m
    ensures SumCounts(rows, keys) == |rows|
    ensures forall c :: c in keys ==> m[c] == Count(rows, c)
  {
    assert forall i :: 0 <= i < |rows| ==> rows[i].category in m;
    CountsAddUp(rows, keys);
  }
}
