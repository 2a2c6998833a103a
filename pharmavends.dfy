/** The Pharmavends sync: each row of the lead feed is skipped (no query number), counted as
    a duplicate (its lead exists and is still relevant), reactivated (its lead had been marked
    irrelevant) or created. Items are JSON objects whose values are strings; an absent key
    reads as "". */
module Pharmavends {
  import opened Common
  import opened Leads
  import opened PharmavendsMutations

  type Item = map<string, string>

  function Field(item: Item, key: string): string {
    if key in item then item[key] else ""
  }

  /** `item[k1] || item[k2] || … || default`. */
  function FirstOf(item: Item, keys: seq<string>, default: string): (r: string)
    ensures (forall i :: 0 <= i < |keys| ==> Field(item, keys[i]) == "") ==> r == default
    ensures keys != [] && Field(item, keys[0]) != "" ==> r == Field(item, keys[0])
    ensures r != default ==> r != "" && exists i :: 0 <= i < |keys| && Field(item, keys[i]) == r
    ensures default != "" ==> r != ""
  {
    if keys == [] then default
    else if Field(item, keys[0]) != "" then Field(item, keys[0])
    else
      var r := FirstOf(item, keys[1..], default);
      assert forall i :: 1 <= i < |keys| ==> keys[i] == keys[1..][i - 1];
      r
  }

  function Uid(item: Item): string {
    FirstOf(item, ["Query No.", "Query_No"], "")
  }

  /** The arguments the sync passes to `createPharmavendsLead`. */
  function ArgsOf(item: Item, uid: string): (a: NewLeadArgs)
    ensures a.uid == uid && a.name != "" && a.subject != ""
    ensures Field(item, "Query_Name") == "" && Field(item, "Query Name") == "" && Field(item, "Name") == "" ==> a.name == "Unknown"
    ensures Field(item, "Subject") == "" ==> a.subject == "No Subject"
    ensures Field(item, "Subject") != "" ==> a.subject == Field(item, "Subject")
  {
    NewLeadArgs(
      uid,
      FirstOf(item, ["Query_Name", "Query Name", "Name"], "Unknown"),
      FirstOf(item, ["Subject"], "No Subject"),
      FirstOf(item, ["Mobile No.", "Mobile_No", "Mobile"], ""),
      FirstOf(item, ["Alt_Mobile", "Alt Mobile"], ""),
      Field(item, "Email"),
      FirstOf(item, ["Alt_Email", "Alt Email"], ""),
      FirstOf(item, ["Agency Name", "Agency_Name"], ""),
      Field(item, "Pincode"),
      Field(item, "State"),
      Field(item, "District"),
      Field(item, "Station"),
      Field(item, "Message"))
  }

  /** What the loop reads from one item: its query number and, for a new lead, the
      arguments of the insert. */
  datatype Row = Row(uid: string, args: NewLeadArgs)

  function RowOf(item: Item): (row: Row)
    ensures row.uid == Uid(item) && row.args == ArgsOf(item, Uid(item))
  {
    Row(Uid(item), ArgsOf(item, Uid(item)))
  }

  function RowsOf(items: seq<Item>): (rows: seq<Row>)
    ensures |rows| == |items| && forall k :: 0 <= k < |items| ==> rows[k] == RowOf(items[k])
  {
    seq(|items|, k requires 0 <= k < |items| => RowOf(items[k]))
  }

  /** The state of the sync after some items: the leads table, the two counters and the
      addresses a welcome email was scheduled for. */
  datatype SyncState = SyncState(leads: seq<Lead>, newLeads: nat, duplicates: nat, welcomeEmails: seq<string>)

  /** One iteration of the loop over the feed. */
  function Step(st: SyncState, row: Row, now: int): (r: SyncState)
    ensures |r.welcomeEmails| - |st.welcomeEmails| <= r.newLeads - st.newLeads
  {
    if row.uid == "" then st
    else
      match FindByUid(st.leads, row.uid)
      case Some(id) =>
        if st.leads[id].leadType == IRRELEVANT
        then st.(leads := st.leads[id := Reactivate(st.leads[id], now)], newLeads := st.newLeads + 1)
        else st.(duplicates := st.duplicates + 1)
      case None =>
        st.(leads := st.leads + [NewLead(row.args, now)], newLeads := st.newLeads + 1,
            welcomeEmails := st.welcomeEmails + (if row.args.email != "" then [row.args.email] else []))
  }

  /** The state after the first `n` rows of the feed. */
  function SyncPrefix(leads: seq<Lead>, rows: seq<Row>, n: nat, now: int): (r: SyncState)
    requires n <= |rows|
    ensures |r.welcomeEmails| <= r.newLeads
  {
    if n == 0 then SyncState(leads, 0, 0, [])
    else Step(SyncPrefix(leads, rows, n - 1, now), rows[n - 1], now)
  }

  /** The number of rows among the first `n` without a query number. */
  function Skipped(rows: seq<Row>, n: nat): (r: nat)
    requires n <= |rows|
    ensures r <= n
  {
    if n == 0 then 0 else Skipped(rows, n - 1) + (if rows[n - 1].uid == "" then 1 else 0)
  }

  /** Every item is exactly one of skipped, new (created or reactivated) or duplicate. */
  lemma {:induction false} SyncCounts(leads: seq<Lead>, rows: seq<Row>, n: nat, now: int)
    requires n <= |rows|
    ensures var st := SyncPrefix(leads, rows, n, now);
      st.newLeads + st.duplicates + Skipped(rows, n) == n && |st.leads| >= |leads|
  {
    if n > 0 {
      SyncCounts(leads, rows, n - 1, now);
      StepCounts(SyncPrefix(leads, rows, n - 1, now), rows[n - 1], now);
    }
  }

  /** One item adds one to exactly one counter, unless it has no query number. */
  lemma StepCounts(st: SyncState, row: Row, now: int)
    ensures var st' := Step(st, row, now);
      st'.newLeads + st'.duplicates == st.newLeads + st.duplicates + (if row.uid == "" then 0 else 1)
      && |st'.leads| >= |st.leads|
  {
  }

  /** The uid has a lead, and the first lead carrying it is not marked irrelevant. */
  predicate Covered(leads: seq<Lead>, uid: string) {
    var f := FindByUid(leads, uid);
    f.Some? && leads[f.value].leadType != IRRELEVANT
  }

  lemma StepKeepsCovered(st: SyncState, row: Row, now: int, uid: string)
    requires Covered(st.leads, uid)
    ensures Covered(Step(st, row, now).leads, uid)
  {
    if row.uid != "" {
      match FindByUid(st.leads, row.uid)
      case Some(id) =>
        if st.leads[id].leadType == IRRELEVANT {
          FindByUidUpdate(st.leads, id, Reactivate(st.leads[id], now), uid);
        }
      case None =>
        FindByUidAppend(st.leads, NewLead(row.args, now), uid);
    }
  }

  lemma StepCovers(st: SyncState, row: Row, now: int)
    requires row.uid != "" && row.args.uid == row.uid
    ensures Covered(Step(st, row, now).leads, row.uid)
  {
    match FindByUid(st.leads, row.uid)
    case Some(id) =>
      if st.leads[id].leadType == IRRELEVANT {
        FindByUidUpdate(st.leads, id, Reactivate(st.leads[id], now), row.uid);
      }
    case None =>
      FindByUidAppend(st.leads, NewLead(row.args, now), row.uid);
  }

  /** Rows as the sync builds them: the insert carries the row's own query number. */
  predicate WellFormed(rows: seq<Row>) {
    forall k :: 0 <= k < |rows| ==> rows[k].args.uid == rows[k].uid
  }

  lemma RowsOfWellFormed(items: seq<Item>)
    ensures WellFormed(RowsOf(items))
  {
  }

  /** After a sync, every query number of the feed has a live (not irrelevant) lead. */
  lemma {:induction false} SyncCoversFeed(leads: seq<Lead>, rows: seq<Row>, n: nat, now: int)
    requires n <= |rows| && WellFormed(rows)
    ensures forall k :: 0 <= k < n && rows[k].uid != "" ==> Covered(SyncPrefix(leads, rows, n, now).leads, rows[k].uid)
  {
    if n > 0 {
      SyncCoversFeed(leads, rows, n - 1, now);
      var st := SyncPrefix(leads, rows, n - 1, now);
      forall k | 0 <= k < n && rows[k].uid != ""
        ensures Covered(Step(st, rows[n - 1], now).leads, rows[k].uid)
      {
        if k == n - 1 {
          StepCovers(st, rows[k], now);
        } else {
          StepKeepsCovered(st, rows[n - 1], now, rows[k].uid);
        }
      }
    }
  }

  /** A feed whose query numbers are all covered changes nothing: every item is skipped or a
      duplicate. */
  lemma {:induction false} CoveredFeedIsIdle(leads: seq<Lead>, rows: seq<Row>, n: nat, now: int)
    requires n <= |rows|
    requires forall k :: 0 <= k < |rows| && rows[k].uid != "" ==> Covered(leads, rows[k].uid)
    ensures SyncPrefix(leads, rows, n, now) == SyncState(leads, 0, n - Skipped(rows, n), [])
  {
    if n > 0 {
      CoveredFeedIsIdle(leads, rows, n - 1, now);
      StepIdle(SyncPrefix(leads, rows, n - 1, now), rows[n - 1], now);
    }
  }

  /** An item whose query number is covered only counts a duplicate. */
  lemma StepIdle(st: SyncState, row: Row, now: int)
    requires row.uid != "" ==> Covered(st.leads, row.uid)
    ensures Step(st, row, now) == st.(duplicates := st.duplicates + (if row.uid == "" then 0 else 1))
  {
  }

  /** Running the same feed twice: the second run creates and reactivates nothing and
      counts every item with a query number as a duplicate. */
  lemma ResyncIsIdle(leads: seq<Lead>, items: seq<Item>, now: int, later: int)
    ensures var rows := RowsOf(items);
      var first := SyncPrefix(leads, rows, |rows|, now);
      SyncPrefix(first.leads, rows, |rows|, later) == SyncState(first.leads, 0, |rows| - Skipped(rows, |rows|), [])
  {
    var rows := RowsOf(items);
    var first := SyncPrefix(leads, rows, |rows|, now);
    RowsOfWellFormed(items);
    SyncCoversFeed(leads, rows, |rows|, now);
    CoveredFeedIsIdle(first.leads, rows, |rows|, later);
  }

  /** What the request to the feed returned. */
  datatype Response = NotOk(status: nat) | NotArray | Items(items: seq<Item>) | FetchFailed(message: string)

  datatype SyncResult = SyncFailed(error: string) | Synced(newLeads: nat, duplicates: nat, total: nat)

  /** The body of the loop for one item: look the query number up, then reactivate, count a
      duplicate, or create. */
  method SyncItem(db: LeadTables, row: Row, now: int, newLeads: nat, duplicates: nat, emails: seq<string>)
    returns (newLeads': nat, duplicates': nat, emails': seq<string>)
    requires db.Valid()
    modifies db
    ensures Step(SyncState(old(db.leads), newLeads, duplicates, emails), row, now) == SyncState(db.leads, newLeads', duplicates', emails')
    ensures db.Valid() && db.users == old(db.users) && db.comments == old(db.comments)
  {
    newLeads', duplicates', emails' := newLeads, duplicates, emails;
    if row.uid == "" {
      return;
    }
    var existing := FindByUid(db.leads, row.uid);
    if existing.Some? {
      if db.leads[existing.value].leadType == IRRELEVANT {
        ReactivateLead(db, existing.value, now);
        newLeads' := newLeads + 1;
      } else {
        duplicates' := duplicates + 1;
      }
    } else {
      var id, welcomeTo := CreatePharmavendsLead(db, row.args, now);
      if welcomeTo.Some? {
        emails' := emails + [welcomeTo.value];
      }
      newLeads' := newLeads + 1;
    }
  }

  /** `fetchPharmavendsLeads`. Returns the result and the addresses a welcome email was
      scheduled for. */
  method FetchPharmavendsLeads(db: LeadTables, response: Response, now: int) returns (r: SyncResult, welcomeEmails: seq<string>)
    requires db.Valid()
    modifies db
    ensures db.Valid() && db.users == old(db.users) && db.comments == old(db.comments)
    ensures !response.Items? ==> db.leads == old(db.leads) && welcomeEmails == [] && r.SyncFailed?
    ensures response.NotOk? ==> r == SyncFailed("API returned " + NatToString(response.status))
    ensures response.NotArray? ==> r == SyncFailed("Invalid API response")
    ensures response.FetchFailed? ==> r == SyncFailed(response.message)
    ensures response.Items? ==>
      var final := SyncPrefix(old(db.leads), RowsOf(response.items), |response.items|, now);
      db.leads == final.leads && welcomeEmails == final.welcomeEmails
      && r == Synced(final.newLeads, final.duplicates, |response.items|)
  {
    welcomeEmails := [];
    match response
    case NotOk(status) =>
      return SyncFailed("API returned " + NatToString(status)), welcomeEmails;
    case NotArray =>
      return SyncFailed("Invalid API response"), welcomeEmails;
    case FetchFailed(message) =>
      return SyncFailed(message), welcomeEmails;
    case Items(data) =>
      var newLeadsCount, duplicatesCount;
      newLeadsCount, duplicatesCount, welcomeEmails := SyncItems(db, data, now);
      r := Synced(newLeadsCount, duplicatesCount, |data|);
  }

  /** The loop of `fetchPharmavendsLeads` over the feed's items. */
  method SyncItems(db: LeadTables, data: seq<Item>, now: int) returns (newLeadsCount: nat, duplicatesCount: nat, welcomeEmails: seq<string>)
    requires db.Valid()
    modifies db
    ensures db.Valid() && db.users == old(db.users) && db.comments == old(db.comments)
    ensures SyncPrefix(old(db.leads), RowsOf(data), |data|, now) == SyncState(db.leads, newLeadsCount, duplicatesCount, welcomeEmails)
  {
    newLeadsCount, duplicatesCount, welcomeEmails := 0, 0, [];
    ghost var rows := RowsOf(data);
    var k := 0;
    while k < |data|
      invariant 0 <= k <= |data|
      invariant SyncPrefix(old(db.leads), rows, k, now) == SyncState(db.leads, newLeadsCount, duplicatesCount, welcomeEmails)
      invariant db.Valid() && db.users == old(db.users) && db.comments == old(db.comments)
    {
      assert rows[k] == RowOf(data[k]);
      newLeadsCount, duplicatesCount, welcomeEmails := SyncItem(db, RowOf(data[k]), now, newLeadsCount, duplicatesCount, welcomeEmails);
      k := k + 1;
    }
  }
}
