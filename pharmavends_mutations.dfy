/** The lead mutations behind the Pharmavends sync: find a lead by its Pharmavends query
    number, reactivate an irrelevant one, and create a new one. */
module PharmavendsMutations {
  import opened Common
  import opened Leads
  import opened LeadUtils

  const PHARMAVENDS_SOURCE := "Website and Pharmavends"
  const IRRELEVANT := "Irrelevant"
  const TO_BE_DECIDED := "To be Decided"
  const COLD := "Cold"

  /** `checkLeadExists`: the first lead (in table order) carrying the uid. */
  function FindByUid(leads: seq<Lead>, uid: string): (r: Option<LeadId>)
    ensures r.Some? ==> r.value < |leads| && leads[r.value].pharmavendsUid == uid
    ensures r.Some? ==> forall j :: 0 <= j < r.value ==> leads[j].pharmavendsUid != uid
    ensures r.None? <==> forall j :: 0 <= j < |leads| ==> leads[j].pharmavendsUid != uid
  {
    if leads == [] then None
    else
      var before := FindByUid(leads[..|leads| - 1], uid);
      if before.Some? then before
      else if leads[|leads| - 1].pharmavendsUid == uid then Some(|leads| - 1)
      else None
  }

  /** Appending a lead never changes which lead an existing uid finds. */
  lemma FindByUidAppend(leads: seq<Lead>, l: Lead, uid: string)
    ensures FindByUid(leads + [l], uid) ==
      if FindByUid(leads, uid).Some? then FindByUid(leads, uid)
      else if l.pharmavendsUid == uid then Some(|leads|) else None
  {
    assert (leads + [l])[..|leads|] == leads;
  }

  /** Patching a lead without touching its uid never changes what a lookup finds. */
  lemma FindByUidUpdate(leads: seq<Lead>, i: nat, l: Lead, uid: string)
    requires i < |leads| && l.pharmavendsUid == leads[i].pharmavendsUid
    ensures FindByUid(leads[i := l], uid) == FindByUid(leads, uid)
  {
    assert forall j :: 0 <= j < |leads| ==> leads[i := l][j].pharmavendsUid == leads[j].pharmavendsUid;
  }

  /** The patch of `reactivateLead`. */
  function Reactivate(l: Lead, now: int): (r: Lead)
    ensures r.leadType == TO_BE_DECIDED && r.status == COLD && r.assignedTo.None?
    ensures r.adminAssignmentRequired && r.lastActivity == now
    ensures r.(leadType := l.leadType, status := l.status, assignedTo := l.assignedTo,
               adminAssignmentRequired := l.adminAssignmentRequired, lastActivity := l.lastActivity) == l
  {
    l.(leadType := TO_BE_DECIDED, status := COLD, assignedTo := None, adminAssignmentRequired := true, lastActivity := now)
  }

  /** The arguments of `createPharmavendsLead`; an absent optional field is "". */
  datatype NewLeadArgs = NewLeadArgs(
    uid: string, name: string, subject: string, mobile: string, altMobile: string,
    email: string, altEmail: string, agencyName: string, pincode: string,
    state: string, district: string, station: string, message: string)

  function SearchFieldsOf(a: NewLeadArgs): SearchFields {
    SearchFields(a.name, a.subject, a.mobile, a.altMobile, a.email, a.altEmail, a.message)
  }

  /** The row `createPharmavendsLead` inserts at time `now`. */
  function NewLead(a: NewLeadArgs, now: int): (l: Lead)
    ensures l.source == PHARMAVENDS_SOURCE && l.status == COLD && l.leadType == TO_BE_DECIDED
    ensures l.pharmavendsUid == a.uid && l.name == a.name && l.subject == a.subject && l.email == a.email
    ensures l.assignedTo.None? && !l.isColdCallerLead && l.lastActivity == now && l.creationTime == now
    ensures forall f :: f in FieldList(SearchFieldsOf(a)) ==> Contains(l.searchText, f)
    ensures l.searchText == "" <==> forall f :: f in FieldList(SearchFieldsOf(a)) ==> f == ""
  {
    BlankLead(now).(
      name := a.name, subject := a.subject, source := PHARMAVENDS_SOURCE,
      mobile := a.mobile, altMobile := a.altMobile, email := a.email, altEmail := a.altEmail,
      agencyName := a.agencyName, pincode := a.pincode, state := a.state, district := a.district,
      station := a.station, message := a.message, status := COLD, leadType := TO_BE_DECIDED,
      lastActivity := now, pharmavendsUid := a.uid, searchText := GenerateSearchText(SearchFieldsOf(a)))
  }

  /** `reactivateLead`; the id comes from `checkLeadExists`, so the row exists. */
  method ReactivateLead(db: LeadTables, id: LeadId, now: int)
    requires id < |db.leads| && db.Valid()
    modifies db
    ensures db.leads == old(db.leads)[id := Reactivate(old(db.leads)[id], now)]
    ensures db.users == old(db.users) && db.comments == old(db.comments) && db.Valid()
  {
    db.leads := db.leads[id := db.leads[id].(leadType := TO_BE_DECIDED, status := COLD, assignedTo := None,
                                            adminAssignmentRequired := true, lastActivity := now)];
  }

  /** `createPharmavendsLead`: insert the lead, and schedule a welcome email to it exactly
      when an email address is given. Whether scheduling succeeds does not affect the insert. */
  method CreatePharmavendsLead(db: LeadTables, a: NewLeadArgs, now: int) returns (id: LeadId, welcomeTo: Option<string>)
    requires db.Valid()
    modifies db
    ensures id == |old(db.leads)| && db.leads == old(db.leads) + [NewLead(a, now)]
    ensures welcomeTo.Some? <==> a.email != ""
    ensures welcomeTo.Some? ==> welcomeTo.value == a.email
    ensures db.users == old(db.users) && db.comments == old(db.comments) && db.Valid()
  {
    var searchText := GenerateSearchText(SearchFieldsOf(a));
    id := |db.leads|;
    db.leads := db.leads + [BlankLead(now).(
      name := a.name, subject := a.subject, source := PHARMAVENDS_SOURCE,
      mobile := a.mobile, altMobile := a.altMobile, email := a.email, altEmail := a.altEmail,
      agencyName := a.agencyName, pincode := a.pincode, state := a.state, district := a.district,
      station := a.station, message := a.message, status := COLD, leadType := TO_BE_DECIDED,
      lastActivity := now, pharmavendsUid := a.uid, searchText := searchText)];
    welcomeTo := if a.email != "" then Some(a.email) else None;
  }
}
