/** The `leads`, `users` and `comments` tables that the lead rules read and write. A
    lead's id is its position in `leads`: none of the modelled code deletes leads. An
    optional string field that is unset is the empty string, which JavaScript also treats
    as absent in every test the code makes on these fields. */
module Leads {
  import opened Common

  type LeadId = nat
  type UserId = nat

  const ADMIN := "admin"
  const STAFF := "staff"

  datatype User = User(id: UserId, name: string, email: string, role: string)

  datatype Lead = Lead(
    name: string,
    subject: string,
    source: string,
    mobile: string,
    altMobile: string,
    email: string,
    altEmail: string,
    agencyName: string,
    pincode: string,
    state: string,
    district: string,
    station: string,
    message: string,
    status: string,
    leadType: string,
    assignedTo: Option<UserId>,
    isColdCallerLead: bool,
    coldCallerAssignedTo: Option<UserId>,
    coldCallerAssignedAt: Option<int>,
    adminAssignmentRequired: bool,
    pharmavendsUid: string,
    lastActivity: int,
    nextFollowUpDate: Option<int>,
    searchText: string,
    creationTime: int)

  /** A lead with every optional field unset. */
  function BlankLead(creationTime: int): Lead {
    Lead("", "", "", "", "", "", "", "", "", "", "", "", "", "", "", None, false, None, None, false, "", 0, None, "", creationTime)
  }

  /** A row of the `comments` table. */
  datatype Comment = Comment(leadId: LeadId, content: string, isSystem: bool)

  /** The tables of the lead rules, updated in place by the mutations that use them. */
  class LeadTables {
    var leads: seq<Lead>
    var users: seq<User>
    var comments: seq<Comment>

    constructor (leads: seq<Lead>, users: seq<User>)
      ensures this.leads == leads && this.users == users && comments == []
    {
      this.leads := leads;
      this.users := users;
      comments := [];
    }

    /** Comments point at existing leads. */
    predicate Valid()
      reads this
    {
      forall i :: 0 <= i < |comments| ==> comments[i].leadId < |leads|
    }
  }
}
