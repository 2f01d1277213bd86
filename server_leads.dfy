/** `LeadController.createLead` of the API server
    (server/src/controllers/leadController.ts): the same once-per-email store
    and notification as the lead service, answered with 201 whatever the
    database and the mail service did. */
module ServerLeads {
  import opened Common
  import opened Store
  import opened Leads

  const Received: string := "Lead received"
  const MissingFields: string := "Name and Email are required"

  /** `source || 'chatbot'`: an empty source also falls back. */
  function SourceOrDefault(source: Option<string>): (s: string)
    ensures Truthy(source) ==> s == source.value
    ensures !Truthy(source) ==> s == DefaultSource
    ensures s != ""
  {
    if Truthy(source) then source.value else DefaultSource
  }

  class LeadController {
    const db: Database

    constructor (db: Database)
      ensures this.db == db
    {
      this.db := db;
    }

    /** POST /api/leads. The oracles are as for the lead service; the
        notification carries the request's `source` as given. */
    method CreateLead(
      name: Option<string>,
      email: Option<string>,
      phone: Option<string>,
      sessionId: Option<string>,
      source: Option<string>,
      newId: string,
      now: int,
      selectFault: Option<string>,
      insert: InsertOutcome)
      returns (r: LeadReply, notice: Option<Notice>)
      modifies db`leads
      ensures Incomplete(name, email) ==>
        r == LeadReply(400, Refused(MissingFields)) && notice.None? && db.leads == old(db.leads)
      ensures !Incomplete(name, email) ==>
        && r.status == 201 && r.body.Acknowledged? && r.body.message == Received
        && notice == Some(Notice(name.value, email.value, phone, source))
      ensures !Incomplete(name, email) && (!db.ready || selectFault.Some?) ==>
        r.body == Acknowledged(None, Received, true) && db.leads == old(db.leads)
      ensures !Incomplete(name, email) && db.ready && selectFault.None? && HasEmail(old(db.leads), email.value) ==>
        && r.body == Acknowledged(Some(FirstWithEmail(old(db.leads), email.value).value.id), Received, false)
        && db.leads == old(db.leads)
      ensures !Incomplete(name, email) && db.ready && selectFault.None? && !HasEmail(old(db.leads), email.value) ==>
        && (insert.Inserted? ==>
              && r.body == Acknowledged(Some(newId), Received, true)
              && db.leads == old(db.leads)
                   + [NewLead(newId, sessionId, name.value, email.value, phone, SourceOrDefault(source), now)])
        && (!insert.Inserted? ==> r.body == Acknowledged(None, Received, true) && db.leads == old(db.leads))
    {
      if Incomplete(name, email) {
        return LeadReply(400, Refused(MissingFields)), None;
      }
      var leadId: Option<string> := None;
      var isNew := true;
      if db.ready {
        // A failed query is caught and logged; the lead then keeps no id.
        if selectFault.None? {
          var existing := FirstWithEmail(db.leads, email.value);
          if existing.Some? {
            leadId := Some(existing.value.id);
            isNew := false;
          } else if insert.Inserted? {
            db.leads := db.leads
              + [NewLead(newId, sessionId, name.value, email.value, phone, SourceOrDefault(source), now)];
            leadId := Some(newId);
          }
        }
      }
      notice := Some(Notice(name.value, email.value, phone, source));
      r := LeadReply(201, Acknowledged(leadId, Received, isNew));
    }
  }
}
