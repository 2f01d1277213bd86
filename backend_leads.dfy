/** `LeadController.createLead` of the chatbot backend
    (chatbot-backend/src/controllers/leadController.ts): a lookup then an
    insert, answered 200 for a known email, 201 for a stored lead and 500
    for any database failure. It sends no mail and never checks whether the
    database is connected, so an unreachable database is a failed query. */
module BackendLeads {
  import opened Common
  import opened Store
  import opened Leads
  import ServerLeads

  const Updated: string := "Lead information updated"
  const MissingFields: string := "Name and Email are required"
  const SaveFailed: string := "Failed to save lead information"

  class LeadController {
    const db: Database

    constructor (db: Database)
      ensures this.db == db
    {
      this.db := db;
    }

    /** POST /api/leads. `selectFault` fails the lookup (including an
        unreachable database), `insert` is the fate of the insert; an insert
        that returns no row fails when its id is read. */
    method CreateLead(
      name: Option<string>,
      email: Option<string>,
      phone: Option<string>,
      sessionId: Option<string>,
      source: Option<string>,
      newId: string,
      now: int,
      selectFault: Option<string>,
      insert: InsertOutcome)
      returns (r: LeadReply)
      modifies db`leads
      ensures Incomplete(name, email) ==> r == LeadReply(400, Refused(MissingFields)) && db.leads == old(db.leads)
      ensures !Incomplete(name, email) && selectFault.Some? ==>
        r == LeadReply(500, Refused(SaveFailed)) && db.leads == old(db.leads)
      ensures !Incomplete(name, email) && selectFault.None? && HasEmail(old(db.leads), email.value) ==>
        && r == LeadReply(200, Acknowledged(Some(FirstWithEmail(old(db.leads), email.value).value.id), Updated, false))
        && db.leads == old(db.leads)
      ensures !Incomplete(name, email) && selectFault.None? && !HasEmail(old(db.leads), email.value) ==>
        && (insert.Inserted? ==>
              && r == LeadReply(201, Stored(newId, name.value, email.value, now, true))
              && db.leads == old(db.leads)
                   + [NewLead(newId, sessionId, name.value, email.value, phone, ServerLeads.SourceOrDefault(source), now)])
        && (!insert.Inserted? ==> r == LeadReply(500, Refused(SaveFailed)) && db.leads == old(db.leads))
      ensures r.status in {200, 201, 400, 500}
      ensures r.status == 201 <==> db.leads != old(db.leads)
    {
      if Incomplete(name, email) {
        return LeadReply(400, Refused(MissingFields));
      }
      if selectFault.Some? {
        return LeadReply(500, Refused(SaveFailed));
      }
      var existing := FirstWithEmail(db.leads, email.value);
      if existing.Some? {
        return LeadReply(200, Acknowledged(Some(existing.value.id), Updated, false));
      }
      if !insert.Inserted? {
        return LeadReply(500, Refused(SaveFailed));
      }
      db.leads := db.leads
        + [NewLead(newId, sessionId, name.value, email.value, phone, ServerLeads.SourceOrDefault(source), now)];
      r := LeadReply(201, Stored(newId, name.value, email.value, now, true));
    }
  }
}
