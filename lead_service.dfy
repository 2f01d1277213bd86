/** `LeadService.createLead` (server/src/services/leadService.ts): store the
    lead once per email when the database is up, then notify by mail. Both
    steps swallow their failures. */
module LeadServices {
  import opened Common
  import opened Errors
  import opened Store
  import opened Leads

  /** What `createLead` resolves to: `{ id, isNew, message }`. */
  datatype LeadOutcome = LeadOutcome(id: Option<string>, isNew: bool, message: string)

  const Processed: string := "Lead processed successfully"
  const MissingFields: string := "Name and Email are required for lead collection"

  class LeadService {
    const db: Database

    constructor (db: Database)
      ensures this.db == db
    {
      this.db := db;
    }

    /** `createLead(data)`. `selectFault` fails the lookup, `insert` is the
        fate of the insert and `newId` the id the table assigns; `notice` is
        the notification attempted, whose own failure is never seen. */
    method CreateLead(
      name: Option<string>,
      email: Option<string>,
      phone: Option<string>,
      sessionId: Option<string>,
      source: Option<string>,
      newId: string,
      now: int,
      selectFault: Option<string>,
      insert: InsertOutcome)
      returns (r: Result<LeadOutcome, Thrown>, notice: Option<Notice>)
      modifies db`leads
      ensures Incomplete(name, email) ==>
        r == Err(PlainError(MissingFields)) && notice.None? && db.leads == old(db.leads)
      ensures !Incomplete(name, email) ==>
        && notice == Some(Notice(name.value, email.value, phone, Some(source.GetOr(DefaultSource))))
        && r.Ok? && r.value.message == Processed
      ensures !Incomplete(name, email) && (!db.ready || selectFault.Some?) ==>
        r == Ok(LeadOutcome(None, true, Processed)) && db.leads == old(db.leads)
      ensures !Incomplete(name, email) && db.ready && selectFault.None? && HasEmail(old(db.leads), email.value) ==>
        && r == Ok(LeadOutcome(Some(FirstWithEmail(old(db.leads), email.value).value.id), false, Processed))
        && db.leads == old(db.leads)
      ensures !Incomplete(name, email) && db.ready && selectFault.None? && !HasEmail(old(db.leads), email.value) ==>
        && (insert.Inserted? ==>
              && r == Ok(LeadOutcome(Some(newId), true, Processed))
              && db.leads == old(db.leads)
                   + [NewLead(newId, sessionId, name.value, email.value, phone, source.GetOr(DefaultSource), now)])
        && (!insert.Inserted? ==> r == Ok(LeadOutcome(None, true, Processed)) && db.leads == old(db.leads))
      ensures r.Ok? && !r.value.isNew ==> db.leads == old(db.leads) && r.value.id.Some?
    {
      var src := source.GetOr(DefaultSource);
      if Incomplete(name, email) {
        return Err(PlainError(MissingFields)), None;
      }
      var leadId: Option<string> := None;
      var isNew := true;
      if db.ready {
        // A failed query is caught and logged; the lead then keeps no id.
        if selectFault.None? {
          var existing := FirstWithEmail(db.leads, email.value);
          if existing.Some? {
            leadId := Some(existing.value.id);
            isNew := false;
          } else if insert.Inserted? {
            db.leads := db.leads + [NewLead(newId, sessionId, name.value, email.value, phone, src, now)];
            leadId := Some(newId);
          }
        }
      }
      // The notification is attempted whatever happened above; its failure is swallowed.
      notice := Some(Notice(name.value, email.value, phone, Some(src)));
      r := Ok(LeadOutcome(leadId, isNew, Processed));
    }
  }
}
