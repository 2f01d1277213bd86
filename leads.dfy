/** What the three lead-capture variants share: the `leads` table looked
    up by email, the row an insert adds, and the notification handed to the
    mail service. */
module Leads {
  import opened Common
  import opened Store

  /** The `source` stored when the request gives none. */
  const DefaultSource: string := "chatbot"

  /** A lead is stored under `email`. */
  predicate HasEmail(rows: seq<LeadRow>, email: string) {
    exists i | 0 <= i < |rows| :: rows[i].email == email
  }

  /** The row `SELECT ... FROM leads WHERE email = $1` yields first (table order). */
  function FirstWithEmail(rows: seq<LeadRow>, email: string): (r: Option<LeadRow>)
    ensures r.Some? <==> HasEmail(rows, email)
    ensures r.Some? ==> r.value.email == email
    ensures r.Some? ==> exists i | 0 <= i < |rows| :: rows[i] == r.value && forall j | 0 <= j < i :: rows[j].email != email
  {
    if |rows| == 0 then None
    else if rows[0].email == email then Some(rows[0])
    else
      var r := FirstWithEmail(rows[1..], email);
      assert HasEmail(rows, email) ==> HasEmail(rows[1..], email) by {
        if HasEmail(rows, email) {
          var i :| 0 <= i < |rows| && rows[i].email == email;
          assert rows[1..][i - 1].email == email;
        }
      }
      if r.Some? then
        var i :| 0 <= i < |rows[1..]| && rows[1..][i] == r.value
          && forall j | 0 <= j < i :: rows[1..][j].email != email;
        assert rows[i + 1] == r.value;
        assert forall j | 0 <= j < i + 1 :: rows[j].email != email by {
          forall j | 0 <= j < i + 1 ensures rows[j].email != email {
            if j > 0 { assert rows[j] == rows[1..][j - 1]; }
          }
        }
        r
      else r
  }

  /** The row `INSERT INTO leads (session_id, name, email, phone, source)`
      adds: empty optional fields are stored as NULL. */
  function NewLead(id: string, sessionId: Option<string>, name: string, email: string,
                   phone: Option<string>, source: string, now: int): (row: LeadRow)
    ensures row.id == id && row.name == name && row.email == email && row.source == source
    ensures row.sessionId == OrNone(sessionId) && row.phone == OrNone(phone)
    ensures row.createdAt == now
  {
    LeadRow(id, OrNone(sessionId), name, email, OrNone(phone), source, now)
  }

  /** Appending a lead under a new email makes that lead the one every later
      lookup by the email finds; a lookup of any other email is unaffected.
      This is what makes creation idempotent by email: a second request with
      the same email finds the first one's row. */
  lemma {:induction false} LookupAfterInsert(rows: seq<LeadRow>, row: LeadRow, email: string)
    requires !HasEmail(rows, row.email)
    ensures FirstWithEmail(rows + [row], row.email) == Some(row)
    ensures email != row.email ==> FirstWithEmail(rows + [row], email) == FirstWithEmail(rows, email)
  {
    if |rows| == 0 {
      assert rows + [row] == [row];
    } else {
      assert (rows + [row])[1..] == rows[1..] + [row];
      forall i | 0 <= i < |rows[1..]| ensures rows[1..][i].email != row.email {
        assert rows[1..][i] == rows[i + 1];
      }
      LookupAfterInsert(rows[1..], row, email);
    }
  }

  /** The lookup reports a stored lead once one is stored: appending any row
      keeps the first match. */
  lemma {:induction false} LookupStable(rows: seq<LeadRow>, row: LeadRow, email: string)
    requires HasEmail(rows, email)
    ensures FirstWithEmail(rows + [row], email) == FirstWithEmail(rows, email)
  {
    if rows[0].email != email {
      assert (rows + [row])[1..] == rows[1..] + [row];
      assert HasEmail(rows[1..], email) by {
        var i :| 0 <= i < |rows| && rows[i].email == email;
        assert rows[1..][i - 1].email == email;
      }
      LookupStable(rows[1..], row, email);
    }
  }

  /** The fields handed to `emailService.sendLeadNotification`. */
  datatype Notice = Notice(name: string, email: string, phone: Option<string>, source: Option<string>)

  /** The JSON bodies of the lead endpoints. */
  datatype LeadBody =
    | Refused(error: string)
    | Acknowledged(id: Option<string>, message: string, isNew: bool)
    // `{ ...newLead, isNew }`: the returned columns id, name, email, created_at
    | Stored(leadId: string, name: string, email: string, createdAt: int, isNew: bool)

  datatype LeadReply = LeadReply(status: int, body: LeadBody)

  /** `!name || !email`. */
  predicate Incomplete(name: Option<string>, email: Option<string>) {
    !Truthy(name) || !Truthy(email)
  }
}
