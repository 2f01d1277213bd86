/** The contact-form mail relay (public/send_mail.php): one request in, at
    most one mail out. `strip_tags`, the e-mail address filter and `mail()`
    are the platform's; the first two are parameters, the third an outcome. */
module SendMail {
  import opened Common

  const Recipient: string := "hello@themaplin.com"
  const Intro: string := "You have received a new message from your website contact form."
  const Sender: string := "From: noreply@themaplin.com\n"

  /** What `json_decode($input, true)` yields: nothing (invalid JSON) or a value. */
  datatype Decoded = NotJson | Value(json: Json)

  /** PHP truthiness of a string: "" and "0" are false. */
  predicate TruthyText(s: string) {
    s != "" && s != "0"
  }

  /** PHP truthiness of a decoded value; an empty object decodes to an
      empty array and so is false. */
  function TruthyValue(d: Decoded): (b: bool)
    ensures b ==> d.Value? && !d.json.JNull?
    ensures d.Value? && d.json.JStr? ==> (b <==> TruthyText(d.json.s))
    ensures d.Value? && d.json.JObj? ==> (b <==> d.json.fields != map[])
    ensures d.Value? && d.json.JArr? ==> (b <==> d.json.items != [])
  {
    match d
    case NotJson => false
    case Value(j) =>
      match j
      case JNull => false
      case JBool(b) => b
      case JNum(n) => n != 0
      case JStr(s) => TruthyText(s)
      case JArr(items) => |items| > 0
      case JObj(fields) => |fields| > 0
  }

  /** `$data[key] ?? default` before conversion: only an object field that
      is present and not null counts; indexing anything else is unset. */
  function Lookup(data: Json, key: string): (v: Option<Json>)
    ensures v.Some? ==> data.JObj? && key in data.fields && !v.value.JNull?
  {
    if data.JObj? && key in data.fields && !data.fields[key].JNull? then Some(data.fields[key]) else None
  }

  /** PHP's string conversion of a scalar; None for an array, which the
      string functions refuse with a fatal error. */
  function ScalarText(j: Json): (t: Option<string>)
    ensures t.None? <==> j.JArr? || j.JObj?
    ensures j.JStr? ==> t == Some(j.s)
    ensures j.JNull? || j == JBool(false) ==> t == Some("")
  {
    match j
    case JNull => Some("")
    case JBool(b) => Some(if b then "1" else "")
    case JNum(n) => Some(IntToString(n))
    case JStr(s) => Some(s)
    case JArr(_) => None
    case JObj(_) => None
  }

  /** `strip_tags($data[key] ?? default)`; None when the script dies. */
  function Stripped(data: Json, key: string, default: string, stripTags: string -> string): (r: Option<string>)
    ensures Lookup(data, key).None? ==> r == Some(stripTags(default))
    ensures r.None? <==> Lookup(data, key).Some? && (Lookup(data, key).value.JArr? || Lookup(data, key).value.JObj?)
    ensures Lookup(data, key).Some? && Lookup(data, key).value.JStr? ==> r == Some(stripTags(Lookup(data, key).value.s))
  {
    match Lookup(data, key)
    case None => Some(stripTags(default))
    case Some(j) => if ScalarText(j).Some? then Some(stripTags(ScalarText(j).value)) else None
  }

  /** `filter_var($data['email'] ?? '', FILTER_VALIDATE_EMAIL)`: the address
      when it is one, None for `false`. */
  function FilteredEmail(data: Json, isEmail: string -> bool): (e: Option<string>)
    ensures e.Some? ==> isEmail(e.value)
  {
    var text := match Lookup(data, "email") case None => Some("") case Some(j) => ScalarText(j);
    if text.Some? && isEmail(text.value) then text else None
  }

  /** The fields of the form once read. */
  datatype Form = Form(name: string, email: Option<string>, subject: string, message: string, service: string)

  /** Reads the five fields in the script's order; None when one of them is
      an array that `strip_tags` refuses. */
  function ReadForm(data: Json, stripTags: string -> string, isEmail: string -> bool): (f: Option<Form>)
    ensures data == JObj(map[]) ==>
      f == Some(Form(stripTags("Unknown"), FilteredEmail(data, isEmail), stripTags("Website Inquiry"),
                     stripTags(""), stripTags("")))
  {
    var name := Stripped(data, "name", "Unknown", stripTags);
    var subject := Stripped(data, "subject", "Website Inquiry", stripTags);
    var message := Stripped(data, "message", "", stripTags);
    var service := Stripped(data, "service", "", stripTags);
    if name.None? || subject.None? || message.None? || service.None? then None
    else Some(Form(name.value, FilteredEmail(data, isEmail), subject.value, message.value, service.value))
  }

  /** The subject line: a booking when a service is named, an inquiry otherwise. */
  function SubjectFor(f: Form): (s: string)
    ensures TruthyText(f.service) ==> s == "Booking Request: " + f.service + " - from " + f.name
    ensures !TruthyText(f.service) ==> s == "New Inquiry: " + f.subject + " - from " + f.name
  {
    if TruthyText(f.service) then "Booking Request: " + f.service + " - from " + f.name
    else "New Inquiry: " + f.subject + " - from " + f.name
  }

  /** A service line never reads as a subject line. */
  lemma LineLabelsDiffer(service: string, subject: string)
    ensures "Service: " + service != "Subject: " + subject
  {
    assert ("Service: " + service)[1] != ("Subject: " + subject)[1];
  }

  /** The lines of the message body: the introduction, a blank line, the
      name and address, the service or else the subject, a blank line, and
      the message under its heading. */
  function BodyLines(f: Form, email: string): (lines: seq<string>)
    ensures |lines| == 8
    ensures lines[2] == "Name: " + f.name && lines[3] == "Email: " + email
    ensures TruthyText(f.service) <==> lines[4] == "Service: " + f.service
    ensures !TruthyText(f.service) <==> lines[4] == "Subject: " + f.subject
    ensures lines[6] == "Message:" && lines[7] == f.message
  {
    LineLabelsDiffer(f.service, f.subject);
    [Intro, "", "Name: " + f.name, "Email: " + email,
     if TruthyText(f.service) then "Service: " + f.service else "Subject: " + f.subject,
     "", "Message:", f.message]
  }

  /** Each line followed by a newline. */
  function Unlines(lines: seq<string>): string {
    if |lines| == 0 then "" else Unlines(lines[..|lines| - 1]) + lines[|lines| - 1] + "\n"
  }

  /** Adding a line adds exactly that line and a newline at the end. */
  lemma UnlinesAppend(lines: seq<string>, line: string)
    ensures Unlines(lines + [line]) == Unlines(lines) + line + "\n"
  {
    assert (lines + [line])[..|lines|] == lines;
  }

  /** Every line is found, newline-terminated, at the offset the lines
      before it take up. */
  lemma {:induction false} UnlinesLayout(lines: seq<string>, k: nat)
    requires k < |lines|
    ensures Unlines(lines) == Unlines(lines[..k]) + lines[k] + "\n" + Unlines(lines[k + 1..])
    decreases |lines|
  {
    var n := |lines|;
    if k == n - 1 {
      assert lines[..n - 1] == lines[..k];
      assert lines[k + 1..] == [];
    } else {
      var init, last := lines[..n - 1], lines[n - 1];
      var before, after := Unlines(lines[..k]), Unlines(init[k + 1..]);
      assert Unlines(lines) == Unlines(init) + last + "\n";
      assert Unlines(init) == before + lines[k] + "\n" + after by {
        UnlinesLayout(init, k);
        assert init[..k] == lines[..k] && init[k] == lines[k];
      }
      assert Unlines(lines[k + 1..]) == after + last + "\n" by {
        assert lines[k + 1..] == init[k + 1..] + [last];
        UnlinesAppend(init[k + 1..], last);
      }
    }
  }

  /** What `mail()` is handed. */
  datatype Mail = Mail(to: string, subject: string, body: string, headers: string)

  datatype Ack = Ack(success: bool, message: string)

  /** The script's answer: a status and JSON body, or death by a fatal error. */
  datatype Reply = Answered(status: int, ack: Option<Ack>) | Crashed

  /** The mail sent for a form with a valid address: to the fixed
      recipient, with the form's subject line and body, replies going to
      the sender's address. */
  function MailFor(f: Form, email: string): (m: Mail)
    ensures m.to == Recipient && m.subject == SubjectFor(f) && m.body == Unlines(BodyLines(f, email))
    ensures m.headers == Sender + "Reply-To: " + email
  {
    Mail(Recipient, SubjectFor(f), Unlines(BodyLines(f, email)), Sender + "Reply-To: " + email)
  }

  /** Builds the subject, body and headers as the script does, appending
      piece by piece. */
  method Compose(f: Form, email: string) returns (m: Mail)
    ensures m == MailFor(f, email)
  {
    ghost var lines := BodyLines(f, email);
    var subject := SubjectFor(f);
    var body := Intro + "\n\n" + "Name: " + f.name + "\n" + "Email: " + email + "\n";
    assert body == Unlines(lines[..4]) by { OpeningLines(f, email); }
    if TruthyText(f.service) {
      body := body + "Service: " + f.service + "\n";
    } else {
      body := body + "Subject: " + f.subject + "\n";
    }
    assert body == Unlines(lines[..5]) by { UnlinesAppend(lines[..4], lines[4]); assert lines[..4] + [lines[4]] == lines[..5]; }
    body := body + "\nMessage:\n" + f.message + "\n";
    assert body == Unlines(lines) by { ClosingLines(lines, f.message); }
    var headers := Sender;
    headers := headers + "Reply-To: " + email;
    m := Mail(Recipient, subject, body, headers);
  }

  /** The whole script for one request. `mailAccepted` is what `mail()` returns. */
  method Handle(
    requestMethod: string,
    decoded: Decoded,
    stripTags: string -> string,
    isEmail: string -> bool,
    mailAccepted: bool)
    returns (reply: Reply, sent: Option<Mail>)
    ensures requestMethod == "OPTIONS" ==> reply == Answered(200, None) && sent.None?
    ensures requestMethod != "OPTIONS" && requestMethod != "POST" ==>
      reply == Answered(405, Some(Ack(false, "Method not allowed"))) && sent.None?
    ensures requestMethod == "POST" && !TruthyValue(decoded) ==>
      reply == Answered(400, Some(Ack(false, "Invalid JSON input"))) && sent.None?
    ensures requestMethod == "POST" && TruthyValue(decoded) && ReadForm(decoded.json, stripTags, isEmail).None? ==>
      reply == Crashed && sent.None?
    ensures requestMethod == "POST" && TruthyValue(decoded) && ReadForm(decoded.json, stripTags, isEmail).Some? ==>
      var f := ReadForm(decoded.json, stripTags, isEmail).value;
      && (f.email.None? || !TruthyText(f.email.value) ==>
            reply == Answered(400, Some(Ack(false, "Valid email is required"))) && sent.None?)
      && (f.email.Some? && TruthyText(f.email.value) ==>
            && sent == Some(MailFor(f, f.email.value))
            && (mailAccepted ==> reply == Answered(200, Some(Ack(true, "Message sent successfully!"))))
            && (!mailAccepted ==> reply == Answered(500, Some(Ack(false, "Server failed to send email.")))))
    ensures sent.Some? ==> sent.value.to == Recipient && requestMethod == "POST"
  {
    sent := None;
    if requestMethod == "OPTIONS" {
      return Answered(200, None), None;
    }
    if requestMethod != "POST" {
      return Answered(405, Some(Ack(false, "Method not allowed"))), None;
    }
    if !TruthyValue(decoded) {
      return Answered(400, Some(Ack(false, "Invalid JSON input"))), None;
    }
    var form := ReadForm(decoded.json, stripTags, isEmail);
    if form.None? {
      return Crashed, None;
    }
    var f := form.value;
    if f.email.None? || !TruthyText(f.email.value) {
      return Answered(400, Some(Ack(false, "Valid email is required"))), None;
    }
    var mail := Compose(f, f.email.value);
    sent := Some(mail);
    if mailAccepted {
      reply := Answered(200, Some(Ack(true, "Message sent successfully!")));
    } else {
      reply := Answered(500, Some(Ack(false, "Server failed to send email.")));
    }
  }

  /** The opening of the body is its first four lines. */
  lemma OpeningLines(f: Form, email: string)
    ensures Unlines(BodyLines(f, email)[..4]) == Intro + "\n\n" + "Name: " + f.name + "\n" + "Email: " + email + "\n"
  {
    var lines := BodyLines(f, email);
    assert Unlines(lines[..1]) == Intro + "\n" by { UnlinesAppend([], Intro); assert lines[..1] == [] + [Intro]; }
    assert Unlines(lines[..2]) == Intro + "\n\n" by { UnlinesAppend(lines[..1], ""); assert lines[..2] == lines[..1] + [""]; }
    assert Unlines(lines[..3]) == Intro + "\n\n" + "Name: " + f.name + "\n" by {
      UnlinesAppend(lines[..2], lines[2]); assert lines[..3] == lines[..2] + [lines[2]];
    }
    UnlinesAppend(lines[..3], lines[3]);
    assert lines[..4] == lines[..3] + [lines[3]];
  }

  /** The closing append adds the blank line, the heading and the message. */
  lemma ClosingLines(lines: seq<string>, message: string)
    requires |lines| == 8 && lines[5] == "" && lines[6] == "Message:" && lines[7] == message
    ensures Unlines(lines[..5]) + "\nMessage:\n" + message + "\n" == Unlines(lines)
  {
    UnlinesAppend(lines[..5], "");
    assert lines[..6] == lines[..5] + [""];
    UnlinesAppend(lines[..6], "Message:");
    assert lines[..7] == lines[..6] + ["Message:"];
    UnlinesAppend(lines[..7], message);
    assert lines == lines[..7] + [message];
  }

  /** The mail opens with the introduction line and closes with the
      message, newline-terminated; the service or subject line sits right
      after the first four lines. */
  lemma BodyFraming(f: Form, email: string)
    ensures var b := Unlines(BodyLines(f, email));
      && |b| > |Intro| + |f.message| + 1
      && b[..|Intro| + 1] == Intro + "\n"
      && b[|b| - |f.message| - 1..] == f.message + "\n"
    ensures var lines := BodyLines(f, email);
      Unlines(lines) == Unlines(lines[..4]) + lines[4] + "\n" + Unlines(lines[5..])
  {
    var lines := BodyLines(f, email);
    var b := Unlines(lines);
    UnlinesLayout(lines, 0);
    assert Unlines(lines[..0]) == "";
    UnlinesLayout(lines, 7);
    assert Unlines(lines[8..]) == "";
    UnlinesLayout(lines, 4);
    OpeningLines(f, email);
    assert b[..|Intro| + 1] == Intro + "\n";
    assert b[|b| - |f.message| - 1..] == f.message + "\n";
  }

  /** A service named "0" is no service to PHP: the mail is an inquiry. */
  lemma ServiceZeroIsAnInquiry(f: Form)
    requires f.service == "0"
    ensures SubjectFor(f) == "New Inquiry: " + f.subject + " - from " + f.name
    ensures BodyLines(f, "")[4] == "Subject: " + f.subject
  {
  }

  /** An empty JSON object is refused as invalid input, as is anything that
      is not JSON; a non-empty object is read as a form. */
  lemma EmptyObjectIsInvalid()
    ensures !TruthyValue(Value(JObj(map[])))
    ensures !TruthyValue(NotJson)
    ensures TruthyValue(Value(JObj(map["email" := JStr("a@b.c")])))
  {
    assert |map["email" := JStr("a@b.c")]| == 1;
  }
}
