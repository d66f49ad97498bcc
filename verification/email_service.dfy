/**
 * Outbound email: the SMTP transport, created only when host, user and
 * password are configured and then kept for every later call, and the two
 * enrollment messages with their fixed subjects and plain-text bodies. A
 * send reports whether it went out and never fails the caller.
 */
module EmailService {
  import opened Shared
  import Text

  /** The SMTP_HOST, SMTP_USER, SMTP_PASS, SMTP_PORT, SMTP_SECURE and SMTP_FROM settings. */
  datatype SmtpEnv = SmtpEnv(
    host: Option<string>,
    user: Option<string>,
    pass: Option<string>,
    port: Option<string>,
    secure: Option<string>,
    from: Option<string>)

  /** A transport's settings; a port of `None` is the not-a-number a malformed SMTP_PORT parses to. */
  datatype Transporter = Transporter(host: string, port: Option<int>, secure: bool, user: string, pass: string)

  const DefaultPort: string := "587"

  /** The default port text reads as port 587. */
  lemma DefaultPortParses()
    ensures Text.ParseInt(DefaultPort) == Some(587)
  {
    var s := DefaultPort;
    assert Text.IsDigit(s[0]) && Text.IsDigit(s[1]) && Text.IsDigit(s[2]);
    assert s[..2][..1] == "5" && s[..2] == "58";
    assert Text.DigitsValue("5") == 5 by {
      assert "5"[..0] == "";
    }
    assert Text.DigitsValue(s[..2]) == 58;
    assert Text.DigitsValue(s) == 587;
    Text.ParseIntOfDigits(s);
  }

  predicate Configured(env: SmtpEnv) {
    Truthy(env.host) && Truthy(env.user) && Truthy(env.pass)
  }

  /**
   * The transport for a call, given the one kept from earlier calls. `loadOk`
   * says whether loading the mail library and creating the transport succeed.
   * The kept transport after the call is always the result.
   */
  function GetTransporter(cached: Option<Transporter>, env: SmtpEnv, loadOk: bool): (r: Option<Transporter>)
    ensures cached.Some? ==> r == cached
    ensures cached.None? ==> (r.Some? <==> Configured(env) && loadOk)
    ensures cached.None? && r.Some? ==>
              && r.value.host == env.host.value && r.value.user == env.user.value && r.value.pass == env.pass.value
              && (r.value.secure <==> env.secure == Some("true"))
              && (Truthy(env.port) ==> r.value.port == Text.ParseInt(env.port.value))
              && (!Truthy(env.port) ==> r.value.port == Some(587))
  {
    if cached.Some? then cached
    else if !Configured(env) || !loadOk then None
    else
      var portText := if Truthy(env.port) then env.port.value else DefaultPort;
      DefaultPortParses();
      Some(Transporter(env.host.value, Text.ParseInt(portText), env.secure == Some("true"), env.user.value, env.pass.value))
  }

  /** Once a transport exists, every later call returns it, whatever the settings then say. */
  lemma TransporterIsKept(cached: Option<Transporter>, env: SmtpEnv, loadOk: bool, later: SmtpEnv, laterOk: bool)
    requires GetTransporter(cached, env, loadOk).Some?
    ensures var t := GetTransporter(cached, env, loadOk);
            GetTransporter(t, later, laterOk) == t
  {
  }

  datatype Attachment = Attachment(filename: string, content: string)

  /** The mail handed to the transport (its HTML alternative is not modelled). */
  datatype Mail = Mail(from: Option<string>, to: string, subject: string, text: string, attachments: Option<seq<Attachment>>)

  /** What a send reports, the mail it handed to the transport if any, and the transport kept afterwards. */
  datatype SendOutcome = SendOutcome(sent: bool, attempted: Option<Mail>, cache: Option<Transporter>)

  datatype Applicant = Applicant(fullName: string, phone: string, email: string, idNumber: string)

  /** The sender: SMTP_FROM when set, else SMTP_USER. */
  function Sender(env: SmtpEnv): (r: Option<string>)
    ensures Truthy(env.from) ==> r == env.from
    ensures !Truthy(env.from) ==> r == env.user
  {
    if Truthy(env.from) then env.from else env.user
  }

  const EnDash: string := "\U{2013}"

  function NotificationLines(a: Applicant, voucherLink: string): seq<string> {
    ["New enrollment request", "", "Applicant: " + a.fullName, "Email: " + a.email, "Phone: " + a.phone,
     "ID: " + a.idNumber, "", "Voucher: " + voucherLink]
  }

  function NotificationText(a: Applicant, voucherLink: string): string {
    Text.Join(NotificationLines(a, voucherLink), '\n')
  }

  function NotificationSubject(a: Applicant): string {
    "New enrollment " + EnDash + " " + a.fullName
  }

  /**
   * The plain-text body reads, line by line: a heading, a blank line, the
   * applicant's name, email, phone and ID number in that order, a blank line
   * and the voucher link (when no field breaks a line).
   */
  lemma NotificationTextLayout(a: Applicant, voucherLink: string)
    requires '\n' !in a.fullName && '\n' !in a.email && '\n' !in a.phone && '\n' !in a.idNumber && '\n' !in voucherLink
    ensures var lines := Text.Split(NotificationText(a, voucherLink), '\n');
            && |lines| == 8
            && lines[0] == "New enrollment request" && lines[1] == "" && lines[6] == ""
            && lines[2] == "Applicant: " + a.fullName
            && lines[3] == "Email: " + a.email
            && lines[4] == "Phone: " + a.phone
            && lines[5] == "ID: " + a.idNumber
            && lines[7] == "Voucher: " + voucherLink
  {
    var ls := NotificationLines(a, voucherLink);
    forall i | 0 <= i < |ls|
      ensures '\n' !in ls[i]
    {
      var prefix := ["New enrollment request", "", "Applicant: ", "Email: ", "Phone: ", "ID: ", "", "Voucher: "][i];
      var field := [ "", "", a.fullName, a.email, a.phone, a.idNumber, "", voucherLink][i];
      assert ls[i] == prefix + field;
      assert '\n' !in prefix;
      assert forall k :: 0 <= k < |ls[i]| ==> ls[i][k] != '\n' by {
        forall k | 0 <= k < |ls[i]|
          ensures ls[i][k] != '\n'
        {
          if k < |prefix| {
            assert ls[i][k] == prefix[k];
          } else {
            assert ls[i][k] == field[k - |prefix|];
          }
        }
      }
    }
    Text.SplitJoin(ls, '\n');
  }

  /**
   * Tell an academy about a new enrollment. Without a transport nothing is
   * sent and the answer is false; otherwise one mail is handed over, with
   * attachments only when there are any, and the answer is whether delivery
   * (`delivered`) succeeded.
   */
  function SendEnrollmentNotification(cached: Option<Transporter>, env: SmtpEnv, loadOk: bool, to: string,
                                      a: Applicant, voucherLink: string, attachments: seq<Attachment>,
                                      delivered: bool): (r: SendOutcome)
    ensures r.cache == GetTransporter(cached, env, loadOk)
    ensures r.attempted.Some? <==> r.cache.Some?
    ensures r.sent <==> r.cache.Some? && delivered
    ensures r.attempted.Some? ==>
              var m := r.attempted.value;
              && (Truthy(env.from) ==> m.from == env.from) && (!Truthy(env.from) ==> m.from == env.user)
              && m.to == to
              && m.subject == NotificationSubject(a)
              && m.text == NotificationText(a, voucherLink)
              && (m.attachments.Some? <==> |attachments| > 0)
              && (m.attachments.Some? ==> m.attachments.value == attachments)
  {
    var t := GetTransporter(cached, env, loadOk);
    if t.None? then SendOutcome(false, None, t)
    else
      var mail := Mail(Sender(env), to, NotificationSubject(a), NotificationText(a, voucherLink),
                       if |attachments| > 0 then Some(attachments) else None);
      SendOutcome(delivered, Some(mail), t)
  }

  function DecisionSubject(academyName: string, approved: bool): string {
    if approved then "Enrollment approved " + EnDash + " " + academyName
    else "Enrollment not approved " + EnDash + " " + academyName
  }

  function DecisionText(academyName: string, approved: bool): string {
    if approved then "Your enrollment at " + academyName + " has been approved."
    else "Your enrollment at " + academyName + " was not approved. Contact the academy for more information."
  }

  /** Both decisions name the academy in subject and body, and the two subjects never coincide. */
  lemma DecisionMessages(academyName: string, approved: bool)
    ensures Text.Contains(DecisionSubject(academyName, approved), academyName)
    ensures Text.Contains(DecisionText(academyName, approved), academyName)
    ensures DecisionSubject(academyName, true) != DecisionSubject(academyName, false)
  {
    if approved {
      Text.ContainsMiddle("Enrollment approved " + EnDash + " ", academyName, "");
      assert DecisionSubject(academyName, approved) == "Enrollment approved " + EnDash + " " + academyName + "";
      Text.ContainsMiddle("Your enrollment at ", academyName, " has been approved.");
    } else {
      Text.ContainsMiddle("Enrollment not approved " + EnDash + " ", academyName, "");
      assert DecisionSubject(academyName, approved) == "Enrollment not approved " + EnDash + " " + academyName + "";
      Text.ContainsMiddle("Your enrollment at ", academyName,
                          " was not approved. Contact the academy for more information.");
    }
    assert DecisionSubject(academyName, true)[11] == 'a';
    assert DecisionSubject(academyName, false)[11] == 'n';
  }

  /** Tell an applicant the academy's decision; gating and result as for the notification. */
  function SendEnrollmentDecision(cached: Option<Transporter>, env: SmtpEnv, loadOk: bool, to: string,
                                  academyName: string, approved: bool, delivered: bool): (r: SendOutcome)
    ensures r.cache == GetTransporter(cached, env, loadOk)
    ensures r.attempted.Some? <==> r.cache.Some?
    ensures r.sent <==> r.cache.Some? && delivered
    ensures r.attempted.Some? ==>
              var m := r.attempted.value;
              && (Truthy(env.from) ==> m.from == env.from) && (!Truthy(env.from) ==> m.from == env.user)
              && m.to == to && m.attachments.None?
              && m.subject == DecisionSubject(academyName, approved)
              && m.text == DecisionText(academyName, approved)
  {
    var t := GetTransporter(cached, env, loadOk);
    if t.None? then SendOutcome(false, None, t)
    else SendOutcome(delivered, Some(Mail(Sender(env), to, DecisionSubject(academyName, approved),
                                          DecisionText(academyName, approved), None)), t)
  }

  /** With no transport kept and no complete configuration, neither message goes out. */
  lemma UnconfiguredSendsNothing(env: SmtpEnv, loadOk: bool, to: string, a: Applicant, link: string,
                                 attachments: seq<Attachment>, name: string, approved: bool, delivered: bool)
    requires !Configured(env)
    ensures SendEnrollmentNotification(None, env, loadOk, to, a, link, attachments, delivered) == SendOutcome(false, None, None)
    ensures SendEnrollmentDecision(None, env, loadOk, to, name, approved, delivered) == SendOutcome(false, None, None)
  {
  }
}
