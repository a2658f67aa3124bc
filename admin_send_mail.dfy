/**
 * The administrator's test mail: admin guard, then `ADMIN_MAIL`, then one mail
 * to that address from that address, whose outcome, unlike the notifications of
 * the other handlers, is awaited and reported.
 */
module AdminSendMail {
  import opened Wrappers
  import opened Text
  import opened Json
  import opened Platform
  import opened AdminAuth

  const DefaultSubject := "PumpFoilMap notification"
  const DefaultMessage := "Bonjour,\nUn événement administrateur a été déclenché."

  /** What one request answers, and the mail it hands to `sendEmail` (at most one). */
  datatype Sending = Sending(response: Response, mails: seq<Email>)

  /** The parsed body; a missing or unparsable body reads as `{}`, here without any error. */
  function MailBody(b: Body): (v: Value)
    ensures b.Parsed? ==> v == b.json
    ensures !b.Parsed? ==> v == Obj(map[])
  {
    if b.Parsed? then b.json else Obj(map[])
  }

  /**
   * `body?.subject || default` and `body?.message || default`. Both are truthy,
   * so with a non-empty address the argument check inside `sendEmail` never throws.
   */
  function Compose(body: Value, adminMail: string): (m: Email)
    ensures Truthy(m.subject) && Truthy(m.text)
    ensures m.to == Str(adminMail) && m.source == Some(adminMail)
    ensures Present(Field(body, "subject")) ==> m.subject == Field(body, "subject").value
    ensures !Present(Field(body, "subject")) ==> m.subject == Str(DefaultSubject)
    ensures Present(Field(body, "message")) ==> m.text == Field(body, "message").value
    ensures !Present(Field(body, "message")) ==> m.text == Str(DefaultMessage)
  {
    assert |DefaultSubject| > 0 && |DefaultMessage| > 0;
    Email(Str(adminMail), OrElse(Field(body, "subject"), Str(DefaultSubject)),
      OrElse(Field(body, "message"), Str(DefaultMessage)), Some(adminMail))
  }

  /** `{ ok: true, messageId }`; an undefined `messageId` is dropped by `JSON.stringify`. */
  function Outcome(o: MailOutcome): (r: Response)
    ensures o.Failed? ==> r == InternalError()
    ensures o.Delivered? ==> r.statusCode == 200 && r.body.JsonBody? && r.body.json.Obj? && "ok" in r.body.json.fields
    ensures o.Delivered? ==> r.body.json.fields["ok"] == Bool(true)
    ensures o.Delivered? ==> ("messageId" in r.body.json.fields <==> o.messageId.Some?)
    ensures o.Delivered? && o.messageId.Some? ==> r.body.json.fields["messageId"] == Str(o.messageId.value)
  {
    match o
    case Failed => InternalError()
    case Delivered(None) => Reply(200, map["ok" := Bool(true)])
    case Delivered(Some(mid)) => Reply(200, map["ok" := Bool(true), "messageId" := Str(mid)])
  }

  /** The handler; `deliver` is the awaited outcome of `sendEmail` on the mail. */
  function SendMail(req: Request, cfg: Config, md5: string -> string, deliver: Email -> MailOutcome): (s: Sending)
    ensures Gate(req.headers, cfg.adminToken, md5).Some? ==> s == Sending(Gate(req.headers, cfg.adminToken, md5).value, [])
    ensures Gate(req.headers, cfg.adminToken, md5).None? && Trim(cfg.adminMail) == "" ==>
      s == Sending(Message(500, "ADMIN_MAIL not configured"), [])
    ensures s.mails != [] <==> Gate(req.headers, cfg.adminToken, md5).None? && Trim(cfg.adminMail) != ""
    ensures s.mails != [] ==>
      && s.mails == [Compose(MailBody(req.body), Trim(cfg.adminMail))]
      && s.response == Outcome(deliver(s.mails[0]))
  {
    var gate := Gate(req.headers, cfg.adminToken, md5);
    if gate.Some? then Sending(gate.value, [])
    else
      var adminMail := Trim(cfg.adminMail);
      if adminMail == "" then Sending(Message(500, "ADMIN_MAIL not configured"), [])
      else
        var mail := Compose(MailBody(req.body), adminMail);
        Sending(Outcome(deliver(mail)), [mail])
  }

  /** A 200 answer means the mail went out, once, to the trimmed `ADMIN_MAIL`. */
  lemma OkMeansSent(req: Request, cfg: Config, md5: string -> string, deliver: Email -> MailOutcome)
    requires SendMail(req, cfg, md5, deliver).response.statusCode == 200
    ensures var s := SendMail(req, cfg, md5, deliver);
      |s.mails| == 1 && s.mails[0].to == Str(Trim(cfg.adminMail)) && deliver(s.mails[0]).Delivered?
  {
  }

  /** Without a body, or with one that does not parse, the mail carries the default subject and text. */
  lemma DefaultsWithoutBody(b: Body, adminMail: string)
    requires !b.Parsed?
    ensures Compose(MailBody(b), adminMail).subject == Str(DefaultSubject)
    ensures Compose(MailBody(b), adminMail).text == Str(DefaultMessage)
  {
    assert Field(Obj(map[]), "subject") == None && Field(Obj(map[]), "message") == None;
  }

  /** A falsy `subject` (here an empty string) falls back to the default like a missing one. */
  lemma EmptySubjectFallsBack(adminMail: string, text: Value)
    ensures Compose(Obj(map["subject" := Str(""), "message" := text]), adminMail).subject == Str(DefaultSubject)
  {
  }

  /** Without `ADMIN_MAIL` no mail is sent, whoever asks. */
  lemma NoMailWithoutAdminMail(req: Request, token: string, md5: string -> string, deliver: Email -> MailOutcome)
    ensures SendMail(req, Config(token, ""), md5, deliver).mails == []
    ensures SendMail(req, Config(token, ""), md5, deliver).response.statusCode in {400, 401, 500}
  {
  }
}
