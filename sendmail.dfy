/**
 * The sendmail processor (src/workers/email_processor.ts): decode the job
 * data, build the outgoing message with the configured defaults and the test
 * address override, and hand it to the mail transport. Transport errors are
 * logged and swallowed, so every job ends normally.
 */
module Sendmail {
  import opened Wrappers
  import opened Json
  import opened Queue

  /** `SendmailProcessorInputT`: three strings. */
  datatype SendmailInput = SendmailInput(content: string, subject: string, to: string)

  function EncodeInput(i: SendmailInput): Value
  {
    Obj(map["content" := Str(i.content), "subject" := Str(i.subject), "to" := Str(i.to)])
  }

  function DecodeInput(v: Value): (r: Option<SendmailInput>)
    ensures r.Some? ==>
      && IsObject(v)
      && Field(v, "content") == Str(r.value.content)
      && Field(v, "subject") == Str(r.value.subject)
      && Field(v, "to") == Str(r.value.to)
  {
    if !IsObject(v) then None
    else
      var content := Field(v, "content");
      var subject := Field(v, "subject");
      var to := Field(v, "to");
      if content.Str? && subject.Str? && to.Str?
      then Some(SendmailInput(content.s, subject.s, to.s))
      else None
  }

  /** Configuration read by the processor; unset variables are None. */
  datatype MailConfig = MailConfig(
    from: Option<string>,
    replyTo: Option<string>,
    testAddress: Option<string>,
    organizationName: string,
    serviceName: string)

  /** The (unseen) default e-mail template applied to its four arguments. */
  datatype Html = DefaultTemplate(title: string, organization: string, service: string, body: string)

  /** The (foreign) plain-text rendering of an HTML body. */
  datatype PlainText = TextOf(html: Html)

  datatype MailMessage = MailMessage(
    from: string,
    html: Html,
    replyTo: string,
    subject: string,
    text: PlainText,
    to: string)

  /** `x || fallback` for an optional string. */
  function Or(x: Option<string>, fallback: string): string
  {
    if x.Some? && x.value != "" then x.value else fallback
  }

  function BuildMessage(input: SendmailInput, cfg: MailConfig): MailMessage
  {
    var html := DefaultTemplate(input.subject, cfg.organizationName, cfg.serviceName, input.content);
    MailMessage(Or(cfg.from, ""), html, Or(cfg.replyTo, ""), input.subject, TextOf(html), Or(cfg.testAddress, input.to))
  }

  /** The transport: every message handed over, and those it accepted. */
  class Transport {
    var attempted: seq<MailMessage>
    var delivered: seq<MailMessage>

    constructor()
      ensures attempted == [] && delivered == []
    {
      attempted, delivered := [], [];
    }

    /** `sendMail`; a failure is reported to the caller as `ok == false`. */
    method SendMail(m: MailMessage, fails: bool) returns (ok: bool)
      modifies this
      ensures ok == !fails
      ensures attempted == old(attempted) + [m]
      ensures delivered == if ok then old(delivered) + [m] else old(delivered)
    {
      attempted := attempted + [m];
      ok := !fails;
      if ok { delivered := delivered + [m]; }
    }
  }

  /** The "sendmail" job handler; `transportFails` is the transport's answer. */
  method Process(t: Transport, data: Value, cfg: MailConfig, transportFails: bool) returns (outcome: JobOutcome)
    modifies t
    ensures outcome == Completed
    ensures DecodeInput(data).None? ==> t.attempted == old(t.attempted) && t.delivered == old(t.delivered)
    ensures DecodeInput(data).Some? ==>
      var m := BuildMessage(DecodeInput(data).value, cfg);
      && t.attempted == old(t.attempted) + [m]
      && t.delivered == (if transportFails then old(t.delivered) else old(t.delivered) + [m])
  {
    var input := DecodeInput(data);
    if input.None? {
      return Completed;
    }
    var message := BuildMessage(input.value, cfg);
    var ok := t.SendMail(message, transportFails);
    // a failed send is only logged
    outcome := Completed;
  }

  // ---- properties -------------------------------------------------------

  /** Job data is accepted exactly when `content`, `subject` and `to` are strings. */
  lemma DecodeAcceptsStrings(v: Value)
    ensures DecodeInput(v).Some? <==>
      IsObject(v) && Field(v, "content").Str? && Field(v, "subject").Str? && Field(v, "to").Str?
  {
  }

  lemma InputRoundTrip(i: SendmailInput)
    ensures DecodeInput(EncodeInput(i)) == Some(i)
  {
    var v := EncodeInput(i);
    assert Field(v, "content") == Str(i.content);
    assert Field(v, "subject") == Str(i.subject);
    assert Field(v, "to") == Str(i.to);
  }

  /**
   * Any other field of the job data, `attachments` included, has no effect on
   * the message: attachments are never forwarded.
   */
  lemma OtherFieldsIgnored(fields: map<string, Value>, key: string, x: Value)
    requires key != "content" && key != "subject" && key != "to"
    ensures DecodeInput(Obj(fields[key := x])) == DecodeInput(Obj(fields))
  {
    assert Field(Obj(fields[key := x]), "content") == Field(Obj(fields), "content");
    assert Field(Obj(fields[key := x]), "subject") == Field(Obj(fields), "subject");
    assert Field(Obj(fields[key := x]), "to") == Field(Obj(fields), "to");
  }

  /** The test address, when set and non-empty, replaces the recipient; otherwise `to` is used. */
  lemma RecipientChoice(input: SendmailInput, cfg: MailConfig)
    ensures cfg.testAddress.Some? && cfg.testAddress.value != "" ==> BuildMessage(input, cfg).to == cfg.testAddress.value
    ensures (cfg.testAddress.None? || cfg.testAddress.value == "") ==> BuildMessage(input, cfg).to == input.to
  {
  }

  /** Sender and reply-to fall back to "" when unconfigured; subject and body pass through. */
  lemma MessageDefaults(input: SendmailInput, cfg: MailConfig)
    ensures cfg.from.None? ==> BuildMessage(input, cfg).from == ""
    ensures cfg.replyTo.None? ==> BuildMessage(input, cfg).replyTo == ""
    ensures BuildMessage(input, cfg).subject == input.subject
    ensures BuildMessage(input, cfg).html.body == input.content
    ensures BuildMessage(input, cfg).text == TextOf(BuildMessage(input, cfg).html)
  {
  }
}
