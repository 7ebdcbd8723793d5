/**
 * The node-events dispatcher (src/workers/node_events_dispatcher.ts): for
 * every message published on the node-events channel it decodes the webhook
 * payload and queues
 *  - a "declaration published" mail to the owner and a link-verifier job,
 *    when an accessibility declaration moves to "published";
 *  - the report mail to the ombudsman, when a new implementation procedure
 *    is inserted and an ombudsman address is configured.
 * The user-info query, the e-mail syntax check and the clock are inputs.
 */
module Dispatcher {
  import opened Wrappers
  import opened Json
  import opened Text
  import opened Payload
  import opened Events
  import opened Queue
  import Sendmail
  import DeclPublished
  import ReportPublished

  const DECLARATION: string := "dichiarazione_accessibilita"
  const PROCEDURE: string := "procedura_attuazione"
  const PUBLISHED: string := "published"

  /**
   * What the dispatcher depends on besides the message:
   *  - ombudsmanEmail: OMBUDSMAN_EMAIL ("" when unset);
   *  - users: the user-info query by user id; None when it reports errors,
   *    otherwise the `user` rows' `email` columns (None for null);
   *  - isEmail: `EmailString.is`;
   *  - isDate: what `DateFromString` accepts.
   */
  datatype Env = Env(
    ombudsmanEmail: string,
    upload: ReportPublished.UploadConfig,
    users: string -> Option<seq<Option<string>>>,
    isEmail: string -> bool,
    isDate: string -> bool,
    now: Stamp)

  /**
   * How handling a message ends: the payload did not decode (logged),
   * the handler ran to its end, it returned early because the owner's
   * address is unusable, or it was rejected by a TypeError (no user row,
   * a report without its upload fields).
   */
  datatype Outcome = Dropped | Finished | ReturnedEarly | Rejected

  // ---- the rules --------------------------------------------------------

  /** An accessibility declaration has just been published. */
  predicate DeclarationPublished(p: WebhookPayload)
  {
    IsNodeOfType(p, DECLARATION) && TransitionedTo(p, PUBLISHED, None)
  }

  /** A new implementation procedure was inserted and an ombudsman is configured. */
  predicate ProcedureInserted(p: WebhookPayload, ombudsmanEmail: string)
  {
    && ombudsmanEmail != ""
    && p.event.data.newNode.Some?
    && p.event.data.oldNode.None?
    && IsNodeOfType(p, PROCEDURE)
  }

  /** `publish:<id>_<version>`, shared by both mails about a node. */
  function PublishJobId(n: Node): string
  {
    "publish:" + n.id + "_" + NatToString(n.version)
  }

  /** `link-verifier:<payload id>` */
  function LinkJobId(p: WebhookPayload): string
  {
    "link-verifier:" + p.id
  }

  /** The owner lookup as the handler sees it. */
  datatype Owner = NoInfo | NoUserRow | FirstEmail(email: Option<string>)

  function OwnerOf(env: Env, n: Node): Owner
  {
    var info := env.users(n.userId);
    if info.None? then NoInfo
    else if |info.value| == 0 then NoUserRow
    else FirstEmail(info.value[0])
  }

  function DeclMessage(n: Node, to: string, now: Stamp): Value
  {
    var content := DeclPublished.EmailDeclPublished(n.id, n.title, now);
    Sendmail.EncodeInput(Sendmail.SendmailInput(content.html, content.title, to))
  }

  function EncodeHeaders(h: map<string, string>): Value
  {
    Obj(map k | k in h :: Str(h[k]))
  }

  /** An attachment as JSON carries it; an absent header map is omitted. */
  function EncodeAttachment(a: ReportPublished.Attachment): Value
  {
    Obj(map["filename" := Str(a.filename), "path" := Str(a.path)]
        + (if a.httpHeaders.Some? then map["httpHeaders" := EncodeHeaders(a.httpHeaders.value)] else map[]))
  }

  function ReportMessage(r: ReportPublished.ReportEmail, to: string): Value
  {
    Obj(map[
      "attachments" := Arr(seq(|r.attachments|, i requires 0 <= i < |r.attachments| => EncodeAttachment(r.attachments[i])), map[]),
      "content" := Str(r.html),
      "subject" := Str(r.title),
      "to" := Str(to)])
  }

  /** The declaration rule: the owner's mail and the link-verifier job, or how it stops. */
  function DeclarationJobs(p: WebhookPayload, message: Value, env: Env): (r: (seq<Job>, Outcome))
    requires DeclarationPublished(p)
    ensures r.1 == Finished || r.0 == []
  {
    var n := p.event.data.newNode.value;
    match OwnerOf(env, n)
    case NoInfo => ([], ReturnedEarly)
    case NoUserRow => ([], Rejected)
    case FirstEmail(e) =>
      if e.None? || e.value == "" then ([], ReturnedEarly)
      else ([Job(SENDMAIL, DeclMessage(n, e.value, env.now), Some(PublishJobId(n))),
             Job(LINK_VERIFIER, message, Some(LinkJobId(p)))], Finished)
  }

  /** The procedure rule: the report mail to the ombudsman, or how it stops. */
  function ProcedureJobs(p: WebhookPayload, env: Env): (r: (seq<Job>, Outcome))
    requires ProcedureInserted(p, env.ombudsmanEmail)
    requires IsObject(p.event.data.newNode.value.content)
    ensures r.1 == Finished || r.0 == []
    ensures |r.0| <= 1
    ensures forall j :: j in r.0 ==> j.name == SENDMAIL && j.jobId == Some(PublishJobId(p.event.data.newNode.value))
  {
    var n := p.event.data.newNode.value;
    match OwnerOf(env, n)
    case NoInfo => ([], ReturnedEarly)
    case NoUserRow => ([], Rejected)
    case FirstEmail(e) =>
      if e.None? || !env.isEmail(e.value) then ([], ReturnedEarly)
      else
        match ReportPublished.EmailReportPublished(n, e.value, env.upload, env.now)
        case None => ([], Rejected)
        case Some(report) =>
          ([Job(SENDMAIL, ReportMessage(report, env.ombudsmanEmail), Some(PublishJobId(n)))], Finished)
  }

  /**
   * The jobs the listener adds for a decoded payload and how its handling
   * ends. The declaration rule and the procedure rule never both hold (one
   * needs the old snapshot, the other its absence).
   */
  function DispatchPayload(p: WebhookPayload, message: Value, env: Env): (r: (seq<Job>, Outcome))
    requires ValidPayload(p, env.isDate)
    ensures |r.0| <= 2
    ensures r.1 != Dropped
    ensures r.1 != Finished ==> r.0 == []
  {
    if DeclarationPublished(p) then DeclarationJobs(p, message, env)
    else if ProcedureInserted(p, env.ombudsmanEmail) then ProcedureJobs(p, env)
    else ([], Finished)
  }

  /** A message that does not decode is dropped; otherwise its payload is dispatched. */
  function Dispatch(message: Value, env: Env): (r: (seq<Job>, Outcome))
    ensures r.1 == Dropped <==> DecodePayload(message, env.isDate).None?
    ensures r.1 == Dropped ==> r.0 == []
  {
    match DecodePayload(message, env.isDate)
    case None => ([], Dropped)
    case Some(p) => DispatchPayload(p, message, env)
  }

  // ---- the handler ------------------------------------------------------

  /** The message listener, run on one message. */
  method HandleMessage(q: JobQueue, message: Value, env: Env) returns (outcome: Outcome)
    modifies q
    ensures q.jobs == old(q.jobs) + Dispatch(message, env).0
    ensures outcome == Dispatch(message, env).1
  {
    var decoded := DecodePayload(message, env.isDate);
    if decoded.None? {
      return Dropped;
    }
    outcome := HandlePayload(q, decoded.value, message, env);
  }

  /** The body of the listener once the payload has decoded: the three rules in order. */
  method HandlePayload(q: JobQueue, p: WebhookPayload, message: Value, env: Env) returns (outcome: Outcome)
    requires ValidPayload(p, env.isDate)
    modifies q
    ensures q.jobs == old(q.jobs) + DispatchPayload(p, message, env).0
    ensures outcome == DispatchPayload(p, message, env).1
  {
    if p.event.data.newNode.Some? && IsNodeOfType(p, DECLARATION) && TransitionedTo(p, PUBLISHED, None) {
      var n := p.event.data.newNode.value;
      var info := env.users(n.userId);
      if info.None? {
        return ReturnedEarly;
      }
      if |info.value| == 0 {
        return Rejected;
      }
      var email := info.value[0];
      if email.None? || email.value == "" {
        return ReturnedEarly;
      }
      QueueEmail(q, DeclMessage(n, email.value, env.now), Some(PublishJobId(n)));
    }
    if IsNodeOfType(p, DECLARATION) && TransitionedTo(p, PUBLISHED, None) {
      q.Add(LINK_VERIFIER, message, Some(LinkJobId(p)));
    }
    if env.ombudsmanEmail != "" && p.event.data.newNode.Some? && p.event.data.oldNode.None?
      && IsNodeOfType(p, PROCEDURE)
    {
      outcome := HandleProcedure(q, p, env);
      return;
    }
    return Finished;
  }

  /** The procedure rule of the listener. */
  method HandleProcedure(q: JobQueue, p: WebhookPayload, env: Env) returns (outcome: Outcome)
    requires ProcedureInserted(p, env.ombudsmanEmail)
    requires IsObject(p.event.data.newNode.value.content)
    modifies q
    ensures q.jobs == old(q.jobs) + ProcedureJobs(p, env).0
    ensures outcome == ProcedureJobs(p, env).1
  {
    var n := p.event.data.newNode.value;
    var info := env.users(n.userId);
    if info.None? {
      return ReturnedEarly;
    }
    if |info.value| == 0 {
      return Rejected;
    }
    var email := info.value[0];
    if email.None? || !env.isEmail(email.value) {
      return ReturnedEarly;
    }
    var report := ReportPublished.EmailReportPublished(n, email.value, env.upload, env.now);
    if report.None? {
      return Rejected;
    }
    QueueEmail(q, ReportMessage(report.value, env.ombudsmanEmail), Some(PublishJobId(n)));
    return Finished;
  }

  // ---- properties -------------------------------------------------------

  /** The two rules never fire on the same payload. */
  lemma RulesExclusive(p: WebhookPayload, ombudsmanEmail: string)
    ensures !(DeclarationPublished(p) && ProcedureInserted(p, ombudsmanEmail))
  {
  }

  /** Nodes of any other type queue nothing and end normally. */
  lemma OtherTypesQueueNothing(p: WebhookPayload, message: Value, env: Env)
    requires ValidPayload(p, env.isDate)
    requires !IsNodeOfType(p, DECLARATION) && !IsNodeOfType(p, PROCEDURE)
    ensures DispatchPayload(p, message, env) == ([], Finished)
  {
  }

  /**
   * A published declaration whose owner has an address yields, in order, the
   * mail to the owner and the link-verifier job carrying the original
   * message; otherwise nothing is queued.
   */
  lemma PublishedDeclarationJobs(p: WebhookPayload, message: Value, env: Env)
    requires ValidPayload(p, env.isDate)
    requires DeclarationPublished(p)
    ensures var n := p.event.data.newNode.value;
      var owner := OwnerOf(env, n);
      var r := DispatchPayload(p, message, env);
      && (r.1 == Finished <==> (owner.FirstEmail? && owner.email.Some? && owner.email.value != ""))
      && (r.1 == Finished ==> r.0 == [
            Job(SENDMAIL, DeclMessage(n, owner.email.value, env.now), Some(PublishJobId(n))),
            Job(LINK_VERIFIER, message, Some(LinkJobId(p)))])
      && (r.1 != Finished ==> r.0 == [])
  {
  }

  /**
   * When the owner's address cannot be read the handler returns before the
   * link-verifier rule: a published declaration is then never link-checked.
   */
  lemma MissingOwnerSkipsLinkCheck(p: WebhookPayload, message: Value, env: Env)
    requires ValidPayload(p, env.isDate)
    requires DeclarationPublished(p)
    requires env.users(p.event.data.newNode.value.userId).None?
    ensures DispatchPayload(p, message, env) == ([], ReturnedEarly)
  {
  }

  /**
   * A new procedure with an ombudsman configured yields exactly the report
   * mail, when the owner's first address passes the e-mail check and the
   * report builds; otherwise nothing is queued.
   */
  lemma ProcedureReportJobs(p: WebhookPayload, message: Value, env: Env)
    requires ValidPayload(p, env.isDate)
    requires ProcedureInserted(p, env.ombudsmanEmail)
    ensures var n := p.event.data.newNode.value;
      var owner := OwnerOf(env, n);
      var r := DispatchPayload(p, message, env);
      && (r.1 == Finished <==>
            && owner.FirstEmail? && owner.email.Some? && env.isEmail(owner.email.value)
            && ReportPublished.EmailReportPublished(n, owner.email.value, env.upload, env.now).Some?)
      && (r.1 == Finished ==> r.0 == [Job(SENDMAIL,
            ReportMessage(ReportPublished.EmailReportPublished(n, owner.email.value, env.upload, env.now).value,
                          env.ombudsmanEmail),
            Some(PublishJobId(n)))])
      && (r.1 != Finished ==> r.0 == [])
  {
    assert DispatchPayload(p, message, env) == ProcedureJobs(p, env) by {
      RulesExclusive(p, env.ombudsmanEmail);
    }
    ProcedureJobsCases(p, env, OwnerOf(env, p.event.data.newNode.value));
  }

  lemma ProcedureJobsCases(p: WebhookPayload, env: Env, owner: Owner)
    requires ProcedureInserted(p, env.ombudsmanEmail)
    requires IsObject(p.event.data.newNode.value.content)
    requires owner == OwnerOf(env, p.event.data.newNode.value)
    ensures var n := p.event.data.newNode.value;
      var r := ProcedureJobs(p, env);
      && (r.1 == Finished <==>
            && owner.FirstEmail? && owner.email.Some? && env.isEmail(owner.email.value)
            && ReportPublished.EmailReportPublished(n, owner.email.value, env.upload, env.now).Some?)
      && (r.1 == Finished ==> r.0 == [Job(SENDMAIL,
            ReportMessage(ReportPublished.EmailReportPublished(n, owner.email.value, env.upload, env.now).value,
                          env.ombudsmanEmail),
            Some(PublishJobId(n)))])
  {
  }

  /**
   * A procedure that is updated rather than inserted, or inserted while no
   * ombudsman address is configured, queues nothing.
   */
  lemma ProcedureWithoutRuleQueuesNothing(p: WebhookPayload, message: Value, env: Env)
    requires ValidPayload(p, env.isDate)
    requires IsNodeOfType(p, PROCEDURE)
    requires p.event.data.oldNode.Some? || env.ombudsmanEmail == ""
    ensures DispatchPayload(p, message, env) == ([], Finished)
  {
  }

  /**
   * The report mail carries every attachment of the report, in order, with
   * its file name, download path and, when present, its headers.
   */
  lemma ReportMessageAttachments(report: ReportPublished.ReportEmail, to: string)
    ensures var items := Field(ReportMessage(report, to), "attachments");
      && items.Arr?
      && |items.items| == |report.attachments|
      && forall i :: 0 <= i < |items.items| ==>
        var a := report.attachments[i];
        && items.items[i].Obj?
        && Field(items.items[i], "filename") == Str(a.filename)
        && Field(items.items[i], "path") == Str(a.path)
        && ("httpHeaders" in items.items[i].fields <==> a.httpHeaders.Some?)
  {
  }

  /** The report goes to the ombudsman, never to the reporting user, under the node's publish id. */
  lemma ReportGoesToOmbudsman(p: WebhookPayload, message: Value, env: Env)
    requires ValidPayload(p, env.isDate)
    requires ProcedureInserted(p, env.ombudsmanEmail)
    requires DispatchPayload(p, message, env).1 == Finished
    ensures var n := p.event.data.newNode.value;
      var jobs := DispatchPayload(p, message, env).0;
      && |jobs| == 1
      && jobs[0].name == SENDMAIL
      && jobs[0].jobId == Some(PublishJobId(n))
      && Sendmail.DecodeInput(jobs[0].data).Some?
      && Sendmail.DecodeInput(jobs[0].data).value.to == env.ombudsmanEmail
  {
    RulesExclusive(p, env.ombudsmanEmail);
    assert DispatchPayload(p, message, env) == ProcedureJobs(p, env);
    var n := p.event.data.newNode.value;
    var report := ReportPublished.EmailReportPublished(n, OwnerOf(env, n).email.value, env.upload, env.now).value;
    ReportMessageDecodes(report, env.ombudsmanEmail);
  }

  /** The report message is a sendmail input whose attachments the processor ignores. */
  lemma ReportMessageDecodes(report: ReportPublished.ReportEmail, to: string)
    ensures Sendmail.DecodeInput(ReportMessage(report, to)) == Some(Sendmail.SendmailInput(report.html, report.title, to))
  {
    var m := ReportMessage(report, to);
    assert Field(m, "content") == Str(report.html);
    assert Field(m, "subject") == Str(report.title);
    assert Field(m, "to") == Str(to);
  }

  /** Every mail job the dispatcher queues is accepted by the sendmail processor. */
  lemma SendmailJobsDecode(p: WebhookPayload, message: Value, env: Env)
    requires ValidPayload(p, env.isDate)
    ensures forall j :: j in DispatchPayload(p, message, env).0 && j.name == SENDMAIL ==>
      Sendmail.DecodeInput(j.data).Some?
  {
    if DeclarationPublished(p) {
      DeclarationMailDecodes(p, message, env);
    } else if ProcedureInserted(p, env.ombudsmanEmail) {
      ProcedureMailDecodes(p, env);
    }
  }

  lemma ProcedureMailDecodes(p: WebhookPayload, env: Env)
    requires ProcedureInserted(p, env.ombudsmanEmail)
    requires IsObject(p.event.data.newNode.value.content)
    ensures forall j :: j in ProcedureJobs(p, env).0 ==> Sendmail.DecodeInput(j.data).Some?
  {
    var r := ProcedureJobs(p, env);
    if r.1 == Finished {
      var n := p.event.data.newNode.value;
      var report := ReportPublished.EmailReportPublished(n, OwnerOf(env, n).email.value, env.upload, env.now).value;
      ReportMessageDecodes(report, env.ombudsmanEmail);
    }
  }

  lemma DeclarationMailDecodes(p: WebhookPayload, message: Value, env: Env)
    requires DeclarationPublished(p)
    ensures forall j :: j in DeclarationJobs(p, message, env).0 && j.name == SENDMAIL ==>
      Sendmail.DecodeInput(j.data).Some?
  {
    var r := DeclarationJobs(p, message, env);
    if r.1 == Finished {
      var n := p.event.data.newNode.value;
      DeclMessageDecodes(n, OwnerOf(env, n).email.value, env.now);
      assert r.0[1].name != SENDMAIL;
    }
  }

  /** The owner's mail is a sendmail input with the template's body and title. */
  lemma DeclMessageDecodes(n: Node, to: string, now: Stamp)
    ensures var content := DeclPublished.EmailDeclPublished(n.id, n.title, now);
      Sendmail.DecodeInput(DeclMessage(n, to, now)) == Some(Sendmail.SendmailInput(content.html, content.title, to))
  {
    var content := DeclPublished.EmailDeclPublished(n.id, n.title, now);
    Sendmail.InputRoundTrip(Sendmail.SendmailInput(content.html, content.title, to));
  }

  /**
   * The link-verifier job carries the message itself, which decodes to the
   * payload it was queued for, with a new snapshot.
   */
  lemma LinkJobDecodes(message: Value, env: Env)
    ensures forall j :: j in Dispatch(message, env).0 && j.name == LINK_VERIFIER ==>
      && j.data == message
      && DecodePayload(message, env.isDate).Some?
      && DecodePayload(message, env.isDate).value.event.data.newNode.Some?
      && j.jobId == Some(LinkJobId(DecodePayload(message, env.isDate).value))
  {
    var d := DecodePayload(message, env.isDate);
    if d.Some? {
      LinkJobsOfPayload(d.value, message, env);
    }
  }

  /** For a decoded payload: the link-verifier job carries the message under the event's id. */
  lemma LinkJobsOfPayload(p: WebhookPayload, message: Value, env: Env)
    requires ValidPayload(p, env.isDate)
    ensures forall j :: j in DispatchPayload(p, message, env).0 && j.name == LINK_VERIFIER ==>
      && j.data == message
      && p.event.data.newNode.Some?
      && j.jobId == Some(LinkJobId(p))
  {
    if DeclarationPublished(p) {
      PublishedDeclarationJobs(p, message, env);
    } else if ProcedureInserted(p, env.ombudsmanEmail) {
      assert DispatchPayload(p, message, env) == ProcedureJobs(p, env);
    }
  }

  /**
   * Publish job ids determine the node: two nodes share one exactly when
   * they have the same id and version, so a re-published version is a new
   * job while a redelivered event is deduplicated.
   */
  lemma PublishJobIdInjective(a: Node, b: Node)
    ensures PublishJobId(a) == PublishJobId(b) <==> (a.id == b.id && a.version == b.version)
  {
    if PublishJobId(a) == PublishJobId(b) {
      assert "publish:" + a.id + "_" + NatToString(a.version) == ("publish:" + a.id) + "_" + NatToString(a.version);
      DigitSuffixUnique("publish:" + a.id, NatToString(a.version), "publish:" + b.id, NatToString(b.version));
      assert a.id == ("publish:" + a.id)[8..] == ("publish:" + b.id)[8..] == b.id;
      NatToStringInjective(a.version, b.version);
    }
  }

  /**
   * Two runs of a rule agree on everything but job data, and every job carries
   * the node's publish id or the event's link-verifier id.
   */
  predicate SameJobKeys(r1: (seq<Job>, Outcome), r2: (seq<Job>, Outcome), p: WebhookPayload)
  {
    && r1.1 == r2.1
    && |r1.0| == |r2.0|
    && forall i :: 0 <= i < |r1.0| ==>
         && r1.0[i].name == r2.0[i].name
         && r1.0[i].jobId == r2.0[i].jobId
         && p.event.data.newNode.Some?
         && (r1.0[i].jobId == Some(PublishJobId(p.event.data.newNode.value))
             || r1.0[i].jobId == Some(LinkJobId(p)))
  }

  lemma DeclarationJobKeys(p: WebhookPayload, m1: Value, m2: Value, env: Env)
    requires DeclarationPublished(p)
    ensures SameJobKeys(DeclarationJobs(p, m1, env), DeclarationJobs(p, m2, env), p)
  {
  }

  /**
   * Job names and ids depend on the payload alone, never on the message text:
   * every job carries an id, either the node's publish id or the event's
   * link-verifier id.
   */
  lemma JobIdsFromPayload(p: WebhookPayload, m1: Value, m2: Value, env: Env)
    requires ValidPayload(p, env.isDate)
    ensures SameJobKeys(DispatchPayload(p, m1, env), DispatchPayload(p, m2, env), p)
  {
    if DeclarationPublished(p) {
      DeclarationJobKeys(p, m1, m2, env);
    } else if ProcedureInserted(p, env.ombudsmanEmail) {
      var jobs := ProcedureJobs(p, env).0;
      assert forall i :: 0 <= i < |jobs| ==> jobs[i] in jobs;
    }
  }

  /**
   * A redelivered message is deduplicated by the queue: handling it a second
   * time stores no new job.
   */
  lemma RedeliveryStoresNothing(adds: seq<Job>, message: Value, env: Env)
    ensures var jobs := Dispatch(message, env).0;
      Stored(adds + jobs + jobs) == Stored(adds + jobs)
  {
    var jobs := Dispatch(message, env).0;
    var d := DecodePayload(message, env.isDate);
    if d.Some? {
      JobIdsFromPayload(d.value, message, message, env);
      forall j | j in jobs ensures j.jobId.Some? {
        var i :| 0 <= i < |jobs| && jobs[i] == j;
      }
    }
    RepeatedBatchIgnored(adds, jobs);
  }
}
