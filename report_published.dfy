/**
 * The accessibility report forwarded to the ombudsman
 * (src/templates/html/email/report_published.ts): the list of uploaded files
 * to attach, the body rows and the title.
 */
module ReportPublished {
  import opened Wrappers
  import opened Json
  import opened Text
  import opened NodeValues
  import Payload

  const ADMIN_SECRET_HEADER: string := "X-Hasura-Admin-Secret"
  const FEEDBACK_FIELD: string := "notified-feedback"
  const ANSWER_FIELD: string := "notified-answer"
  const TITLE_PREFIX: string := "Segnalazione inaccessibilità "

  /** The upload server's host and the GraphQL admin secret, from the configuration. */
  datatype UploadConfig = UploadConfig(uploadServerHost: string, adminSecret: string)

  datatype Attachment = Attachment(filename: string, httpHeaders: Option<map<string, string>>, path: string)

  datatype ReportEmail = ReportEmail(attachments: seq<Attachment>, html: string, title: string)

  /** Download path of the first file of a node's upload field. */
  function FilePath(cfg: UploadConfig, node: Payload.Node, field: string): string
  {
    "https://" + cfg.uploadServerHost + "/file/" + node.id + "/" + NatToString(node.version) + "/" + field + "/0"
  }

  function Uploaded(cfg: UploadConfig, node: Payload.Node, field: string, filename: Value): Attachment
  {
    Attachment(ToStr(filename), Some(map[ADMIN_SECRET_HEADER := cfg.adminSecret]), FilePath(cfg, node, field))
  }

  /** The entry left in the list for a missing file, removed by the filter. */
  const Blank: Attachment := Attachment("", None, "")

  /** `files[0] && files[0].id` */
  predicate HasFirstFile(files: Value)
    requires !IsNullish(files)
  {
    var first := Index(files, 0).value;
    Truthy(first) && Truthy(Get(first, "id").value)
  }

  /** `.filter(v => v.path !== "")` */
  function WithPath(s: seq<Attachment>): (r: seq<Attachment>)
    ensures forall i :: 0 <= i < |r| ==> r[i].path != ""
    ensures forall x :: x in r <==> x in s && x.path != ""
    ensures |r| <= |s|
  {
    if s == [] then []
    else (if s[0].path != "" then [s[0]] else []) + WithPath(s[1..])
  }

  /** The attachment list; None where reading a missing upload field throws. */
  function Attachments(values: Value, node: Payload.Node, cfg: UploadConfig): Option<seq<Attachment>>
    requires !IsNullish(values)
  {
    var feedback := Get(values, FEEDBACK_FIELD).value;
    var answer := Get(values, ANSWER_FIELD).value;
    if IsNullish(feedback) || IsNullish(answer) then None
    else
      var f := if HasFirstFile(feedback)
               then Uploaded(cfg, node, FEEDBACK_FIELD, Get(feedback, "filename").value)
               else Blank;
      var a := if HasFirstFile(answer)
               then Uploaded(cfg, node, ANSWER_FIELD, Get(Index(answer, 0).value, "filename").value)
               else Blank;
      Some(WithPath([f, a]))
  }

  function Title(values: Value): string
    requires !IsNullish(values)
  {
    TITLE_PREFIX + Answer(values, "name") + " / " + Answer(values, "reported-pa")
  }

  /** The (label, value) rows the body shows, in order. */
  function ReportRows(values: Value, userEmail: string): seq<(string, string)>
    requires !IsNullish(values)
  {
    [("Email:", userEmail),
     ("Nome e cognome:", Answer(values, "name")),
     ("Codice fiscale:", Answer(values, "tax-number")),
     ("Soggetto erogatore da segnalare:", Answer(values, "reported-pa"))]
    + (if !IsWebsite(values) then [("Nome APP:", Answer(values, "app-name"))] else [])
    + (if IsWebsite(values) then [("Indirizzo del sito web:", Answer(values, "website-url"))]
       else [("Indirizzo APP nello store:", Answer(values, "app-url"))])
    + [("Data della notifica:", Answer(values, "reported-date")),
       ("Descrizione del problema:", Answer(values, "report-text")),
       ("Ha ricevuto risposta del soggetto " + "erogatore:", Answer(values, "report-has-answer")),
       ("Ha una risposta:", Answer(values, "report-has-answer"))]
    + (if Truthy(Get(values, "notified-answer-reason").value)
       then [("Motivi della risposta insoddisfatta:", Answer(values, "notified-answer-reason"))]
       else [])
  }

  function RenderRows(rows: seq<(string, string)>): string
  {
    if rows == [] then ""
    else "      <span>" + rows[0].0 + "</span><br /><span>" + rows[0].1 + "</span><br /><br />\n"
         + RenderRows(rows[1..])
  }

  function ReportHtml(values: Value, userEmail: string, now: Stamp): string
    requires !IsNullish(values)
  {
    "\n    <p>Il " + now.date + " alle ore " + now.time
    + " è stata recepita la seguente " + "segnalazione di inaccessibilità:</p>\n" + "      <br />\n" + "    <p>\n"
    + RenderRows(ReportRows(values, userEmail)) + "    </p>\n"
  }

  /** `emailReportPublished(node, userEmail)`; None where it throws a TypeError. */
  function EmailReportPublished(node: Payload.Node, userEmail: string, cfg: UploadConfig, now: Stamp): Option<ReportEmail>
    requires IsObject(node.content)
  {
    var values := ValuesOf(node.content);
    if IsNullish(values) then None
    else
      var atts := Attachments(values, node, cfg);
      if atts.None? then None
      else Some(ReportEmail(atts.value, ReportHtml(values, userEmail, now), Title(values)))
  }

  // ---- properties -------------------------------------------------------

  /** The builder throws exactly when `values` or one of the two upload fields is missing. */
  lemma ReportDefinedness(node: Payload.Node, userEmail: string, cfg: UploadConfig, now: Stamp)
    requires IsObject(node.content)
    ensures EmailReportPublished(node, userEmail, cfg, now).Some? <==>
      var values := ValuesOf(node.content);
      && !IsNullish(values)
      && !IsNullish(Get(values, FEEDBACK_FIELD).value)
      && !IsNullish(Get(values, ANSWER_FIELD).value)
  {
  }

  lemma {:induction false} UploadedHasPath(cfg: UploadConfig, node: Payload.Node, field: string, filename: Value)
    ensures Uploaded(cfg, node, field, filename).path != ""
  {
    assert Uploaded(cfg, node, field, filename).path[0] == 'h';
  }

  /**
   * At most two attachments, feedback before answer, each present exactly
   * when the first element of its upload field and that element's id are
   * truthy; every one carries the admin-secret header and the download path of
   * its field, and none has an empty path.
   */
  lemma AttachmentsShape(values: Value, node: Payload.Node, cfg: UploadConfig)
    requires !IsNullish(values)
    requires Attachments(values, node, cfg).Some?
    ensures var feedback := Get(values, FEEDBACK_FIELD).value;
      var answer := Get(values, ANSWER_FIELD).value;
      && !IsNullish(feedback) && !IsNullish(answer)
      && Attachments(values, node, cfg).value ==
        (if HasFirstFile(feedback) then [Uploaded(cfg, node, FEEDBACK_FIELD, Get(feedback, "filename").value)] else [])
        + (if HasFirstFile(answer) then [Uploaded(cfg, node, ANSWER_FIELD, Get(Index(answer, 0).value, "filename").value)] else [])
    ensures var r := Attachments(values, node, cfg).value;
      && |r| <= 2
      && forall i :: 0 <= i < |r| ==>
        && r[i].path != ""
        && r[i].httpHeaders == Some(map[ADMIN_SECRET_HEADER := cfg.adminSecret])
        && (r[i].path == FilePath(cfg, node, FEEDBACK_FIELD) || r[i].path == FilePath(cfg, node, ANSWER_FIELD))
  {
    var feedback := Get(values, FEEDBACK_FIELD).value;
    var answer := Get(values, ANSWER_FIELD).value;
    if HasFirstFile(feedback) {
      UploadedHasPath(cfg, node, FEEDBACK_FIELD, Get(feedback, "filename").value);
    }
    if HasFirstFile(answer) {
      UploadedHasPath(cfg, node, ANSWER_FIELD, Get(Index(answer, 0).value, "filename").value);
    }
    var ff := if HasFirstFile(feedback)
              then Uploaded(cfg, node, FEEDBACK_FIELD, Get(feedback, "filename").value) else Blank;
    var aa := if HasFirstFile(answer)
              then Uploaded(cfg, node, ANSWER_FIELD, Get(Index(answer, 0).value, "filename").value) else Blank;
    assert WithPath([ff, aa]) == (if ff.path != "" then [ff] else []) + WithPath([aa]) by {
      assert [ff, aa][1..] == [aa];
    }
    assert WithPath([aa]) == (if aa.path != "" then [aa] else []) + WithPath([]) by {
      assert [aa][1..] == [];
    }
  }

  /**
   * The feedback file name is read from the upload array itself, not from its
   * first element: for an array without a `filename` property it renders as
   * "undefined", while the answer file keeps its own name.
   */
  lemma FeedbackFilenameFromArray(node: Payload.Node, cfg: UploadConfig)
    ensures var file := Obj(map["id" := Str("1"), "filename" := Str("a.pdf")]);
      var upload := Arr([file], map[]);
      var values := Obj(map[FEEDBACK_FIELD := upload, ANSWER_FIELD := upload]);
      Attachments(values, node, cfg) == Some([
        Uploaded(cfg, node, FEEDBACK_FIELD, Undefined),
        Uploaded(cfg, node, ANSWER_FIELD, Str("a.pdf"))])
      && Uploaded(cfg, node, FEEDBACK_FIELD, Undefined).filename == "undefined"
  {
    var file := Obj(map["id" := Str("1"), "filename" := Str("a.pdf")]);
    var upload := Arr([file], map[]);
    var values := Obj(map[FEEDBACK_FIELD := upload, ANSWER_FIELD := upload]);
    assert Get(values, FEEDBACK_FIELD).value == upload;
    assert Get(values, ANSWER_FIELD).value == upload;
    assert Index(upload, 0).value == file;
    assert Get(file, "id").value == Str("1");
    assert Get(file, "filename").value == Str("a.pdf");
    assert HasFirstFile(upload);
    assert Get(upload, "filename").value == Undefined;
    AttachmentsShape(values, node, cfg);
    var f := Uploaded(cfg, node, FEEDBACK_FIELD, Undefined);
    var a := Uploaded(cfg, node, ANSWER_FIELD, Str("a.pdf"));
    assert Attachments(values, node, cfg).value == [f] + [a];
    assert [f] + [a] == [f, a];
  }

  /**
   * The mail's title starts with the fixed wording and names the reporter
   * and the reported administration.
   */
  lemma TitleShape(node: Payload.Node, userEmail: string, cfg: UploadConfig, now: Stamp)
    requires IsObject(node.content)
    requires EmailReportPublished(node, userEmail, cfg, now).Some?
    ensures var values := ValuesOf(node.content);
      var title := EmailReportPublished(node, userEmail, cfg, now).value.title;
      && |TITLE_PREFIX| <= |title| && title[..|TITLE_PREFIX|] == TITLE_PREFIX
      && Contains(title, Answer(values, "name"))
      && Contains(title, Answer(values, "reported-pa"))
  {
    var values := ValuesOf(node.content);
    TitleParts(TITLE_PREFIX, Answer(values, "name"), Answer(values, "reported-pa"));
  }

  lemma TitleParts(prefix: string, name: string, pa: string)
    ensures var title := prefix + name + " / " + pa;
      && |prefix| <= |title| && title[..|prefix|] == prefix
      && Contains(title, name)
      && Contains(title, pa)
  {
    var title := prefix + name + " / " + pa;
    assert title == prefix + name + (" / " + pa);
    ContainsMiddle(prefix, name, " / " + pa);
    assert title == (prefix + name + " / ") + pa + "";
    ContainsMiddle(prefix + name + " / ", pa, "");
  }

  function Labels(rows: seq<(string, string)>): seq<string>
  {
    seq(|rows|, i requires 0 <= i < |rows| => rows[i].0)
  }

  const COMMON_LABELS: seq<string> :=
    ["Email:", "Nome e cognome:", "Codice fiscale:", "Soggetto erogatore da segnalare:"]
  const AFTER_LABELS: seq<string> :=
    ["Data della notifica:", "Descrizione del problema:",
     "Ha ricevuto risposta del soggetto " + "erogatore:", "Ha una risposta:"]

  function ReasonLabels(values: Value): seq<string>
    requires !IsNullish(values)
  {
    if Truthy(Get(values, "notified-answer-reason").value) then ["Motivi della risposta insoddisfatta:"] else []
  }

  /** The labels of a website report, in order. */
  lemma WebsiteLabels(values: Value, userEmail: string)
    requires !IsNullish(values) && IsWebsite(values)
    ensures Labels(ReportRows(values, userEmail)) == COMMON_LABELS + ["Indirizzo del sito web:"] + AFTER_LABELS + ReasonLabels(values)
  {
  }

  /** The labels of an app report, in order. */
  lemma AppLabels(values: Value, userEmail: string)
    requires !IsNullish(values) && !IsWebsite(values)
    ensures Labels(ReportRows(values, userEmail))
         == COMMON_LABELS + ["Nome APP:", "Indirizzo APP nello store:"] + AFTER_LABELS + ReasonLabels(values)
  {
  }

  /** The reason row, when present, has its one label. */
  lemma ReasonLabelsShape(values: Value)
    requires !IsNullish(values)
    ensures forall l :: l in ReasonLabels(values) ==> l == "Motivi della risposta insoddisfatta:"
  {
  }

  /** Which device labels a list of website labels holds. */
  lemma WebsiteMembership(labels: seq<string>, reason: seq<string>)
    requires forall l :: l in reason ==> l == "Motivi della risposta insoddisfatta:"
    requires labels == COMMON_LABELS + ["Indirizzo del sito web:"] + AFTER_LABELS + reason
    ensures "Indirizzo del sito web:" in labels
    ensures "Nome APP:" !in labels && "Indirizzo APP nello store:" !in labels
  {
    assert labels[4] == "Indirizzo del sito web:";
  }

  /** Which device labels a list of app labels holds. */
  lemma AppMembership(labels: seq<string>, reason: seq<string>)
    requires forall l :: l in reason ==> l == "Motivi della risposta insoddisfatta:"
    requires labels == COMMON_LABELS + ["Nome APP:", "Indirizzo APP nello store:"] + AFTER_LABELS + reason
    ensures "Indirizzo del sito web:" !in labels
    ensures "Nome APP:" in labels && "Indirizzo APP nello store:" in labels
  {
    assert labels[4] == "Nome APP:" && labels[5] == "Indirizzo APP nello store:";
  }

  /**
   * The body shows the site address exactly for websites, and the app name
   * and store address exactly for the other device types.
   */
  lemma RowsFollowDeviceType(values: Value, userEmail: string)
    requires !IsNullish(values)
    ensures var labels := Labels(ReportRows(values, userEmail));
      && ("Indirizzo del sito web:" in labels <==> IsWebsite(values))
      && ("Nome APP:" in labels <==> !IsWebsite(values))
      && ("Indirizzo APP nello store:" in labels <==> !IsWebsite(values))
  {
    ReasonLabelsShape(values);
    if IsWebsite(values) {
      WebsiteLabels(values, userEmail);
      WebsiteMembership(Labels(ReportRows(values, userEmail)), ReasonLabels(values));
    } else {
      AppLabels(values, userEmail);
      AppMembership(Labels(ReportRows(values, userEmail)), ReasonLabels(values));
    }
  }
}
