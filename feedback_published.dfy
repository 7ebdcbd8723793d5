/**
 * The feedback request forwarded on behalf of a user
 * (src/templates/html/email/feedback_published.ts).
 */
module FeedbackPublished {
  import opened Wrappers
  import opened Json
  import opened Text
  import opened NodeValues
  import Payload

  datatype FeedbackEmail = FeedbackEmail(from: string, replyTo: string, content: string, title: string)

  function ServiceType(values: Value): string
    requires !IsNullish(values)
  {
    if IsWebsite(values) then "sito web" else "applicazione mobile"
  }

  function ServiceAddress(values: Value): string
    requires !IsNullish(values)
  {
    if IsWebsite(values) then Answer(values, "website-url") else Answer(values, "app-url")
  }

  /** The mail body: the user's details, then the service, then the reported pages and tools. */
  function FeedbackContent(values: Value, userEmail: string): string
    requires !IsNullish(values)
  {
    FeedbackHead(values, userEmail) + (ServiceType(values) + ": " + ServiceAddress(values)) + FeedbackTail(values)
  }

  function FeedbackHead(values: Value, userEmail: string): string
    requires !IsNullish(values)
  {
    "\n      <p>Utente:<br>" + Answer(values, "name") + "</p>\n      <p>Email:<br>" + userEmail
    + "</p>\n      <p>Codice fiscale:<br>" + Answer(values, "tax-number")
    + "</p>\n      <p>Oggetto della richiesta " + "di feedback:<br>"
  }

  function FeedbackTail(values: Value): string
    requires !IsNullish(values)
  {
    "</p>\n      <p>Pagine web/sezioni " + "dell’app mobile segnalate:<br>" + Answer(values, "feedback-text")
    + "</p>\n      <p>Pagine web/sezioni " + "dell’app mobile non conformi:<br>" + Answer(values, "feedback-text-compliance")
    + "</p>\n      <p>Strumenti in dotazione:<br>" + Answer(values, "feedback-tools") + "</p>\n    "
  }

  /** `emailFeedbackPublished(node, userEmail)`; None where reading a missing `values` throws. */
  function EmailFeedbackPublished(node: Payload.Node, userEmail: string): (r: Option<FeedbackEmail>)
    requires IsObject(node.content)
    ensures r.Some? <==> !IsNullish(ValuesOf(node.content))
    ensures r.Some? ==> r.value.from == userEmail && r.value.replyTo == userEmail
  {
    var values := ValuesOf(node.content);
    if IsNullish(values) then None
    else Some(FeedbackEmail(
      userEmail, userEmail, FeedbackContent(values, userEmail),
      "Feedback accessibilità " + ServiceAddress(values) + " - " + Answer(values, "name")))
  }

  /** Service type and address follow the device type. */
  lemma ServiceByDeviceType(values: Value)
    requires !IsNullish(values)
    ensures ServiceType(values) == "sito web" <==> IsWebsite(values)
    ensures ServiceAddress(values) == if IsWebsite(values) then Answer(values, "website-url") else Answer(values, "app-url")
  {
  }

  /** The body states "<service type>: <service address>", and the title names the address and the user. */
  lemma FeedbackMentionsService(node: Payload.Node, userEmail: string)
    requires IsObject(node.content)
    requires !IsNullish(ValuesOf(node.content))
    ensures var values := ValuesOf(node.content);
      var r := EmailFeedbackPublished(node, userEmail).value;
      && Contains(r.content, ServiceType(values) + ": " + ServiceAddress(values))
      && r.title == "Feedback accessibilità " + ServiceAddress(values) + " - " + Answer(values, "name")
  {
    var values := ValuesOf(node.content);
    ContainsMiddle(FeedbackHead(values, userEmail), ServiceType(values) + ": " + ServiceAddress(values), FeedbackTail(values));
  }
}
