/**
 * The message sent to a declaration's owner when it is published
 * (src/templates/html/email/decl_published.ts); the clock is an input.
 */
module DeclPublished {
  import opened Text

  const DECL_PUBLISHED_TITLE: string := "Dichiarazione di accessibilità - contenuto pubblicato"

  datatype EmailContent = EmailContent(html: string, title: string)

  /** The link to the published declaration, labelled with its title. */
  function ViewLink(id: string, title: string): string
  {
    "<a href=\"https://form.agid.gov.it/view/" + id + "\">" + title + "</a>"
  }

  function EmailDeclPublished(id: string, title: string, now: Stamp): (r: EmailContent)
    ensures r.title == DECL_PUBLISHED_TITLE
    ensures Contains(r.html, ViewLink(id, title))
  {
    var head := "\n    <p>Ciao,<br />\n    il " + now.date + " alle ore " + now.time
      + " è stata pubblicata la seguente " + "dichiarazione di accessibilità:\n  ";
    var tail := "</p>.\n  <p>Distinti saluti,</p>\n" + "  <p>AGID</p>\n";
    ContainsMiddle(head, ViewLink(id, title), tail);
    EmailContent(head + ViewLink(id, title) + tail, DECL_PUBLISHED_TITLE)
  }
}
