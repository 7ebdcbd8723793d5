/**
 * E-mail login (src/controllers/auth_email.ts): a code is mailed to an
 * address and its key `<code>_<email>` is stored with a fresh session
 * token; logging in with the same code and address recovers the token,
 * upserts the user and opens the session. Code and token generation, the
 * clock and the user upsert are inputs.
 */
module AuthEmail {
  import opened Wrappers
  import opened Text
  import opened Queue
  import opened Responses
  import opened Sessions
  import Sendmail

  const AUTH_EMAIL_TITLE: string := "form.agid.gov.it"

  /** `generateKey(secretCode, emailAddress)` */
  function GenerateKey(code: string, email: string): string
  {
    code + "_" + email
  }

  /** The verification-code mail (src/templates/html/email/auth_email_template.ts), dated `date`. */
  function CodeMessage(code: string, email: string, date: string): (m: Sendmail.SendmailInput)
    ensures m.subject == AUTH_EMAIL_TITLE && m.to == email
    ensures Contains(m.content, "<h2>" + code + "</h2>")
  {
    // The fixed text is kept in short literals, which are cheaper for the verifier than long ones.
    var head := "\n  <p>Ciao,<br/>\n  in data " + date
      + "\n  è stata effettuata una richiesta " + "di verifica email.\n" + "  </p>\n  <p>\n"
      + "  Il codice di verifica email " + "è il seguente:\n" + "  </p>\n  ";
    var tail := "\n  <p>Distinti saluti,</p>\n" + "  <p>AGID</p>\n  ";
    ContainsMiddle(head, "<h2>" + code + "</h2>", tail);
    Sendmail.SendmailInput(head + ("<h2>" + code + "</h2>") + tail, AUTH_EMAIL_TITLE, email)
  }

  /** `SendEmailHandler` for one request, with the generated code and token. */
  method SendEmail(q: JobQueue, secrets: SecretStorage, email: string, code: string, token: string,
                   storeFails: bool, date: string) returns (r: Response<string>)
    modifies q, secrets
    ensures storeFails ==>
      && r == Internal("Cannot store secret")
      && secrets.entries == old(secrets.entries)
      && q.jobs == old(q.jobs)
    ensures !storeFails ==>
      && r == Success(email)
      && secrets.entries == old(secrets.entries)[GenerateKey(code, email) := token]
      && q.jobs == old(q.jobs) + [Job(SENDMAIL, Sendmail.EncodeInput(CodeMessage(code, email, date)), None)]
  {
    var stored := secrets.Set(GenerateKey(code, email), token, storeFails);
    if !stored {
      return Internal("Cannot store secret");
    }
    var message := CodeMessage(code, email, date);
    QueueEmail(q, Sendmail.EncodeInput(message), None);
    return Success(email);
  }

  /** The user a login builds, or None when the secret check refuses it. */
  function LoginUser(entries: map<string, string>, email: string, secret: string, readFails: bool,
                     now: int, defaultGroup: string, defaultRole: string): (u: Option<AppUser>)
    ensures u.Some? <==> TokenFor(entries, GenerateKey(secret, email), readFails).Some?
    ensures u.Some? ==>
      && u.value.sessionToken == entries[GenerateKey(secret, email)]
      && u.value.email == email
      && u.value.group == defaultGroup
      && u.value.roles == [defaultRole]
      && u.value.metadata.None?
  {
    match TokenFor(entries, GenerateKey(secret, email), readFails)
    case None => None
    case Some(token) => Some(AppUser(now, email, defaultGroup, [defaultRole], token, None))
  }

  /** `LoginHandler` for one request. */
  method Login(secrets: SecretStorage, sessions: SessionStorage, email: string, secret: string,
               readFails: bool, now: int, defaultGroup: string, defaultRole: string,
               getOrCreate: AppUser -> Upsert, sessionFails: bool, resultErrors: LoginResult -> Option<string>)
    returns (r: Response<LoginResult>)
    modifies sessions
    ensures var u := LoginUser(secrets.entries, email, secret, readFails, now, defaultGroup, defaultRole);
      && (u.None? ==> r == Forbidden && sessions.sessions == old(sessions.sessions))
      && (u.Some? ==>
        && r == LoginResponse(u.value, getOrCreate(u.value), sessionFails, resultErrors)
        && sessions.sessions == SessionsAfter(old(sessions.sessions), u.value, getOrCreate(u.value), sessionFails))
  {
    var token := TokenFor(secrets.entries, GenerateKey(secret, email), readFails);
    if token.None? {
      return Forbidden;
    }
    var user := AppUser(now, email, defaultGroup, [defaultRole], token.value, None);
    r := CompleteLogin(sessions, user, getOrCreate, sessionFails, resultErrors);
  }

  // ---- properties -------------------------------------------------------

  /**
   * The handshake: after the code for an address is stored with a token, a
   * login with that code and address finds the token and, once the user is
   * upserted, the session stored and the result checked, succeeds and
   * returns it as the backend token.
   */
  lemma Handshake(entries: map<string, string>, email: string, code: string, token: string,
                  now: int, defaultGroup: string, defaultRole: string, upsert: Upsert, sessionFails: bool,
                  resultErrors: LoginResult -> Option<string>)
    requires token != ""
    ensures var u := LoginUser(entries[GenerateKey(code, email) := token], email, code, false, now, defaultGroup, defaultRole);
      && u.Some?
      && u.value.sessionToken == token
      && (LoginResponse(u.value, upsert, sessionFails, resultErrors).Success? ==>
            LoginResponse(u.value, upsert, sessionFails, resultErrors).body.backendToken == token)
      && (upsert.Upserted? && !sessionFails && resultErrors(ResultFor(u.value, upsert.metadata)).None? ==>
            LoginResponse(u.value, upsert, sessionFails, resultErrors) == Success(ResultFor(u.value, upsert.metadata)))
  {
  }

  /** Keys of codes without "_" identify the code and the address. */
  lemma {:induction false} KeyInjective(c1: string, e1: string, c2: string, e2: string)
    requires forall i :: 0 <= i < |c1| ==> c1[i] != '_'
    requires forall i :: 0 <= i < |c2| ==> c2[i] != '_'
    ensures GenerateKey(c1, e1) == GenerateKey(c2, e2) <==> c1 == c2 && e1 == e2
  {
    if GenerateKey(c1, e1) == GenerateKey(c2, e2) {
      var k := GenerateKey(c1, e1);
      FirstSeparator(c1, e1);
      FirstSeparator(c2, e2);
      assert |c1| == |c2|;
      assert c1 == k[..|c1|] == c2;
      assert e1 == k[|c1| + 1..] == e2;
    }
  }

  /** In the key of a code without "_", the first "_" follows the code. */
  lemma FirstSeparator(code: string, email: string)
    requires forall i :: 0 <= i < |code| ==> code[i] != '_'
    ensures var k := GenerateKey(code, email);
      && k[|code|] == '_'
      && forall j :: 0 <= j < |code| ==> k[j] != '_'
  {
    var k := GenerateKey(code, email);
    forall j | 0 <= j < |code|
      ensures k[j] != '_'
    {
      assert k[j] == code[j];
    }
  }

  /**
   * A code with "_" can reach another pair's key: the secret "k_b" for the
   * address "c" reads the token stored for code "k" and address "b_c".
   */
  lemma KeyCollision(token: string, now: int, defaultGroup: string, defaultRole: string)
    requires token != ""
    ensures var entries := map[GenerateKey("k", "b_c") := token];
      && LoginUser(entries, "c", "k_b", false, now, defaultGroup, defaultRole).Some?
      && LoginUser(entries, "c", "k_b", false, now, defaultGroup, defaultRole).value.sessionToken == token
  {
    assert GenerateKey("k", "b_c") == GenerateKey("k_b", "c");
  }

  /** With a single stored code, any other code without "_" is refused. */
  lemma WrongCodeForbidden(email: string, code: string, other: string, token: string,
                           now: int, defaultGroup: string, defaultRole: string)
    requires forall i :: 0 <= i < |code| ==> code[i] != '_'
    requires forall i :: 0 <= i < |other| ==> other[i] != '_'
    requires other != code
    ensures LoginUser(map[GenerateKey(code, email) := token], email, other, false, now, defaultGroup, defaultRole).None?
  {
    KeyInjective(code, email, other, email);
  }

  /** The queued mail is accepted by the sendmail processor and goes to the requested address. */
  lemma CodeMailDecodes(code: string, email: string, date: string)
    ensures Sendmail.DecodeInput(Sendmail.EncodeInput(CodeMessage(code, email, date))) == Some(CodeMessage(code, email, date))
    ensures CodeMessage(code, email, date).to == email
  {
    Sendmail.InputRoundTrip(CodeMessage(code, email, date));
  }
}
