/**
 * Login by IPA code (src/controllers/auth_ipa.ts): the catalogue of public
 * administrations (IPA) is queried for the code; when the administration is
 * found and may be mailed, a code is sent to its digital-transition officer
 * (RTD) or, for schools, to the school's address, and the key
 * `<code>_<ipaCode>` is stored with a fresh session token. Logging in with
 * the code recovers the token and opens a session in the group named by the
 * IPA code with the "rtd" role. The catalogue query, code and token
 * generation, the clock and the user upsert are inputs.
 */
module AuthIpa {
  import opened Wrappers
  import opened Text
  import opened Queue
  import opened Responses
  import opened Sessions
  import Sendmail

  /** The catalogue's placeholder for a missing officer address (src/config.ts). */
  const DUMB_IPA_VALUE_FOR_NULL: string := "da_indicare@x.it"
  const RTD_ROLE_NAME: string := "rtd"
  const IPA_AUTH_TITLE: string := "Form AGID - codice d'accesso"

  /** An organisational unit row (`ipa_ou`). */
  datatype Ou = Ou(codOu: string, cognResp: string, mailResp: string, nomeResp: string)

  /** An administration row (`ipa_pa`); `mail2` holds the text "null" when unset. */
  datatype Pa = Pa(codAmm: string, comune: string, desAmm: string, provincia: string,
                   regione: string, tipologiaIstat: string, mail2: string)

  /** The `GetPaFromIpa` query result: its errors, or its two (possibly absent) lists. */
  datatype PaQuery = QueryErrors(errors: seq<string>) | QueryData(ipaOu: Option<seq<Ou>>, ipaPa: Option<seq<Pa>>)

  /** The body of a successful code request. */
  datatype PaInfo = PaInfo(ipaOu: Ou, ipaPa: Pa)

  /** `isPaFound`: both lists present, each with a first row. */
  predicate IsPaFound(q: PaQuery)
    requires q.QueryData?
  {
    q.ipaOu.Some? && q.ipaPa.Some? && |q.ipaOu.value| > 0 && |q.ipaPa.value| > 0
  }

  /** `errors.join("\n")` */
  function JoinLines(errors: seq<string>): string
  {
    if errors == [] then ""
    else if |errors| == 1 then errors[0]
    else errors[0] + "\n" + JoinLines(errors[1..])
  }

  /** `generateKey(secretCode, ipaCode)` */
  function GenerateKey(code: string, ipaCode: string): string
  {
    code + "_" + ipaCode
  }

  predicate IsSchool(pa: Pa, schoolTipology: string)
  {
    pa.tipologiaIstat == schoolTipology
  }

  /**
   * `canSendMail`, as written: for an administration that is not a school
   * the officer's address must EQUAL the placeholder; a school needs a
   * `mail2` other than the text "null".
   */
  predicate CanSendMail(ou: Ou, pa: Pa, schoolTipology: string)
  {
    var hasRtd := DUMB_IPA_VALUE_FOR_NULL == ou.mailResp;
    var isSchool := IsSchool(pa, schoolTipology);
    (hasRtd && !isSchool) || (isSchool && pa.mail2 != "null")
  }

  /** The address the code goes to, and the e-mail of the user who logs in with it. */
  function Recipient(ou: Ou, pa: Pa, schoolTipology: string): string
  {
    if !IsSchool(pa, schoolTipology) then ou.mailResp else pa.mail2
  }

  /** The access-code mail (src/templates/html/email/auth_ipa_template.ts), dated `date`. */
  function CodeMessage(code: string, ipaName: string, ipaCode: string, isSchool: bool, to: string,
                       date: string): (m: Sendmail.SendmailInput)
    ensures m.subject == IPA_AUTH_TITLE && m.to == to
    ensures Contains(m.content, "<h2>" + code + "</h2>")
    ensures Contains(m.content, "https://form.agid.gov.it/?ipa=" + ipaCode)
  {
    var addressee := if !isSchool then "dell’RTD dell’amministrazione" else "del DS presso";
    var link := "https://form.agid.gov.it/?ipa=" + ipaCode;
    var codeLine := "<h2>" + code + "</h2>";
    // The fixed text is kept in short literals, which are cheaper for the verifier than long ones.
    var head := "\n  <p>All’attenzione " + addressee + " '" + ipaName + "',\n  <br>\n  in data " + date
      + "\n  è stata effettuata una richiesta " + "di accesso al servizio Form\n"
      + "  AGID che permette la compilazione " + "di moduli online.\n" + "  </p>\n  <p>\n"
      + "  Per accedere al servizio è necessario " + "collegarsi alla seguente pagina\n" + "  <a href=\"";
    var middle := "\">form.agid.gov.it</a>\n" + "  inserendo la chiave di accesso:\n" + "  </p>\n  ";
    var tail := "\n  <p>Distinti saluti,</p>\n" + "  <p>AGID</p>\n  ";
    var content := head + link + middle + codeLine + tail;
    ContainsMiddle(head, link, middle);
    ContainsExtend(head + link + middle, codeLine, link);
    ContainsExtend(head + link + middle + codeLine, tail, link);
    ContainsMiddle(head + link + middle, codeLine, tail);
    Sendmail.SendmailInput(content, IPA_AUTH_TITLE, to)
  }

  /** The code mail for the administration a successful query found. */
  function CodeFor(query: PaQuery, code: string, schoolTipology: string, date: string): (m: Sendmail.SendmailInput)
    requires query.QueryData? && IsPaFound(query)
    ensures m.subject == IPA_AUTH_TITLE
    ensures m.to == Recipient(query.ipaOu.value[0], query.ipaPa.value[0], schoolTipology)
  {
    var ou := query.ipaOu.value[0];
    var pa := query.ipaPa.value[0];
    CodeMessage(code, pa.desAmm, pa.codAmm, IsSchool(pa, schoolTipology), Recipient(ou, pa, schoolTipology), date)
  }

  /** How a code request ends before anything is stored, if it does. */
  function Refusal(query: PaQuery, schoolTipology: string): (r: Option<Response<PaInfo>>)
    ensures r.None? <==>
      && query.QueryData?
      && IsPaFound(query)
      && CanSendMail(query.ipaOu.value[0], query.ipaPa.value[0], schoolTipology)
    ensures r.Some? ==> r.value.Internal? || r.value.NotFound?
  {
    match query
    case QueryErrors(errors) => Some(Internal(JoinLines(errors)))
    case QueryData(_, _) =>
      if !IsPaFound(query) then Some(NotFound("Not found", "PA not found in catalogue"))
      else if !CanSendMail(query.ipaOu.value[0], query.ipaPa.value[0], schoolTipology)
      then Some(NotFound("Not found", "Mail address not set."))
      else None
  }

  /** `SendEmailToRtdHandler` for one request, with the generated code and token. */
  method SendEmailToRtd(q: JobQueue, secrets: SecretStorage, ipaCode: string, query: PaQuery,
                        code: string, token: string, storeFails: bool, schoolTipology: string,
                        date: string) returns (r: Response<PaInfo>)
    modifies q, secrets
    ensures Refusal(query, schoolTipology).Some? ==>
      && r == Refusal(query, schoolTipology).value
      && secrets.entries == old(secrets.entries)
      && q.jobs == old(q.jobs)
    ensures Refusal(query, schoolTipology).None? && storeFails ==>
      && r == Internal("Cannot store secret")
      && secrets.entries == old(secrets.entries)
      && q.jobs == old(q.jobs)
    ensures Refusal(query, schoolTipology).None? && !storeFails ==>
      && r == Success(PaInfo(query.ipaOu.value[0], query.ipaPa.value[0]))
      && secrets.entries == old(secrets.entries)[GenerateKey(code, ipaCode) := token]
      && q.jobs == old(q.jobs) + [Job(SENDMAIL, Sendmail.EncodeInput(CodeFor(query, code, schoolTipology, date)), None)]
  {
    if query.QueryErrors? {
      return Internal(JoinLines(query.errors));
    }
    if !IsPaFound(query) {
      return NotFound("Not found", "PA not found in catalogue");
    }
    var ou := query.ipaOu.value[0];
    var pa := query.ipaPa.value[0];
    if !CanSendMail(ou, pa, schoolTipology) {
      return NotFound("Not found", "Mail address not set.");
    }
    var stored := secrets.Set(GenerateKey(code, ipaCode), token, storeFails);
    if !stored {
      return Internal("Cannot store secret");
    }
    var message := CodeFor(query, code, schoolTipology, date);
    QueueEmail(q, Sendmail.EncodeInput(message), None);
    return Success(PaInfo(ou, pa));
  }

  /** The outcome of a login's checks: refused, or the user to upsert. */
  datatype LoginStep = Refused(response: Response<LoginResult>) | Proceed(user: AppUser)

  function LoginCheck(entries: map<string, string>, ipaCode: string, secret: string, readFails: bool,
                      query: PaQuery, now: int, schoolTipology: string): (s: LoginStep)
    ensures TokenFor(entries, GenerateKey(secret, ipaCode), readFails).None? ==> s == Refused(Forbidden)
    ensures s.Proceed? ==>
      && query.QueryData? && IsPaFound(query)
      && s.user.sessionToken == entries[GenerateKey(secret, ipaCode)]
      && s.user.group == ipaCode
      && s.user.roles == [RTD_ROLE_NAME]
      && s.user.email == Recipient(query.ipaOu.value[0], query.ipaPa.value[0], schoolTipology)
  {
    match TokenFor(entries, GenerateKey(secret, ipaCode), readFails)
    case None => Refused(Forbidden)
    case Some(token) =>
      match query
      case QueryErrors(errors) => Refused(Internal(JoinLines(errors)))
      case QueryData(_, _) =>
        if !IsPaFound(query) then Refused(NotFound("Not found", "PA not found in catalogue"))
        else
          var email := Recipient(query.ipaOu.value[0], query.ipaPa.value[0], schoolTipology);
          Proceed(AppUser(now, email, ipaCode, [RTD_ROLE_NAME], token, None))
  }

  /** `LoginHandler` for one request. */
  method Login(secrets: SecretStorage, sessions: SessionStorage, ipaCode: string, secret: string,
               readFails: bool, query: PaQuery, now: int, schoolTipology: string,
               getOrCreate: AppUser -> Upsert, sessionFails: bool, resultErrors: LoginResult -> Option<string>)
    returns (r: Response<LoginResult>)
    modifies sessions
    ensures var s := LoginCheck(secrets.entries, ipaCode, secret, readFails, query, now, schoolTipology);
      && (s.Refused? ==> r == s.response && sessions.sessions == old(sessions.sessions))
      && (s.Proceed? ==>
        && r == LoginResponse(s.user, getOrCreate(s.user), sessionFails, resultErrors)
        && sessions.sessions == SessionsAfter(old(sessions.sessions), s.user, getOrCreate(s.user), sessionFails))
  {
    var token := TokenFor(secrets.entries, GenerateKey(secret, ipaCode), readFails);
    if token.None? {
      return Forbidden;
    }
    if query.QueryErrors? {
      return Internal(JoinLines(query.errors));
    }
    if !IsPaFound(query) {
      return NotFound("Not found", "PA not found in catalogue");
    }
    var ou := query.ipaOu.value[0];
    var pa := query.ipaPa.value[0];
    var isSchool := pa.tipologiaIstat == schoolTipology;
    var user := AppUser(now, if !isSchool then ou.mailResp else pa.mail2, ipaCode, [RTD_ROLE_NAME], token.value, None);
    r := CompleteLogin(sessions, user, getOrCreate, sessionFails, resultErrors);
  }

  // ---- properties -------------------------------------------------------

  /** A PA is found exactly when both lists are present and non-empty; absent and empty lists are not found. */
  lemma FoundNeedsBothLists(ou: Ou, pa: Pa)
    ensures IsPaFound(QueryData(Some([ou]), Some([pa])))
    ensures !IsPaFound(QueryData(None, Some([pa])))
    ensures !IsPaFound(QueryData(Some([ou]), Some([])))
  {
  }

  /**
   * Eligibility as written: an administration that is not a school may be
   * mailed only when its officer's address is the placeholder, and then
   * the code goes to the placeholder; a school is mailed at `mail2` unless
   * that is the text "null".
   */
  lemma Eligibility(ou: Ou, pa: Pa, schoolTipology: string)
    ensures !IsSchool(pa, schoolTipology) ==>
      (CanSendMail(ou, pa, schoolTipology) <==> ou.mailResp == DUMB_IPA_VALUE_FOR_NULL)
    ensures IsSchool(pa, schoolTipology) ==>
      (CanSendMail(ou, pa, schoolTipology) <==> pa.mail2 != "null")
    ensures CanSendMail(ou, pa, schoolTipology) && !IsSchool(pa, schoolTipology) ==>
      Recipient(ou, pa, schoolTipology) == DUMB_IPA_VALUE_FOR_NULL
    ensures CanSendMail(ou, pa, schoolTipology) && IsSchool(pa, schoolTipology) ==>
      Recipient(ou, pa, schoolTipology) == pa.mail2 && pa.mail2 != "null"
  {
  }

  /** An officer with a real address is refused, before any secret is stored. */
  lemma RealOfficerRefused(ou: Ou, pa: Pa, schoolTipology: string)
    requires !IsSchool(pa, schoolTipology)
    requires ou.mailResp != DUMB_IPA_VALUE_FOR_NULL
    ensures Refusal(QueryData(Some([ou]), Some([pa])), schoolTipology) == Some(NotFound("Not found", "Mail address not set."))
  {
  }

  /**
   * The handshake: after the code for an IPA code is stored with a token, a
   * login with that code proceeds with the token, the IPA code as group and
   * the same address the code was mailed to.
   */
  lemma Handshake(entries: map<string, string>, ipaCode: string, code: string, token: string,
                  query: PaQuery, now: int, schoolTipology: string)
    requires token != ""
    requires query.QueryData? && IsPaFound(query)
    ensures var s := LoginCheck(entries[GenerateKey(code, ipaCode) := token], ipaCode, code, false, query, now, schoolTipology);
      && s.Proceed?
      && s.user.sessionToken == token
      && s.user.group == ipaCode
      && s.user.email == Recipient(query.ipaOu.value[0], query.ipaPa.value[0], schoolTipology)
  {
  }

  /** The error lines are joined with newlines, in order. */
  lemma {:induction false} JoinLinesParts(errors: seq<string>)
    requires |errors| > 0
    ensures forall i :: 0 <= i < |errors| ==> Contains(JoinLines(errors), errors[i])
  {
    if |errors| > 1 {
      JoinLinesParts(errors[1..]);
      var rest := JoinLines(errors[1..]);
      forall i | 0 <= i < |errors|
        ensures Contains(JoinLines(errors), errors[i])
      {
        if i == 0 {
          ContainsMiddle("", errors[0], "\n" + rest);
          assert "" + errors[0] + ("\n" + rest) == JoinLines(errors);
        } else {
          assert errors[i] == errors[1..][i - 1];
          var k: nat :| k <= |rest| && OccursAt(rest, errors[i], k);
          var prefix := errors[0] + "\n";
          assert JoinLines(errors) == prefix + rest;
          assert (prefix + rest)[|prefix| + k..|prefix| + k + |errors[i]|] == rest[k..k + |errors[i]|];
          assert OccursAt(JoinLines(errors), errors[i], |prefix| + k);
        }
      }
    } else {
      assert JoinLines(errors) == errors[0];
      assert OccursAt(errors[0], errors[0], 0);
    }
  }
}
