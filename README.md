# AgID forms backend: the event pipeline and the login handshakes, in Dafny

This project models the core of the backend behind the AgID accessibility
forms (form.agid.gov.it), as proved Dafny:

- **The node-events pipeline.** The database calls the GraphQL webhook on
  every change of the `node` table. The webhook checks the `x-webhook-token`
  header, decodes the body as a `WebhookPayload`, and publishes it on the
  events channel (`webhook.dfy`, `payload.dfy`). The node-events dispatcher
  reads every published message and applies its rules (`dispatcher.dfy`,
  built on the `transitionedTo` / `isNodeOfType` tests in `events.dfy`):
  - when an accessibility declaration moves to `published`, it queues a mail
    to the owner and a link-verifier job;
  - when an implementation procedure is inserted, it queues the report mail
    to the ombudsman.

  Jobs go on a queue that ignores an add whose job id it already holds
  (`queue.dfy`). The sendmail processor decodes a job and hands the message
  to the transport (`sendmail.dfy`). The link-verifier processor looks up
  the node's latest published revision and fetches the declared web site. If
  the page mentions the node's id, it marks the node as verified; otherwise
  the job is retried (`link_verifier.dfy`, a class over the `node_revision`
  and `node` tables).
- **The mail templates.** These are the declaration-published mail, the
  ombudsman report with its attachment list and title, and the feedback
  mail (`decl_published.dfy`, `report_published.dfy`,
  `feedback_published.dfy`, over the form answers in `node_values.dfy`).
- **The two login handshakes.** In the e-mail login, a code is mailed, its
  key `<code>_<email>` is stored with a session token, and logging in with
  the code recovers the token (`auth_email.dfy`). In the IPA login, the
  public-administration catalogue decides who may be mailed, and the key is
  `<code>_<ipaCode>` (`auth_ipa.dfy`). Both end in the shared user upsert
  and session write (`sessions.dfy`).
- **The UUID pattern** `^\w+-\w+-\w+-\w+-\w+$`. `uuid.dfy` gives a
  left-to-right matcher and proves it equal to a split-at-hyphens reference
  definition.

JavaScript values are the `Json.Value` datatype. It has property reads that
may throw, truthiness and template-literal conversion (`json.dfy`).
`text.dfy` holds decimal rendering and `indexOf`. Stateful parts are
classes whose methods are proved against specification functions:

| class | state |
|---|---|
| `Queue.JobQueue` | the adds made |
| `GraphqlWebhook.Channel` | the published messages |
| `Sendmail.Transport` | the attempted and delivered mails |
| `Sessions.SecretStorage`, `Sessions.SessionStorage` | the key/value stores |
| `LinkVerifier.NodeStore` | the two tables |

Foreign calls are parameters of the operations:

- the GraphQL queries and mutations;
- the user upsert;
- the page fetch;
- the transport's success;
- storage failures;
- code and token generation;
- the clock.

## Model

| member | source | states |
|---|---|---|
| Events.TransitionWithoutFrom | src/workers/utils.ts:14-27 | without `from`, a transition to `to` holds iff both snapshots exist, the old status differs from `to` and the new one equals it |
| Events.TransitionWithFrom | src/workers/utils.ts:14-27 | with a non-empty `from`, it holds iff both snapshots exist, the old status is `from` and the new one is `to` |
| Events.TransitionNeedsBothSnapshots | src/workers/utils.ts:21-23 | a payload missing either snapshot (INSERT or DELETE shaped) is never a transition |
| Events.SelfTransitionAccepted | src/workers/utils.ts:24 | with `from == to` an unchanged status counts as a transition |
| Events.UnchangedStatusNoTransition | src/workers/utils.ts:24-25 | without `from` an unchanged status is never a transition |
| Events.TransitionLandsOnTarget | src/workers/utils.ts:25 | a transition to `to` always has a new snapshot whose status is `to` |
| Events.TypeIgnoresOldSnapshot | src/workers/utils.ts:29-32 | the node-type test depends only on the new snapshot |
| Payload.DecodeOp | src/controllers/graphql_webhook.ts:52-56 | the operation decodes iff it is one of the literals UPDATE, INSERT, DELETE |
| Payload.DecodeNode | src/controllers/graphql_webhook.ts:28-39 | a decoded node satisfies every field constraint: object content, dates, UUID ids, non-empty strings, version a non-negative integer |
| Payload.DecodeData | src/controllers/graphql_webhook.ts:48-51 | each snapshot present after decoding is a valid node |
| Payload.DecodePayload | src/controllers/graphql_webhook.ts:41-69 | a decoded payload satisfies every constraint of the codec |
| Payload.OpLiterals | src/controllers/graphql_webhook.ts:52-56 | UPDATE, INSERT and DELETE decode to their operations; PATCH is rejected |
| Payload.NatCodec | src/controllers/graphql_webhook.ts:38-46 | a counter decodes iff it is a non-negative integral number, and every natural number decodes to itself |
| Payload.NodeRoundTrip | src/controllers/graphql_webhook.ts:28-39 | a valid node decodes back from its encoding |
| Payload.DataRoundTrip | src/controllers/graphql_webhook.ts:48-51 | data with valid snapshots decodes back from its encoding, absent snapshots included |
| Payload.EventRoundTrip | src/controllers/graphql_webhook.ts:47-60 | a valid event decodes back from its encoding |
| Payload.PayloadFieldsRoundTrip | src/controllers/graphql_webhook.ts:41-69 | each top-level field of an encoded valid payload decodes to the field it came from |
| Payload.PayloadEventRoundTrip | src/controllers/graphql_webhook.ts:47-60 | the event of an encoded valid payload decodes to the payload's event |
| Payload.RoundTrip | src/controllers/graphql_webhook.ts:41-69 | decoding the encoding of a valid payload gives the payload back |
| Payload.OpNotCrossChecked | src/controllers/graphql_webhook.ts:47-60 | the operation is not checked against which snapshots are present: any op with any snapshots round-trips |
| Payload.SnapshotPresence | src/controllers/graphql_webhook.ts:48-51 | missing `new` and `old` decode as absent, a null `old` as absent, a null `new` is rejected |
| GraphqlWebhook.Channel.constructor | src/controllers/graphql_webhook.ts:114-129 | a new channel has published nothing |
| GraphqlWebhook.Channel.Publish | src/controllers/graphql_webhook.ts:101 | a failed publish sends nothing; a delivered one appends the message |
| GraphqlWebhook.HandlerResponse | src/controllers/graphql_webhook.ts:93-111 | Forbidden iff the token differs; internal error iff the token matches and the publish fails; success only on delivery, carrying the receiver count as text; never not-found |
| GraphqlWebhook.Handle | src/controllers/graphql_webhook.ts:93-111 | the response is HandlerResponse; a wrong token or failed publish leaves the channel unchanged; otherwise the encoded payload is appended |
| GraphqlWebhook.Request | src/controllers/graphql_webhook.ts:114-129 | a validation error iff the token header is missing or not a string or the body does not decode; otherwise the handler's response, with the channel growing by the decoded payload exactly on success |
| GraphqlWebhook.WrongTokenForbidden | src/controllers/graphql_webhook.ts:95-97 | a wrong token is refused whatever the channel would answer |
| GraphqlWebhook.PublishedPayloadDispatches | src/controllers/graphql_webhook.ts:101 | a published valid payload decodes back on the dispatcher's side, which then applies its rules to that payload and never drops it |
| GraphqlWebhook.AcceptedRequestDispatches | src/workers/node_events_dispatcher.ts:26 | what an accepted request publishes decodes to the very payload the webhook accepted |
| Queue.JobQueue.constructor | src/utils/queue_client.ts:12-28 | a new queue holds no adds |
| Queue.JobQueue.Add | src/workers/node_events_dispatcher.ts:72-74 | an add appends the named job with its data and id |
| Queue.QueueEmail | src/workers/node_events_dispatcher.ts:60-64 | queueing a mail appends a "sendmail" job with the message and the optional id |
| Queue.Stored | src/utils/queue_client.ts:12-28 | the stored jobs are among the adds and no more numerous |
| Queue.StoredKeepsIds | src/utils/queue_client.ts:12-28 | every job id ever added is held by the queue (completed jobs are not removed) |
| Queue.StoredIgnoresKnownIds | src/utils/queue_client.ts:12-28 | adds whose ids are all held already change nothing |
| Queue.RepeatedBatchIgnored | src/utils/queue_client.ts:12-28 | adding the same batch of id-carrying jobs twice stores what adding it once does |
| Dispatcher.DeclarationJobs | src/workers/node_events_dispatcher.ts:30-75 | the declaration rule either ends normally or queues nothing |
| Dispatcher.ProcedureJobs | src/workers/node_events_dispatcher.ts:77-115 | the procedure rule queues at most one job, a "sendmail" job under the node's publish id, and queues nothing unless it ends normally |
| Dispatcher.DispatchPayload | src/workers/node_events_dispatcher.ts:27-116 | a decoded payload queues at most two jobs, is never dropped, and queues nothing when the handler stops early or throws |
| Dispatcher.Dispatch | src/workers/node_events_dispatcher.ts:26-118 | a message is dropped iff it does not decode, and a dropped message queues nothing |
| Dispatcher.HandleMessage | src/workers/node_events_dispatcher.ts:24-118 | the listener appends exactly the jobs of Dispatch and ends as Dispatch says |
| Dispatcher.HandlePayload | src/workers/node_events_dispatcher.ts:27-116 | the three rules in order append exactly the jobs of DispatchPayload and end as it says |
| Dispatcher.HandleProcedure | src/workers/node_events_dispatcher.ts:77-115 | the procedure rule appends exactly the jobs of ProcedureJobs and ends as it says |
| Dispatcher.RulesExclusive | src/workers/node_events_dispatcher.ts:30-82 | the declaration rule and the procedure rule never both fire on one payload |
| Dispatcher.OtherTypesQueueNothing | src/workers/node_events_dispatcher.ts:30-82 | a node of any other type queues nothing and ends normally |
| Dispatcher.PublishedDeclarationJobs | src/workers/node_events_dispatcher.ts:30-75 | a published declaration ends normally iff the owner's first row has a non-empty e-mail; it then queues the owner's mail and the link-verifier job with the original message, in that order, and otherwise queues nothing |
| Dispatcher.MissingOwnerSkipsLinkCheck | src/workers/node_events_dispatcher.ts:35-43 | when the user query fails the handler returns before the link-verifier rule, so the declaration is never link-checked |
| Dispatcher.ReportGoesToOmbudsman | src/workers/node_events_dispatcher.ts:101-115 | a handled procedure queues exactly one mail, under the node's publish id, addressed to the ombudsman |
| Dispatcher.ProcedureReportJobs | src/workers/node_events_dispatcher.ts:77-115 | a new procedure with an ombudsman configured ends normally iff the owner's first row has an e-mail passing the e-mail check and the report builds; it then queues exactly the report mail to the ombudsman, with the report's attachments, under the node's publish id, and otherwise queues nothing |
| Dispatcher.ProcedureWithoutRuleQueuesNothing | src/workers/node_events_dispatcher.ts:77-82 | an updated procedure, or one inserted while no ombudsman address is configured, queues nothing and ends normally |
| Dispatcher.ReportMessageAttachments | src/workers/node_events_dispatcher.ts:101-106 | the report mail carries every attachment of the report, in order, with its file name, download path and headers when present |
| Dispatcher.ReportMessageDecodes | src/workers/node_events_dispatcher.ts:101-106 | the report message decodes as sendmail input with the report's body, title and recipient; its attachments are ignored |
| Dispatcher.SendmailJobsDecode | src/workers/node_events_dispatcher.ts:51-115 | every mail job the dispatcher queues is accepted by the sendmail processor |
| Dispatcher.ProcedureMailDecodes | src/workers/node_events_dispatcher.ts:101-115 | every job of the procedure rule decodes as sendmail input |
| Dispatcher.DeclarationMailDecodes | src/workers/node_events_dispatcher.ts:51-64 | every mail job of the declaration rule decodes as sendmail input |
| Dispatcher.DeclMessageDecodes | src/workers/node_events_dispatcher.ts:46-55 | the owner's mail decodes to the template's body and title with the owner as recipient |
| Dispatcher.LinkJobDecodes | src/workers/node_events_dispatcher.ts:66-75 | a link-verifier job carries the message itself, which decodes to a payload with a new snapshot, under that payload's link-verifier id |
| Dispatcher.LinkJobsOfPayload | src/workers/node_events_dispatcher.ts:66-75 | for a decoded payload, its link-verifier job carries the message under `link-verifier:<payload id>` |
| Dispatcher.PublishJobIdInjective | src/workers/node_events_dispatcher.ts:63 | two nodes share a publish job id iff they have the same id and version |
| Dispatcher.JobIdsFromPayload | src/workers/node_events_dispatcher.ts:60-74 | job names, ids and the outcome do not depend on the message text, and every job carries the node's publish id or the event's link-verifier id |
| Dispatcher.RedeliveryStoresNothing | src/workers/node_events_dispatcher.ts:60-74 | handling the same message a second time stores no new job in the queue |
| Sendmail.DecodeInput | src/workers/email_processor.ts:17-21 | decoded input has exactly the `content`, `subject` and `to` strings of the job data |
| Sendmail.DecodeAcceptsStrings | src/workers/email_processor.ts:17-21 | job data decodes iff it is an object whose three fields are strings |
| Sendmail.InputRoundTrip | src/workers/email_processor.ts:17-21 | sendmail input decodes back from its encoding |
| Sendmail.OtherFieldsIgnored | src/workers/email_processor.ts:17-21 | any other field, `attachments` included, has no effect on decoding |
| Sendmail.RecipientChoice | src/workers/email_processor.ts:51 | a set, non-empty test address replaces the recipient; otherwise the input's `to` is used |
| Sendmail.MessageDefaults | src/workers/email_processor.ts:39-52 | sender and reply-to fall back to ""; subject and body pass through to the template; the text part renders the HTML |
| Sendmail.Transport.constructor | src/workers/email_processor.ts:24 | a new transport has attempted and delivered nothing |
| Sendmail.Transport.SendMail | src/workers/email_processor.ts:55 | every message is attempted; it is delivered iff the transport does not fail |
| Sendmail.Process | src/workers/email_processor.ts:26-61 | every job ends normally; undecodable data sends nothing; decodable data hands the built message to the transport once, whether or not delivery fails |
| LinkVerifier.LatestPublished | src/workers/link_verifier_processor.ts:34-52 | None iff the node has no published revision; otherwise a published revision of the node whose version is the highest |
| LinkVerifier.MarkVerified | src/workers/link_verifier_processor.ts:20-32 | the update keeps the set of node ids and leaves every other node's row as it was |
| LinkVerifier.OutcomeOf | src/workers/link_verifier_processor.ts:106-185 | the job fails (and is retried) iff the decision is a retry or the verification's update fails |
| LinkVerifier.NodeStore.constructor | src/workers/link_verifier_processor.ts:66 | the store holds the given tables |
| LinkVerifier.NodeStore.SetNodeAsVerified | src/workers/link_verifier_processor.ts:20-32 | revisions unchanged; nodes become MarkVerified of the old nodes |
| LinkVerifier.NodeStore.Process | src/workers/link_verifier_processor.ts:67-186 | revisions unchanged; outcome and new nodes are those of the decision for the job data |
| LinkVerifier.NodeStore.ProcessPayload | src/workers/link_verifier_processor.ts:84-185 | the same, for a decoded payload |
| LinkVerifier.VerifiedOnlyWhenFound | src/workers/link_verifier_processor.ts:95-166 | a node is marked only when the query succeeded, for its latest published revision, with a truthy URL whose fetched page contains the revision id |
| LinkVerifier.VerifiedWhenFound | src/workers/link_verifier_processor.ts:118-166 | conversely, a truthy URL of the latest published revision whose fetched page contains the revision id leads to verification; with a successful mutation the job completes and the node gets `metadata.verified` and the revision's version plus one |
| LinkVerifier.FalsyUrlSkipped | src/workers/link_verifier_processor.ts:124-131 | a falsy "website-url" ends the job normally, with no fetch and no change to any node |
| LinkVerifier.MissingIdRetried | src/workers/link_verifier_processor.ts:175-185 | a page that does not mention the id is retried |
| LinkVerifier.UnpublishedRetried | src/workers/link_verifier_processor.ts:118-124 | a node without a published revision (none at all, or only draft and archived ones) makes the job throw (TypeError) and be retried |
| LinkVerifier.AppendVerifiedOnObjects | src/workers/link_verifier_processor.ts:24 | appending sets `metadata` to `{verified: true}`, keeps every other top-level key, and is idempotent |
| LinkVerifier.MarkVerifiedRow | src/workers/link_verifier_processor.ts:20-32 | the marked row gets the appended content and the revision's version plus one |
| LinkVerifier.VersionCanRegress | src/workers/link_verifier_processor.ts:21-25 | the update sets the version without comparing it to the stored one, so a node's version can go down |
| LinkVerifier.NoSnapshotSkipped | src/workers/link_verifier_processor.ts:75-93 | undecodable data or a payload without a new snapshot is acknowledged with no change |
| LinkVerifier.DispatchedJobsReachQuery | src/workers/link_verifier_processor.ts:75-116 | every link-verifier job the dispatcher queues decodes with a new snapshot, so a failing revision query retries it rather than dropping it |
| DeclPublished.EmailDeclPublished | src/templates/html/email/decl_published.ts:3-15 | the subject is the fixed title, and the body contains the link to the declaration's view page, labelled with its title |
| ReportPublished.WithPath | src/templates/html/email/report_published.ts:36 | an entry is in the result iff it is in the input and has a non-empty path |
| ReportPublished.ReportDefinedness | src/templates/html/email/report_published.ts:13-36 | the builder throws exactly when `values` or one of the two upload fields is missing |
| ReportPublished.UploadedHasPath | src/templates/html/email/report_published.ts:19-25 | an uploaded file's attachment always has a non-empty path |
| ReportPublished.AttachmentsShape | src/templates/html/email/report_published.ts:17-36 | at most two attachments, feedback before answer, each present iff its field's first element and that element's id are truthy, each with the admin-secret header and its field's download path |
| ReportPublished.FeedbackFilenameFromArray | src/templates/html/email/report_published.ts:20 | the feedback file name is read from the array, not its first element, so it renders as "undefined" while the answer keeps its name |
| ReportPublished.TitleShape | src/templates/html/email/report_published.ts:82 | the title of every report that builds starts with "Segnalazione inaccessibilità " and contains the reporter's name and the reported administration |
| ReportPublished.RowsFollowDeviceType | src/templates/html/email/report_published.ts:43-80 | the body rows show the site address exactly for websites, and the app name and store address exactly for the other device types |
| FeedbackPublished.EmailFeedbackPublished | src/templates/html/email/feedback_published.ts:8-32 | the builder fails iff `values` is missing; sender and reply-to are the user's address |
| FeedbackPublished.ServiceByDeviceType | src/templates/html/email/feedback_published.ts:11-16 | the service type is "sito web" iff the device type is website, and the address is the site's or the app's accordingly |
| FeedbackPublished.FeedbackMentionsService | src/templates/html/email/feedback_published.ts:21-30 | the body states "<service type>: <service address>" and the title names the address and the user |
| Sessions.TokenFor | src/controllers/auth_email.ts:142-148 | a token is found iff the read succeeds and the key holds a non-empty value, which is then the token |
| Sessions.SecretStorage.constructor | src/services/redis_object_storage.ts:59-65 | a new store is empty |
| Sessions.SecretStorage.Set | src/services/redis_object_storage.ts:66-90 | a successful write maps the key to the value; a failed one changes nothing |
| Sessions.SessionStorage.constructor | src/services/redis_object_storage.ts:59-65 | a new store is empty |
| Sessions.SessionStorage.Set | src/services/redis_object_storage.ts:66-90 | a successful write maps the token to the user; a failed one changes nothing |
| Sessions.LoginResponse | src/controllers/auth_email.ts:159-195 | success iff the upsert and the session write succeed and the result passes the check; the result then carries the session token as backend token, the upserted JWT and id, the user's e-mail and roles; an upsert failure, a session write failure and a failed check (with its readable report) are the source's internal errors; never Forbidden or not-found |
| Sessions.CompleteLogin | src/controllers/auth_email.ts:159-195 | the response is LoginResponse and the sessions become SessionsAfter |
| Sessions.SessionStoredIffUpserted | src/controllers/auth_email.ts:159-179 | the sessions change only after a successful upsert and write; they then hold the user with metadata under its token, even if the result check fails |
| AuthEmail.CodeMessage | src/templates/html/email/auth_email_template.ts:3-17 | the code mail has the fixed subject, goes to the address, and shows the code in a heading |
| AuthEmail.SendEmail | src/controllers/auth_email.ts:60-98 | a failed secret write is an internal error with nothing stored or queued; otherwise `<code>_<email>` maps to the token, one code mail is queued, and the address is returned |
| AuthEmail.LoginUser | src/controllers/auth_email.ts:139-157 | a user is built iff the secret check finds a token; it then has that token, the address, the default group and role, and no metadata |
| AuthEmail.Login | src/controllers/auth_email.ts:133-197 | a refused secret gives Forbidden with no session stored; otherwise the response and the sessions are those of the shared login end for the built user |
| AuthEmail.Handshake | src/controllers/auth_email.ts:57-197 | after the code for an address is stored with a token, a login with that code and address builds a user holding that token; once the user is upserted, the session stored and the result checked, the login succeeds with that token as backend token |
| AuthEmail.KeyInjective | src/controllers/auth_email.ts:57-58 | for codes without "_", two keys are equal iff codes and addresses are |
| AuthEmail.FirstSeparator | src/controllers/auth_email.ts:57-58 | in the key of a code without "_", the first "_" follows the code |
| AuthEmail.KeyCollision | src/controllers/auth_email.ts:57-58 | a code containing "_" can read another pair's token: secret "k_b" for address "c" finds the token stored for code "k" and address "b_c" |
| AuthEmail.WrongCodeForbidden | src/controllers/auth_email.ts:142-147 | with one stored code, any other code without "_" is refused |
| AuthEmail.CodeMailDecodes | src/controllers/auth_email.ts:82-93 | the queued code mail is accepted by the sendmail processor and goes to the requested address |
| AuthIpa.CodeMessage | src/templates/html/email/auth_ipa_template.ts:3-26 | the access-code mail has the fixed subject and the given recipient, and contains the code heading and the login link for the IPA code |
| AuthIpa.CodeFor | src/controllers/auth_ipa.ts:133-145 | the mail for a found administration has the fixed subject and goes to the officer or, for a school, to `mail2` |
| AuthIpa.Refusal | src/controllers/auth_ipa.ts:99-119 | a request is refused before storing iff the query has errors, the administration is not found, or it cannot be mailed; refusals are internal or not-found errors |
| AuthIpa.SendEmailToRtd | src/controllers/auth_ipa.ts:81-175 | a refusal changes nothing; a failed secret write is an internal error with nothing changed; otherwise `<code>_<ipaCode>` maps to the token, the code mail is queued, and the found rows are returned |
| AuthIpa.LoginCheck | src/controllers/auth_ipa.ts:222-265 | a missing token is Forbidden; proceeding means the token was found and the administration was found, and the user has the token, the IPA code as group, the "rtd" role and the recipient address |
| AuthIpa.Login | src/controllers/auth_ipa.ts:216-305 | a refused check answers with its response and stores no session; otherwise the response and the sessions are those of the shared login end |
| AuthIpa.FoundNeedsBothLists | src/controllers/auth_ipa.ts:62-66 | an administration is found when both lists have a first row, and not when a list is absent or empty |
| AuthIpa.Eligibility | src/controllers/auth_ipa.ts:107-113 | a non-school may be mailed only when its officer address equals the placeholder, and then the mail goes to the placeholder; a school is mailed at `mail2` unless it is the text "null" |
| AuthIpa.RealOfficerRefused | src/controllers/auth_ipa.ts:110-119 | a non-school whose officer has a real address is refused as "Mail address not set." |
| AuthIpa.Handshake | src/controllers/auth_ipa.ts:121-145 | after the code for an IPA code is stored with a token, a login with that code proceeds with that token, the IPA code as group and the address the code was mailed to |
| AuthIpa.JoinLinesParts | src/controllers/auth_ipa.ts:100 | the joined error text contains every error line |
| Uuid.IsUuidIffShape | src/types/uuid.ts:4 | the matcher accepts exactly the strings made of five non-empty hyphen-separated runs of word characters |
| Uuid.JoinAccepted | src/types/uuid.ts:4 | a hyphen join of word runs is accepted iff there are five of them, none empty |
| Uuid.CanonicalAccepted | src/types/uuid.ts:4 | every canonical 8-4-4-4-12 hexadecimal UUID is accepted |
| Uuid.TooFewGroupsRejected | src/types/uuid.ts:4 | four groups are rejected |
| Uuid.TooManyGroupsRejected | src/types/uuid.ts:4 | six groups are rejected |
| Uuid.EmptyGroupRejected | src/types/uuid.ts:4 | an empty group, as in "a--b-c-d", is rejected |
| Uuid.AcceptedChars | src/types/uuid.ts:4 | every character of an accepted string is a word character or a hyphen |
| Uuid.NonWordRejected | src/types/uuid.ts:4 | any other character anywhere rejects the string |
| Uuid.ExtraGroupRejected | src/types/uuid.ts:4 | the pattern is anchored: a UUID followed by one more group is rejected |
| Text.NatToString | src/workers/node_events_dispatcher.ts:63 | a version renders as a non-empty run of digits, with two or more digits iff it is at least ten |
| Text.IndexOfFrom | src/workers/link_verifier_processor.ts:149 | `indexOf` gives the first occurrence at or after the start, or -1 iff there is none |
| Text.IndexOfFound | src/workers/link_verifier_processor.ts:149 | `indexOf` answers -1 iff the substring does not occur |
| Text.EmptyAlwaysFound | src/workers/link_verifier_processor.ts:149 | the empty string is found at position 0 of any body |

## Left out

- JSON text: `JSON.stringify` on publish and `JSON.parse` on receipt are not modelled. The channel and the jobs carry `Json.Value`s, so a published payload is received as the value that was sent.
- Dates: `DateFromString` is an `isDate` parameter, and the decoded strings are kept as they are. The re-serialisation of parsed `Date`s when a payload is published again is not modelled.
- The clock: the templates' "DD/MM/YYYY" / "HH:mm" stamps and `created_at` are inputs.
- Number rendering: a number in a template literal renders as its integer part. JavaScript's decimal form of non-integral numbers is not modelled; the numbers the model renders (versions, receiver counts) are integers.
- The Bull queue library: claiming, timing, retries and exponential backoff are not modelled. `QUEUE_MAX_ATTEMPTS` and `QUEUE_INITIAL_DELAY_MS` are constants. Job-id deduplication is modelled by `Queue.Stored`, which assumes completed jobs are kept; `removeOnComplete` is disabled in the source.
- Redis pub/sub: subscription, delivery timing and the loss of messages published before a subscriber starts are not modelled. The channel records what was published.
- `queueEmail` itself is not part of this model (src/utils/queue_client.ts shows only the client). It is modelled as adding a "sendmail" job with the message and the optional job id.
- The link verifier's page fetch, its 10-second abort and `res.text()` are one `fetch` parameter, where None means the request failed or was aborted.
- Foreign code: the GraphQL client, nodemailer, `withDefaultEmailTemplate`, `htmlToText`, `GetOrCreateUser` and the JWT service are not modelled. The template and the text rendering are symbolic constructors. The upsert is a parameter, and `LoginResultT.decode` with the readable report of its errors is a `resultErrors` parameter.
- Configuration: `ISTAT_SCHOOL_TIPOLOGY`, `DEFAULT_GROUP_NAME`, `DEFAULT_ROLE_NAME`, `OMBUDSMAN_EMAIL`, the upload host, the admin secret and the mail settings are parameters.
- GraphQL results: query errors are a list of strings. An Apollo result whose `data` is absent without errors is not modelled; in the link verifier it is treated like a failed query.
- Code and token generation are inputs of the two code-sending handlers.
- Express details: Node joins a repeated `x-webhook-token` header into one string separated by ", ". That string passes the header check and is then refused as Forbidden by the token comparison; the model receives the header map after this joining. The request-parameter middleware of the IPA routes and the rate limiter are not modelled.
- Session writes: the store reports success or failure. The source's `!errorOrSession` test on an `Either` never fires, and the Redis store never answers `Right(false)`, so nothing is lost.
- The declaration-published subject is the fixed title. The template does not put the node's title into the subject.
- Sendmail.Process: a transport error is logged and the job still ends normally. Such mails are not retried, as the code does.
- LinkVerifier.NodeStore.SetNodeAsVerified: the mutation is filtered by node id only; there is no optimistic check of the stored version (see `LinkVerifier.VersionCanRegress`).
- Sessions.SecretStorage.Set, Sessions.SessionStorage.Set: the Redis store's `set` takes the object and a key-derivation function, while the handlers pass a key (or token) and a value. As written, it would call a string as the key function. Both members model the intended write of that key and value. They also leave out the `EX tokenDurationSecs` expiry, so stored codes and sessions never expire in the model.
- Not-found responses carry their title and detail strings. Validation errors from the middlewares are a single `ValidationError` answer, without the decoder's report.
