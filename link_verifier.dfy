/**
 * The link-verifier processor (src/workers/link_verifier_processor.ts): for
 * a published declaration it fetches the page at the declaration's
 * "website-url" and, when the page mentions the declaration's id, marks the
 * node as verified. The two GraphQL tables it touches are the fields of
 * `NodeStore`; the page fetch is an input.
 */
module LinkVerifier {
  import opened Wrappers
  import opened Json
  import opened Text
  import opened Payload
  import opened Queue
  import Dispatcher

  const PUBLISHED: string := "published"
  const FETCH_TIMEOUT_MS: nat := 10000
  /** The rejection reason of a property read on a missing value. */
  const TYPE_ERROR: string := "TypeError"
  /** The rejection reason of a fetch that fails or is aborted after the timeout. */
  const FETCH_ERROR: string := "FetchError"

  /** A row of `node_revision`. */
  datatype Revision = Revision(id: string, version: nat, status: string, content: Value)

  /** The columns of a `node` row that the processor changes. */
  datatype NodeRow = NodeRow(content: Value, version: nat)

  predicate IsPublishedRevisionOf(r: Revision, id: string)
  {
    r.id == id && r.status == PUBLISHED
  }

  /**
   * `GetLatestPublishedNodeRevision`: the published revision of a node with
   * the highest version, if any.
   */
  function LatestPublished(revs: seq<Revision>, id: string): (r: Option<Revision>)
    ensures r.None? <==> forall i :: 0 <= i < |revs| ==> !IsPublishedRevisionOf(revs[i], id)
    ensures r.Some? ==>
      && r.value in revs
      && IsPublishedRevisionOf(r.value, id)
      && forall i :: 0 <= i < |revs| && IsPublishedRevisionOf(revs[i], id) ==> revs[i].version <= r.value.version
  {
    if revs == [] then None
    else
      var rest := LatestPublished(revs[1..], id);
      if IsPublishedRevisionOf(revs[0], id) && (rest.None? || rest.value.version <= revs[0].version)
      then Some(revs[0])
      else rest
  }

  /** `content.values["website-url"]`; None where one of the reads throws. */
  function WebsiteUrl(content: Value): Option<Value>
  {
    match Get(content, "values")
    case None => None
    case Some(values) => Get(values, "website-url")
  }

  const VERIFIED_METADATA: Value := Obj(map["verified" := Bool(true)])

  /**
   * `_append: { content: { metadata: { verified: true } } }`, PostgreSQL's
   * jsonb `||`: an object gets its top-level "metadata" key replaced, an
   * array gets the object as a new element, any other value is first made a
   * one-element array, and SQL null stays null.
   */
  function AppendVerified(content: Value): Value
  {
    var appended := Obj(map["metadata" := VERIFIED_METADATA]);
    match content
    case Obj(fields) => Obj(fields["metadata" := VERIFIED_METADATA])
    case Arr(items, props) => Arr(items + [appended], props)
    case Null => Null
    case Undefined => Undefined
    case _ => Arr([content, appended], map[])
  }

  /** `update_node(where: { id: { _eq: id } }, ...)`: only the row with that id changes, if there is one. */
  function MarkVerified(nodes: map<string, NodeRow>, id: string, version: nat): (r: map<string, NodeRow>)
    ensures r.Keys == nodes.Keys
    ensures forall k :: k in nodes && k != id ==> r[k] == nodes[k]
  {
    if id in nodes then nodes[id := NodeRow(AppendVerified(nodes[id].content), version)] else nodes
  }

  /** What the processor decides for a job, before the mutation. */
  datatype Decision = Skip | Retry(reason: string) | Verify(rev: Revision, url: string)

  /**
   * The decision for a decoded payload, given the revisions, whether the
   * revision query fails and what fetching a URL yields (None when the
   * request fails or is aborted).
   */
  function DecidePayload(p: WebhookPayload, revisions: seq<Revision>, queryFails: bool,
                         fetch: string -> Option<string>): Decision
  {
    if p.event.data.newNode.None? then Skip
    else
      var id := p.event.data.newNode.value.id;
      if queryFails then Retry("cannot get lastest published revision for node " + id)
      else
        match LatestPublished(revisions, id)
        case None => Retry(TYPE_ERROR)
        case Some(rev) =>
          match WebsiteUrl(rev.content)
          case None => Retry(TYPE_ERROR)
          case Some(url) =>
            if !Truthy(url) then Skip
            else
              match fetch(ToStr(url))
              case None => Retry(FETCH_ERROR)
              case Some(body) =>
                if IndexOf(body, rev.id) != -1 then Verify(rev, ToStr(url))
                else Retry("cannot find id " + rev.id + " at " + ToStr(url))
  }

  function Decide(jobData: Value, isDate: string -> bool, revisions: seq<Revision>, queryFails: bool,
                  fetch: string -> Option<string>): Decision
  {
    match DecodePayload(jobData, isDate)
    case None => Skip
    case Some(p) => DecidePayload(p, revisions, queryFails, fetch)
  }

  /** How the job ends: a retry on every thrown error, including a failed mutation. */
  function OutcomeOf(d: Decision, updateFails: bool): (r: JobOutcome)
    ensures r.Failed? <==> d.Retry? || (d.Verify? && updateFails)
  {
    match d
    case Skip => Completed
    case Retry(reason) => Failed(reason)
    case Verify(rev, url) =>
      if updateFails then Failed("cannot update node " + rev.id + " for " + url) else Completed
  }

  /** The node rows after the job: marked only on a verification whose mutation succeeds. */
  function NodesAfter(nodes: map<string, NodeRow>, d: Decision, updateFails: bool): map<string, NodeRow>
  {
    if d.Verify? && !updateFails then MarkVerified(nodes, d.rev.id, d.rev.version + 1) else nodes
  }

  class NodeStore {
    /** The `node_revision` table. */
    var revisions: seq<Revision>
    /** The `node` table, by id. */
    var nodes: map<string, NodeRow>

    constructor(revisions0: seq<Revision>, nodes0: map<string, NodeRow>)
      ensures revisions == revisions0 && nodes == nodes0
    {
      revisions := revisions0;
      nodes := nodes0;
    }

    /** The `SetNodeAsVerified` mutation. */
    method SetNodeAsVerified(id: string, version: nat)
      modifies this
      ensures revisions == old(revisions)
      ensures nodes == MarkVerified(old(nodes), id, version)
    {
      if id in nodes {
        nodes := nodes[id := NodeRow(AppendVerified(nodes[id].content), version)];
      }
    }

    /** The processor run on one job. */
    method Process(jobData: Value, isDate: string -> bool, queryFails: bool,
                   fetch: string -> Option<string>, updateFails: bool) returns (outcome: JobOutcome)
      modifies this
      ensures revisions == old(revisions)
      ensures outcome == OutcomeOf(Decide(jobData, isDate, old(revisions), queryFails, fetch), updateFails)
      ensures nodes == NodesAfter(old(nodes), Decide(jobData, isDate, old(revisions), queryFails, fetch), updateFails)
    {
      var decoded := DecodePayload(jobData, isDate);
      if decoded.None? {
        return Completed;
      }
      outcome := ProcessPayload(decoded.value, queryFails, fetch, updateFails);
    }

    /** The processor once the payload has decoded. */
    method ProcessPayload(p: WebhookPayload, queryFails: bool, fetch: string -> Option<string>,
                          updateFails: bool) returns (outcome: JobOutcome)
      modifies this
      ensures revisions == old(revisions)
      ensures outcome == OutcomeOf(DecidePayload(p, old(revisions), queryFails, fetch), updateFails)
      ensures nodes == NodesAfter(old(nodes), DecidePayload(p, old(revisions), queryFails, fetch), updateFails)
    {
      if p.event.data.newNode.None? {
        return Completed;
      }
      var node := p.event.data.newNode.value;
      if queryFails {
        return Failed("cannot get lastest published revision for node " + node.id);
      }
      var published := LatestPublished(revisions, node.id);
      if published.None? {
        return Failed(TYPE_ERROR);
      }
      var rev := published.value;
      var url := WebsiteUrl(rev.content);
      if url.None? {
        return Failed(TYPE_ERROR);
      }
      if !Truthy(url.value) {
        return Completed;
      }
      var response := fetch(ToStr(url.value));
      if response.None? {
        return Failed(FETCH_ERROR);
      }
      var body := response.value;
      if IndexOf(body, rev.id) != -1 {
        if updateFails {
          return Failed("cannot update node " + rev.id + " for " + ToStr(url.value));
        }
        SetNodeAsVerified(rev.id, rev.version + 1);
        return Completed;
      } else {
        return Failed("cannot find id " + rev.id + " at " + ToStr(url.value));
      }
    }
  }

  // ---- properties -------------------------------------------------------

  /**
   * A node is marked verified only for its latest published revision, with
   * a truthy URL whose page contains the revision id.
   */
  lemma VerifiedOnlyWhenFound(p: WebhookPayload, revisions: seq<Revision>, queryFails: bool,
                              fetch: string -> Option<string>)
    requires DecidePayload(p, revisions, queryFails, fetch).Verify?
    ensures var d := DecidePayload(p, revisions, queryFails, fetch);
      var id := p.event.data.newNode.value.id;
      && !queryFails
      && LatestPublished(revisions, id) == Some(d.rev)
      && WebsiteUrl(d.rev.content).Some?
      && Truthy(WebsiteUrl(d.rev.content).value)
      && d.url == ToStr(WebsiteUrl(d.rev.content).value)
      && fetch(d.url).Some?
      && Contains(fetch(d.url).value, d.rev.id)
  {
    var d := DecidePayload(p, revisions, queryFails, fetch);
    IndexOfFound(fetch(d.url).value, d.rev.id);
  }

  /**
   * Conversely, a reachable page at the truthy URL of the latest published
   * revision that contains the revision id leads to verification: the job
   * completes once the mutation succeeds, and the node's row gets
   * `metadata.verified` and the revision's version plus one.
   */
  lemma VerifiedWhenFound(p: WebhookPayload, revisions: seq<Revision>, fetch: string -> Option<string>,
                          nodes: map<string, NodeRow>, rev: Revision, url: Value)
    requires p.event.data.newNode.Some?
    requires LatestPublished(revisions, p.event.data.newNode.value.id) == Some(rev)
    requires WebsiteUrl(rev.content) == Some(url) && Truthy(url)
    requires fetch(ToStr(url)).Some? && Contains(fetch(ToStr(url)).value, rev.id)
    ensures DecidePayload(p, revisions, false, fetch) == Verify(rev, ToStr(url))
    ensures OutcomeOf(DecidePayload(p, revisions, false, fetch), false) == Completed
    ensures NodesAfter(nodes, DecidePayload(p, revisions, false, fetch), false)
      == MarkVerified(nodes, rev.id, rev.version + 1)
  {
    IndexOfFound(fetch(ToStr(url)).value, rev.id);
  }

  /**
   * A latest published revision whose "website-url" is falsy is skipped:
   * the job completes, nothing is fetched and no node changes.
   */
  lemma FalsyUrlSkipped(p: WebhookPayload, revisions: seq<Revision>, fetch: string -> Option<string>,
                        nodes: map<string, NodeRow>, updateFails: bool)
    requires p.event.data.newNode.Some?
    requires var rev := LatestPublished(revisions, p.event.data.newNode.value.id);
      && rev.Some?
      && WebsiteUrl(rev.value.content).Some?
      && !Truthy(WebsiteUrl(rev.value.content).value)
    ensures DecidePayload(p, revisions, false, fetch) == Skip
    ensures OutcomeOf(DecidePayload(p, revisions, false, fetch), updateFails) == Completed
    ensures NodesAfter(nodes, DecidePayload(p, revisions, false, fetch), updateFails) == nodes
  {
  }

  /** A reachable page that does not mention the id is retried, never marked. */
  lemma MissingIdRetried(p: WebhookPayload, revisions: seq<Revision>, fetch: string -> Option<string>)
    requires p.event.data.newNode.Some?
    requires var rev := LatestPublished(revisions, p.event.data.newNode.value.id);
      && rev.Some?
      && WebsiteUrl(rev.value.content).Some?
      && Truthy(WebsiteUrl(rev.value.content).value)
      && fetch(ToStr(WebsiteUrl(rev.value.content).value)).Some?
      && !Contains(fetch(ToStr(WebsiteUrl(rev.value.content).value)).value, rev.value.id)
    ensures DecidePayload(p, revisions, false, fetch).Retry?
  {
    var rev := LatestPublished(revisions, p.event.data.newNode.value.id).value;
    IndexOfFound(fetch(ToStr(WebsiteUrl(rev.content).value)).value, rev.id);
  }

  /** A node without a published revision (none at all, or only drafts and archived ones) makes the job throw and be retried. */
  lemma UnpublishedRetried(p: WebhookPayload, revisions: seq<Revision>, fetch: string -> Option<string>)
    requires p.event.data.newNode.Some?
    requires forall i :: 0 <= i < |revisions| ==> !IsPublishedRevisionOf(revisions[i], p.event.data.newNode.value.id)
    ensures DecidePayload(p, revisions, false, fetch) == Retry(TYPE_ERROR)
  {
  }

  /** Marking sets `metadata.verified`, keeps every other top-level key, and is idempotent on objects. */
  lemma AppendVerifiedOnObjects(fields: map<string, Value>)
    ensures var c := AppendVerified(Obj(fields));
      && Get(c, "metadata") == Some(VERIFIED_METADATA)
      && Get(VERIFIED_METADATA, "verified") == Some(Bool(true))
      && (forall k :: k in fields && k != "metadata" ==> Get(c, k) == Some(fields[k]))
      && AppendVerified(c) == c
  {
    var c := AppendVerified(Obj(fields));
    assert c.fields["metadata" := VERIFIED_METADATA] == c.fields;
  }

  /** The marked row gets the revision's version plus one and the appended content. */
  lemma MarkVerifiedRow(nodes: map<string, NodeRow>, rev: Revision)
    requires rev.id in nodes
    ensures MarkVerified(nodes, rev.id, rev.version + 1)[rev.id] ==
      NodeRow(AppendVerified(nodes[rev.id].content), rev.version + 1)
  {
  }

  /**
   * The mutation sets the version without comparing it with the stored one:
   * a node already at version 7 whose latest published revision is 3 goes
   * back to version 4.
   */
  lemma VersionCanRegress()
    ensures var id := "n";
      var nodes := map[id := NodeRow(Obj(map[]), 7)];
      var rev := Revision(id, 3, PUBLISHED, Obj(map[]));
      MarkVerified(nodes, rev.id, rev.version + 1)[id].version < nodes[id].version
  {
  }

  /** A job whose payload has no new snapshot, or does not decode, is acknowledged with no change. */
  lemma NoSnapshotSkipped(jobData: Value, isDate: string -> bool, revisions: seq<Revision>,
                          queryFails: bool, fetch: string -> Option<string>)
    requires DecodePayload(jobData, isDate).None? || DecodePayload(jobData, isDate).value.event.data.newNode.None?
    ensures Decide(jobData, isDate, revisions, queryFails, fetch) == Skip
  {
  }

  /**
   * Every link-verifier job the dispatcher queues gets past decoding: when
   * the revision query fails the job is retried rather than dropped.
   */
  lemma DispatchedJobsReachQuery(message: Value, env: Dispatcher.Env, revisions: seq<Revision>,
                                 fetch: string -> Option<string>)
    ensures forall j :: j in Dispatcher.Dispatch(message, env).0 && j.name == LINK_VERIFIER ==>
      Decide(j.data, env.isDate, revisions, true, fetch).Retry?
  {
    Dispatcher.LinkJobDecodes(message, env);
  }
}
