/**
 * The two rules the dispatcher combines (src/workers/utils.ts): a status
 * transition between the old and the new snapshot, and a node-type test on
 * the new snapshot.
 */
module Events {
  import opened Wrappers
  import opened Payload

  /**
   * `transitionedTo(payload, to, from?)`: both snapshots present, the new
   * status is `to`, and the old status is `from` when a (truthy) `from` is
   * given, otherwise anything but `to`.
   */
  predicate TransitionedTo(p: WebhookPayload, to: string, from: Option<string>)
  {
    var o := p.event.data.oldNode;
    var n := p.event.data.newNode;
    && o.Some?
    && n.Some?
    && (if from.Some? && from.value != "" then o.value.status == from.value else o.value.status != to)
    && n.value.status == to
  }

  /** `isNodeOfType(payload, type)`: only the new snapshot's type is consulted. */
  predicate IsNodeOfType(p: WebhookPayload, nodeType: string)
  {
    p.event.data.newNode.Some? && p.event.data.newNode.value.nodeType == nodeType
  }

  /** INSERT- and DELETE-shaped payloads (one snapshot missing) are never transitions. */
  lemma TransitionNeedsBothSnapshots(p: WebhookPayload, to: string, from: Option<string>)
    requires p.event.data.oldNode.None? || p.event.data.newNode.None?
    ensures !TransitionedTo(p, to, from)
  {
  }

  /** Without `from`: the old status differs from `to` and the new one equals it. */
  lemma TransitionWithoutFrom(p: WebhookPayload, to: string)
    ensures TransitionedTo(p, to, None) <==>
      && p.event.data.oldNode.Some? && p.event.data.newNode.Some?
      && p.event.data.oldNode.value.status != to
      && p.event.data.newNode.value.status == to
  {
  }

  /** With `from`: the old status is `from` and the new one is `to`, no inequality checked. */
  lemma TransitionWithFrom(p: WebhookPayload, to: string, from: string)
    requires from != ""
    ensures TransitionedTo(p, to, Some(from)) <==>
      && p.event.data.oldNode.Some? && p.event.data.newNode.Some?
      && p.event.data.oldNode.value.status == from
      && p.event.data.newNode.value.status == to
  {
  }

  /** Hence `from == to` with an unchanged status counts as a transition. */
  lemma SelfTransitionAccepted(p: WebhookPayload, s: string)
    requires s != ""
    requires p.event.data.oldNode.Some? && p.event.data.newNode.Some?
    requires p.event.data.oldNode.value.status == s == p.event.data.newNode.value.status
    ensures TransitionedTo(p, s, Some(s))
  {
  }

  /** Without `from`, an unchanged status is never a transition. */
  lemma UnchangedStatusNoTransition(p: WebhookPayload, to: string)
    requires p.event.data.oldNode.Some? && p.event.data.newNode.Some?
    requires p.event.data.oldNode.value.status == p.event.data.newNode.value.status
    ensures !TransitionedTo(p, to, None)
  {
  }

  /** A transition to `to` always lands on `to`. */
  lemma TransitionLandsOnTarget(p: WebhookPayload, to: string, from: Option<string>)
    requires TransitionedTo(p, to, from)
    ensures p.event.data.newNode.Some? && p.event.data.newNode.value.status == to
  {
  }

  /** The old snapshot never influences the type test. */
  lemma TypeIgnoresOldSnapshot(p: WebhookPayload, old': Option<Node>, nodeType: string)
    ensures IsNodeOfType(p, nodeType) <==>
      IsNodeOfType(p.(event := p.event.(data := p.event.data.(oldNode := old'))), nodeType)
  {
  }
}
