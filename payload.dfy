/**
 * The change-event payload accepted by the GraphQL webhook and decoded again
 * by the workers (`NodeT` and `WebhookPayload` in
 * src/controllers/graphql_webhook.ts), as a structural decoder over parsed
 * JSON values, together with the encoder used when the payload is published.
 */
module Payload {
  import opened Wrappers
  import opened Json
  import Uuid

  datatype Op = Update | Insert | Delete

  /** A node snapshot (one row of the form store). */
  datatype Node = Node(
    content: Value,
    createdAt: string,
    id: string,
    language: string,
    status: string,
    title: string,
    nodeType: string,
    updatedAt: string,
    userId: string,
    version: nat)

  /** `data.new` and `data.old`; an absent or null snapshot is None. */
  datatype Data = Data(newNode: Option<Node>, oldNode: Option<Node>)

  datatype Event = Event(data: Data, op: Op, role: Option<string>)

  datatype DeliveryInfo = DeliveryInfo(currentRetry: nat, maxRetries: nat)

  datatype Table = Table(name: string, schema: string)

  datatype WebhookPayload = WebhookPayload(
    createdAt: string,
    deliveryInfo: DeliveryInfo,
    event: Event,
    id: string,
    table: Table,
    triggerName: string)

  // ---- field codecs ----------------------------------------------------

  function DecodeNonEmpty(v: Value): Option<string>
  {
    if v.Str? && v.s != "" then Some(v.s) else None
  }

  function DecodeUuid(v: Value): Option<string>
  {
    if v.Str? && Uuid.IsUuid(v.s) then Some(v.s) else None
  }

  /** A number that is an integer and not negative. */
  function DecodeNat(v: Value): Option<nat>
  {
    if v.Num? && IsInteger(v.r) && v.r >= 0.0 then Some(v.r.Floor) else None
  }

  /** A string the date parser accepts; the parser itself is the `isDate` parameter. */
  function DecodeDate(v: Value, isDate: string -> bool): Option<string>
  {
    if v.Str? && isDate(v.s) then Some(v.s) else None
  }

  function DecodeOp(v: Value): (r: Option<Op>)
    ensures r.Some? <==> v == Str("UPDATE") || v == Str("INSERT") || v == Str("DELETE")
  {
    if v == Str("UPDATE") then Some(Update)
    else if v == Str("INSERT") then Some(Insert)
    else if v == Str("DELETE") then Some(Delete)
    else None
  }

  function OpName(op: Op): string
  {
    match op
    case Update => "UPDATE"
    case Insert => "INSERT"
    case Delete => "DELETE"
  }

  // ---- what a decoded payload guarantees ------------------------------

  predicate ValidNode(n: Node, isDate: string -> bool)
  {
    && IsObject(n.content)
    && isDate(n.createdAt) && isDate(n.updatedAt)
    && Uuid.IsUuid(n.id) && Uuid.IsUuid(n.userId)
    && n.language != "" && n.status != "" && n.title != "" && n.nodeType != ""
  }

  predicate ValidPayload(p: WebhookPayload, isDate: string -> bool)
  {
    && isDate(p.createdAt)
    && (p.event.data.newNode.Some? ==> ValidNode(p.event.data.newNode.value, isDate))
    && (p.event.data.oldNode.Some? ==> ValidNode(p.event.data.oldNode.value, isDate))
    && (p.event.role.Some? ==> p.event.role.value != "")
    && Uuid.IsUuid(p.id)
    && p.table.name != "" && p.table.schema != ""
    && p.triggerName != ""
  }

  // ---- decoders ---------------------------------------------------------

  function DecodeNode(v: Value, isDate: string -> bool): (r: Option<Node>)
    ensures r.Some? ==> ValidNode(r.value, isDate)
  {
    if !IsObject(v) then None
    else
      var content := Field(v, "content");
      var createdAt := DecodeDate(Field(v, "created_at"), isDate);
      var id := DecodeUuid(Field(v, "id"));
      var language := DecodeNonEmpty(Field(v, "language"));
      var status := DecodeNonEmpty(Field(v, "status"));
      var title := DecodeNonEmpty(Field(v, "title"));
      var nodeType := DecodeNonEmpty(Field(v, "type"));
      var updatedAt := DecodeDate(Field(v, "updated_at"), isDate);
      var userId := DecodeUuid(Field(v, "user_id"));
      var version := DecodeNat(Field(v, "version"));
      if IsObject(content) && createdAt.Some? && id.Some? && language.Some? && status.Some?
        && title.Some? && nodeType.Some? && updatedAt.Some? && userId.Some? && version.Some?
      then Some(Node(content, createdAt.value, id.value, language.value, status.value,
                     title.value, nodeType.value, updatedAt.value, userId.value, version.value))
      else None
  }

  /** `t.partial({new: NodeT, old: NodeT | null})`: `new` may be absent, `old` absent or null. */
  function DecodeData(v: Value, isDate: string -> bool): (r: Option<Data>)
    ensures r.Some? && r.value.newNode.Some? ==> ValidNode(r.value.newNode.value, isDate)
    ensures r.Some? && r.value.oldNode.Some? ==> ValidNode(r.value.oldNode.value, isDate)
  {
    if !IsObject(v) then None
    else
      var nv := Field(v, "new");
      var ov := Field(v, "old");
      var newNode := if nv.Undefined? then Some(None)
                     else var n := DecodeNode(nv, isDate); if n.Some? then Some(n) else None;
      var oldNode := if IsNullish(ov) then Some(None)
                     else var n := DecodeNode(ov, isDate); if n.Some? then Some(n) else None;
      if newNode.Some? && oldNode.Some? then Some(Data(newNode.value, oldNode.value)) else None
  }

  function DecodeEvent(v: Value, isDate: string -> bool): Option<Event>
  {
    if !IsObject(v) then None
    else
      var data := DecodeData(Field(v, "data"), isDate);
      var op := DecodeOp(Field(v, "op"));
      var role := DecodeSessionVariables(Field(v, "session_variables"));
      if data.Some? && op.Some? && role.Some?
      then Some(Event(data.value, op.value, role.value))
      else None
  }

  /** `t.partial({"x-hasura-role": NonEmptyString})`: an object whose role, if present, is a non-empty string. */
  function DecodeSessionVariables(sv: Value): Option<Option<string>>
  {
    if !IsObject(sv) then None
    else
      var rv := Field(sv, "x-hasura-role");
      if rv.Undefined? then Some(None)
      else var r := DecodeNonEmpty(rv); if r.Some? then Some(r) else None
  }

  /** `WebhookPayload.decode`: every field checked, the whole payload or nothing. */
  function DecodePayload(v: Value, isDate: string -> bool): (r: Option<WebhookPayload>)
    ensures r.Some? ==> ValidPayload(r.value, isDate)
  {
    if !IsObject(v) then None
    else
      var createdAt := DecodeDate(Field(v, "created_at"), isDate);
      var di := Field(v, "delivery_info");
      var currentRetry := if IsObject(di) then DecodeNat(Field(di, "current_retry")) else None;
      var maxRetries := if IsObject(di) then DecodeNat(Field(di, "max_retries")) else None;
      var event := DecodeEvent(Field(v, "event"), isDate);
      var id := DecodeUuid(Field(v, "id"));
      var tv := Field(v, "table");
      var name := if IsObject(tv) then DecodeNonEmpty(Field(tv, "name")) else None;
      var schema := if IsObject(tv) then DecodeNonEmpty(Field(tv, "schema")) else None;
      var gv := Field(v, "trigger");
      var trigger := if IsObject(gv) then DecodeNonEmpty(Field(gv, "name")) else None;
      if createdAt.Some? && currentRetry.Some? && maxRetries.Some? && event.Some? && id.Some?
        && name.Some? && schema.Some? && trigger.Some?
      then Some(WebhookPayload(createdAt.value, DeliveryInfo(currentRetry.value, maxRetries.value),
                               event.value, id.value, Table(name.value, schema.value), trigger.value))
      else None
  }

  // ---- encoder (JSON.stringify of a decoded payload, before text) -------

  function EncodeNode(n: Node): Value
  {
    Obj(map[
      "content" := n.content,
      "created_at" := Str(n.createdAt),
      "id" := Str(n.id),
      "language" := Str(n.language),
      "status" := Str(n.status),
      "title" := Str(n.title),
      "type" := Str(n.nodeType),
      "updated_at" := Str(n.updatedAt),
      "user_id" := Str(n.userId),
      "version" := Num(n.version as real)])
  }

  function EncodeData(d: Data): Value
  {
    var withNew: map<string, Value> := if d.newNode.Some? then map["new" := EncodeNode(d.newNode.value)] else map[];
    Obj(if d.oldNode.Some? then withNew["old" := EncodeNode(d.oldNode.value)] else withNew)
  }

  function EncodeEvent(e: Event): Value
  {
    Obj(map[
      "data" := EncodeData(e.data),
      "op" := Str(OpName(e.op)),
      "session_variables" := EncodeSessionVariables(e.role)])
  }

  function EncodeSessionVariables(role: Option<string>): Value
  {
    Obj(if role.Some? then map["x-hasura-role" := Str(role.value)] else map[])
  }

  function EncodePayload(p: WebhookPayload): Value
  {
    Obj(map[
      "created_at" := Str(p.createdAt),
      "delivery_info" := Obj(map[
        "current_retry" := Num(p.deliveryInfo.currentRetry as real),
        "max_retries" := Num(p.deliveryInfo.maxRetries as real)]),
      "event" := EncodeEvent(p.event),
      "id" := Str(p.id),
      "table" := Obj(map["name" := Str(p.table.name), "schema" := Str(p.table.schema)]),
      "trigger" := Obj(map["name" := Str(p.triggerName)])])
  }

  // ---- properties -------------------------------------------------------

  /** Only the three literal operations decode; "PATCH" is rejected. */
  lemma OpLiterals()
    ensures DecodeOp(Str("UPDATE")) == Some(Update)
    ensures DecodeOp(Str("INSERT")) == Some(Insert)
    ensures DecodeOp(Str("DELETE")) == Some(Delete)
    ensures DecodeOp(Str("PATCH")) == None
  {
  }

  /** Version and retry counters: exactly the non-negative integers decode. */
  lemma NatCodec(v: Value)
    ensures DecodeNat(v).Some? <==> v.Num? && IsInteger(v.r) && v.r >= 0.0
    ensures forall n: nat :: DecodeNat(Num(n as real)) == Some(n)
  {
  }

  lemma NodeRoundTrip(n: Node, isDate: string -> bool)
    requires ValidNode(n, isDate)
    ensures DecodeNode(EncodeNode(n), isDate) == Some(n)
  {
    var v := EncodeNode(n);
    assert Field(v, "content") == n.content;
    assert Field(v, "version") == Num(n.version as real);
  }

  lemma DataRoundTrip(d: Data, isDate: string -> bool)
    requires d.newNode.Some? ==> ValidNode(d.newNode.value, isDate)
    requires d.oldNode.Some? ==> ValidNode(d.oldNode.value, isDate)
    ensures DecodeData(EncodeData(d), isDate) == Some(d)
  {
    if d.newNode.Some? { NodeRoundTrip(d.newNode.value, isDate); }
    if d.oldNode.Some? { NodeRoundTrip(d.oldNode.value, isDate); }
  }

  lemma EventRoundTrip(e: Event, isDate: string -> bool)
    requires e.data.newNode.Some? ==> ValidNode(e.data.newNode.value, isDate)
    requires e.data.oldNode.Some? ==> ValidNode(e.data.oldNode.value, isDate)
    requires e.role.Some? ==> e.role.value != ""
    ensures DecodeEvent(EncodeEvent(e), isDate) == Some(e)
  {
    var ev := EncodeEvent(e);
    assert DecodeData(Field(ev, "data"), isDate) == Some(e.data) by {
      assert Field(ev, "data") == EncodeData(e.data);
      DataRoundTrip(e.data, isDate);
    }
    assert DecodeOp(Field(ev, "op")) == Some(e.op) by {
      assert Field(ev, "op") == Str(OpName(e.op));
    }
    assert DecodeSessionVariables(Field(ev, "session_variables")) == Some(e.role) by {
      assert Field(ev, "session_variables") == EncodeSessionVariables(e.role);
      RoleRoundTrip(e.role);
    }
  }

  lemma RoleRoundTrip(role: Option<string>)
    requires role.Some? ==> role.value != ""
    ensures DecodeSessionVariables(EncodeSessionVariables(role)) == Some(role)
  {
    var sv := EncodeSessionVariables(role);
    assert Field(sv, "x-hasura-role") == if role.Some? then Str(role.value) else Undefined;
  }

  /** Each top-level field of an encoded payload decodes back to the field it came from. */
  lemma PayloadFieldsRoundTrip(p: WebhookPayload, isDate: string -> bool)
    requires ValidPayload(p, isDate)
    ensures var v := EncodePayload(p);
      && DecodeDate(Field(v, "created_at"), isDate) == Some(p.createdAt)
      && IsObject(Field(v, "delivery_info"))
      && DecodeNat(Field(Field(v, "delivery_info"), "current_retry")) == Some(p.deliveryInfo.currentRetry)
      && DecodeNat(Field(Field(v, "delivery_info"), "max_retries")) == Some(p.deliveryInfo.maxRetries)
      && DecodeUuid(Field(v, "id")) == Some(p.id)
      && IsObject(Field(v, "table"))
      && DecodeNonEmpty(Field(Field(v, "table"), "name")) == Some(p.table.name)
      && DecodeNonEmpty(Field(Field(v, "table"), "schema")) == Some(p.table.schema)
      && IsObject(Field(v, "trigger"))
      && DecodeNonEmpty(Field(Field(v, "trigger"), "name")) == Some(p.triggerName)
  {
    var v := EncodePayload(p);
    assert DecodeDate(Field(v, "created_at"), isDate) == Some(p.createdAt) by {
      assert Field(v, "created_at") == Str(p.createdAt);
    }
    assert DecodeUuid(Field(v, "id")) == Some(p.id) by {
      assert Field(v, "id") == Str(p.id);
    }
    CountersRoundTrip(p.deliveryInfo.currentRetry, p.deliveryInfo.maxRetries);
    assert Field(v, "delivery_info") == Obj(map[
        "current_retry" := Num(p.deliveryInfo.currentRetry as real),
        "max_retries" := Num(p.deliveryInfo.maxRetries as real)]);
    assert Field(v, "table") == Obj(map["name" := Str(p.table.name), "schema" := Str(p.table.schema)]);
    assert Field(v, "trigger") == Obj(map["name" := Str(p.triggerName)]);
  }

  lemma CountersRoundTrip(current: nat, max: nat)
    ensures var di := Obj(map["current_retry" := Num(current as real), "max_retries" := Num(max as real)]);
      && DecodeNat(Field(di, "current_retry")) == Some(current)
      && DecodeNat(Field(di, "max_retries")) == Some(max)
  {
    var di := Obj(map["current_retry" := Num(current as real), "max_retries" := Num(max as real)]);
    assert Field(di, "current_retry") == Num(current as real);
    assert Field(di, "max_retries") == Num(max as real);
  }

  lemma PayloadEventRoundTrip(p: WebhookPayload, isDate: string -> bool)
    requires ValidPayload(p, isDate)
    ensures DecodeEvent(Field(EncodePayload(p), "event"), isDate) == Some(p.event)
  {
    EventRoundTrip(p.event, isDate);
    assert Field(EncodePayload(p), "event") == EncodeEvent(p.event);
  }

  /** A valid payload survives publishing: decoding its encoding gives it back. */
  lemma RoundTrip(p: WebhookPayload, isDate: string -> bool)
    requires ValidPayload(p, isDate)
    ensures DecodePayload(EncodePayload(p), isDate) == Some(p)
  {
    PayloadFieldsRoundTrip(p, isDate);
    PayloadEventRoundTrip(p, isDate);
  }

  /**
   * The operation is not cross-checked against the snapshots: a valid payload
   * still decodes, unchanged, whichever of the three operations it names.
   */
  lemma OpNotCrossChecked(p: WebhookPayload, op: Op, isDate: string -> bool)
    requires ValidPayload(p, isDate)
    ensures DecodePayload(EncodePayload(p.(event := p.event.(op := op))), isDate)
         == Some(p.(event := p.event.(op := op)))
  {
    RoundTrip(p.(event := p.event.(op := op)), isDate);
  }

  /** Both snapshots are optional, `old` may be null, but a null `new` is rejected. */
  lemma SnapshotPresence(isDate: string -> bool)
    ensures DecodeData(Obj(map[]), isDate) == Some(Data(None, None))
    ensures DecodeData(Obj(map["old" := Null]), isDate) == Some(Data(None, None))
    ensures DecodeData(Obj(map["new" := Null]), isDate) == None
  {
    assert Field(Obj(map["new" := Null]), "new") == Null;
  }
}
