/**
 * The GraphQL webhook (src/controllers/graphql_webhook.ts): the database
 * calls it on every change of the node table. The request needs an
 * `x-webhook-token` header and a body that decodes as a `WebhookPayload`;
 * the handler then compares the token with the configured one and publishes
 * the payload on the events channel, where the dispatcher reads it. The
 * channel's publish reply (an error, or the number of subscribers reached)
 * is an input.
 */
module GraphqlWebhook {
  import opened Wrappers
  import opened Json
  import opened Responses
  import opened Payload
  import Dispatcher

  const TOKEN_HEADER: string := "x-webhook-token"

  /** What the channel answers to a publish: an error, or how many subscribers got the message. */
  datatype PublishReply = PublishError(err: string) | Delivered(receivers: nat)

  /** The answer to a webhook request: a validation error from the middlewares, or the handler's response. */
  datatype Reply = ValidationError | Handled(response: Response<string>)

  /** The events channel; a message reaches only the subscribers listening when it is published. */
  class Channel {
    var published: seq<Value>

    constructor()
      ensures published == []
    {
      published := [];
    }

    /** `redisClient.publish(channel, message, callback)`; a failed publish sends nothing. */
    method Publish(message: Value, reply: PublishReply)
      modifies this
      ensures published == if reply.PublishError? then old(published) else old(published) + [message]
    {
      if reply.Delivered? {
        published := published + [message];
      }
    }
  }

  /** The handler's response for a token and a publish reply. */
  function HandlerResponse(webhookToken: string, receivedToken: string, reply: PublishReply): (r: Response<string>)
    ensures r == Forbidden <==> receivedToken != webhookToken
    ensures r.Internal? <==> receivedToken == webhookToken && reply.PublishError?
    ensures r.Success? ==> reply.Delivered? && r.body == Text.NatToString(reply.receivers)
    ensures !r.NotFound?
  {
    if receivedToken != webhookToken then Forbidden
    else match reply
      case PublishError(err) => Internal("Error publishing event: " + err)
      case Delivered(n) => Success(Text.NatToString(n))
  }

  /** `GraphqlWebhookHandler` for one decoded payload. */
  method Handle(ch: Channel, webhookToken: string, receivedToken: string, payload: WebhookPayload,
                reply: PublishReply) returns (r: Response<string>)
    modifies ch
    ensures r == HandlerResponse(webhookToken, receivedToken, reply)
    ensures receivedToken != webhookToken || reply.PublishError? ==> ch.published == old(ch.published)
    ensures receivedToken == webhookToken && reply.Delivered? ==>
      ch.published == old(ch.published) + [EncodePayload(payload)]
  {
    if receivedToken != webhookToken {
      return Forbidden;
    }
    ch.Publish(EncodePayload(payload), reply);
    match reply
    case PublishError(err) => r := Internal("Error publishing event: " + err);
    case Delivered(n) => r := Success(Text.NatToString(n));
  }

  /**
   * The request as the middlewares see it: the token header must be a
   * string and the body must decode; only then does the handler run.
   */
  method Request(ch: Channel, webhookToken: string, headers: map<string, Value>, body: Value,
                 isDate: string -> bool, reply: PublishReply) returns (r: Reply)
    modifies ch
    ensures r == ValidationError <==>
      TOKEN_HEADER !in headers || !headers[TOKEN_HEADER].Str? || DecodePayload(body, isDate).None?
    ensures r == ValidationError ==> ch.published == old(ch.published)
    ensures r.Handled? ==>
      && r.response == HandlerResponse(webhookToken, headers[TOKEN_HEADER].s, reply)
      && ch.published == if r.response.Success?
           then old(ch.published) + [EncodePayload(DecodePayload(body, isDate).value)]
           else old(ch.published)
  {
    if TOKEN_HEADER !in headers || !headers[TOKEN_HEADER].Str? {
      return ValidationError;
    }
    var payload := DecodePayload(body, isDate);
    if payload.None? {
      return ValidationError;
    }
    var response := Handle(ch, webhookToken, headers[TOKEN_HEADER].s, payload.value, reply);
    return Handled(response);
  }

  // ---- properties -------------------------------------------------------

  /** A wrong token is refused whatever the channel would have answered. */
  lemma WrongTokenForbidden(webhookToken: string, receivedToken: string, r1: PublishReply, r2: PublishReply)
    requires receivedToken != webhookToken
    ensures HandlerResponse(webhookToken, receivedToken, r1) == HandlerResponse(webhookToken, receivedToken, r2) == Forbidden
  {
  }

  /**
   * What the webhook publishes is what the dispatcher handles: a published
   * payload decodes back to itself on the other side, so the dispatcher
   * never drops it and applies its rules to the very payload accepted here.
   */
  lemma PublishedPayloadDispatches(p: WebhookPayload, env: Dispatcher.Env)
    requires ValidPayload(p, env.isDate)
    ensures DecodePayload(EncodePayload(p), env.isDate) == Some(p)
    ensures Dispatcher.Dispatch(EncodePayload(p), env) == Dispatcher.DispatchPayload(p, EncodePayload(p), env)
    ensures Dispatcher.Dispatch(EncodePayload(p), env).1 != Dispatcher.Dropped
  {
    RoundTrip(p, env.isDate);
  }

  /**
   * A request accepted by the middlewares and the token check publishes a
   * message that the dispatcher decodes to the same payload.
   */
  lemma AcceptedRequestDispatches(body: Value, env: Dispatcher.Env)
    requires DecodePayload(body, env.isDate).Some?
    ensures var p := DecodePayload(body, env.isDate).value;
      DecodePayload(EncodePayload(p), env.isDate) == Some(p)
  {
    RoundTrip(DecodePayload(body, env.isDate).value, env.isDate);
  }
}
