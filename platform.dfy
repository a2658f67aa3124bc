/**
 * The Lambda boundary shared by every handler: the parts of an API Gateway event
 * the handlers read, the structured result they return, the environment they
 * consult and the outgoing mail they hand to the SES wrapper.
 */
module Platform {
  import opened Wrappers
  import opened Json
  import opened JsArray

  /** `event.body`: absent or empty, text that `JSON.parse` rejects, or a parsed JSON value. */
  datatype Body = NoBody | Unparsable | Parsed(json: Value)

  /** `event.headers`, `event.pathParameters?.id`, `event.queryStringParameters` and `event.body`. */
  datatype Request = Request(
    headers: map<string, string>,
    pathId: Option<string>,
    query: map<string, string>,
    body: Body)

  /** The result body: the empty string, or `JSON.stringify` of a value. */
  datatype Payload = Empty | JsonBody(json: Value)

  /** The structured result; the CORS headers every handler adds are not modelled. */
  datatype Response = Response(statusCode: int, body: Payload)

  function Reply(code: int, fields: Record): (r: Response)
    ensures r.statusCode == code && r.body == JsonBody(Obj(fields))
  {
    Response(code, JsonBody(Obj(fields)))
  }

  /** `{ message }` with a status code. */
  function Message(code: int, text: string): (r: Response)
    ensures r.statusCode == code && r.body == JsonBody(Obj(map["message" := Str(text)]))
  {
    Reply(code, map["message" := Str(text)])
  }

  /** What every handler's outer `catch` returns. */
  function InternalError(): Response {
    Message(500, "Internal error")
  }

  /** `{ items, count: items.length }`, the body of both admin listings. */
  function Listing(items: seq<Record>): (r: Response)
    ensures r == Reply(200, map["items" := Arr(Objects(items)), "count" := Num(|items| as real)])
  {
    Reply(200, map["items" := Arr(Objects(items)), "count" := Num(|items| as real)])
  }

  /** `Math.min(Number(event.queryStringParameters?.size ?? byDefault), cap)`; `parse` is `Number` on a string. */
  function RequestedSize(query: map<string, string>, byDefault: real, cap: real, parse: string -> JsNumber): (n: JsNumber)
    ensures n.Finite? ==> n.x <= cap
    ensures "size" !in query ==> n == Finite(if byDefault < cap then byDefault else cap)
    ensures "size" in query ==> n == Min(parse(query["size"]), cap)
  {
    Min(if "size" in query then parse(query["size"]) else Finite(byDefault), cap)
  }

  /** `process.env.ADMIN_TOKEN || ''` and `process.env.ADMIN_MAIL || ''`: unset reads as empty. */
  datatype Config = Config(adminToken: string, adminMail: string)

  /** The argument of one `sendEmail` call; `to`, `subject` and `text` are whatever value the caller passed. */
  datatype Email = Email(to: Value, subject: Value, text: Value, source: Option<string>)

  /** What an awaited `sendEmail` gave: a result carrying an optional `MessageId`, or a rejection. */
  datatype MailOutcome = Delivered(messageId: Option<string>) | Failed

  /** What a handler does: its response, the store contents after it, and the mail it hands over, in order. */
  datatype Effect = Effect(response: Response, spots: seq<Record>, mails: seq<Email>)

  /**
   * The log of `sendEmail` calls. The handlers never wait for the outcome of
   * notification mail, so entries here cannot influence any response.
   */
  class Outbox {
    var sent: seq<Email>

    constructor ()
      ensures sent == []
    {
      sent := [];
    }

    method Send(e: Email)
      modifies this
      ensures sent == old(sent) + [e]
    {
      sent := sent + [e];
    }
  }
}
