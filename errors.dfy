/**
 * The values the services throw and the parts of NestJS's `HttpException`
 * they rely on: how the body of a `BadRequestException` is built from its
 * argument and how an exception's `message` is derived from its response.
 */
module Errors {
  import opened Common
  import opened Text
  import opened Json

  /**
   * A thrown value, as the handlers inspect it.
   *  - `HttpError`: a NestJS `HttpException`, with its status, the response
   *    given to its constructor and the `message` Nest derives from it.
   *  - `PlainError`: any other `Error`, such as the one axios rejects with,
   *    whose `response` property holds the HTTP response when there was one.
   *  - `NonError`: a thrown value that is not an `Error` at all.
   */
  datatype Thrown =
    | HttpError(status: int, response: Value, message: string)
    | PlainError(message: string, response: Value)
    | NonError(value: Value)

  /** `error?.response` */
  function ResponseOf(e: Thrown): Value
  {
    match e
    case HttpError(_, response, _) => response
    case PlainError(_, response) => response
    case NonError(v) => Get(v, "response")
  }

  /** `error?.message` */
  function MessageOf(e: Thrown): (r: Value)
    ensures !e.NonError? ==> r == Str(e.message)
  {
    match e
    case HttpError(_, _, message) => Str(message)
    case PlainError(message, _) => Str(message)
    case NonError(v) => Get(v, "message")
  }

  /**
   * The `message` Nest gives an exception: the response itself when it is a
   * string, else the response's string `message`, else the spaced-out class
   * name `fallback`.
   */
  function NestMessage(response: Value, fallback: string): (r: string)
    ensures response.Str? ==> r == response.s
    ensures Get(response, "message").Str? && !response.Str? ==> r == Get(response, "message").s
    ensures !response.Str? && !Get(response, "message").Str? ==> r == fallback
  {
    if response.Str? then response.s
    else if Get(response, "message").Str? then Get(response, "message").s
    else fallback
  }

  /**
   * The body Nest builds for a built-in exception from its argument: a
   * falsy argument gives `{message: description, statusCode}`, a string or
   * an array `{message: arg, error: description, statusCode}`, and any
   * other value is the body itself.
   */
  function CreateBody(arg: Value, description: string, status: int): (r: Value)
    ensures !Truthy(arg) ==> Get(r, "message") == Str(description) && Get(r, "statusCode") == Num(status)
    ensures Truthy(arg) && (arg.Str? || arg.Arr?) ==>
              Get(r, "message") == arg && Get(r, "error") == Str(description) && Get(r, "statusCode") == Num(status)
    ensures Truthy(arg) && !arg.Str? && !arg.Arr? ==> r == arg
  {
    if !Truthy(arg) then Obj(map["message" := Str(description), "statusCode" := Num(status)])
    else if arg.Str? || arg.Arr? then Obj(map["message" := arg, "error" := Str(description), "statusCode" := Num(status)])
    else arg
  }

  /** `new BadRequestException(arg)` */
  function BadRequest(arg: Value): (r: Thrown)
    ensures r.HttpError? && r.status == 400
  {
    var body := CreateBody(arg, "Bad Request", 400);
    HttpError(400, body, NestMessage(body, "Bad Request Exception"))
  }

  /** A `BadRequestException` with a non-empty text message carries it as its message. */
  lemma BadRequestText(msg: string)
    requires msg != ""
    ensures BadRequest(Str(msg)).message == msg
    ensures Get(BadRequest(Str(msg)).response, "message") == Str(msg)
    ensures Get(BadRequest(Str(msg)).response, "error") == Str("Bad Request")
  {
  }

  /** `new HttpException(response, status)` */
  function NewHttpException(response: Value, status: int): (r: Thrown)
    ensures r.HttpError? && r.status == status && r.response == response
    ensures response.Str? ==> r.message == response.s
  {
    HttpError(status, response, NestMessage(response, "Http Exception"))
  }

  /** The texts of an array, as `Str` values. */
  function Texts(ss: seq<string>): (r: seq<Value>)
    ensures |r| == |ss| && forall k | 0 <= k < |ss| :: r[k] == Str(ss[k])
  {
    seq(|ss|, k requires 0 <= k < |ss| => Str(ss[k]))
  }

  /** Joining an array of texts is joining the texts. */
  lemma {:induction false} JoinTexts(ss: seq<string>, sep: string)
    ensures JoinValues(Texts(ss), sep) == Join(ss, sep)
  {
    if |ss| > 1 {
      JoinTexts(ss[1..], sep);
      assert Texts(ss)[1..] == Texts(ss[1..]);
    }
  }
}
