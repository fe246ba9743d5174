/**
 * `HttpExceptionFilter.catch` (`src/common/filters/http-exception.filter.ts`):
 * every exception that escapes a controller becomes a status code and a
 * body `{success: false, message, error}`. The model returns that pair
 * instead of writing it to the response.
 */
module ExceptionFilter {
  import opened Common
  import opened Text
  import opened Json
  import opened Errors

  /** The status and the JSON body the filter sends. */
  datatype FilterReply = FilterReply(status: int, success: bool, message: Value, error: Value)

  /**
   * What `catch` does: it replies, or it throws itself, which happens when
   * an `HttpException`'s response is `null` (`typeof null` is `'object'`,
   * and reading `null.message` throws).
   */
  datatype Handled = Replied(reply: FilterReply) | FilterThrew

  const InternalServerError := 500

  /** `typeof v === 'object'` */
  predicate IsObjectType(v: Value)
  {
    v.Null? || v.Arr? || v.Obj?
  }

  /** `Array.isArray(message) ? message.join(', ') : message` */
  function FinalMessage(message: Value): (r: Value)
    ensures message.Arr? ==> r == Str(JoinValues(message.items, ", "))
    ensures !message.Arr? ==> r == message
    ensures !r.Arr?
  {
    if message.Arr? then Str(JoinValues(message.items, ", ")) else message
  }

  /** `catch(exception)` */
  function Catch(e: Thrown): (r: Handled)
    ensures r.FilterThrew? <==> e.HttpError? && e.response.Null?
    ensures r.Replied? ==> !r.reply.success
    ensures r.Replied? && !e.HttpError? ==> r.reply.status == InternalServerError && r.reply.error == Null
    ensures r.Replied? && e.HttpError? ==> r.reply.status == e.status
  {
    match e
    case HttpError(status, response, message) =>
      if IsObjectType(response) then
        if response.Null? then FilterThrew
        else
          var m := Or(Get(response, "message"), Str(message));
          Replied(FilterReply(status, false, FinalMessage(m), Or(response, Null)))
      else
        Replied(FilterReply(status, false, FinalMessage(response), Null))
    case PlainError(message, _) =>
      Replied(FilterReply(InternalServerError, false, Str(message), Null))
    case NonError(_) =>
      Replied(FilterReply(InternalServerError, false, Str("Internal server error"), Null))
  }

  /** A thrown value that is not an `Error` gives 500, `'Internal server error'` and no error. */
  lemma NonErrorReply(v: Value)
    ensures Catch(NonError(v)) == Replied(FilterReply(500, false, Str("Internal server error"), Null))
  {
  }

  /** A plain `Error` gives 500 with its own message. */
  lemma PlainErrorReply(message: string, response: Value)
    ensures Catch(PlainError(message, response)) == Replied(FilterReply(500, false, Str(message), Null))
  {
  }

  /**
   * An `HttpException` with an object response keeps its status, reports
   * the response's `message` (the exception's own message when that is
   * falsy) and sends the response object as `error`.
   */
  lemma ObjectResponseReply(status: int, fields: map<string, Value>, message: string)
    ensures var m := if "message" in fields && Truthy(fields["message"]) then fields["message"] else Str(message);
            Catch(HttpError(status, Obj(fields), message)) == Replied(FilterReply(status, false, FinalMessage(m), Obj(fields)))
  {
  }

  /** An `HttpException` with a text response reports that text and no error. */
  lemma TextResponseReply(status: int, text: string, message: string)
    ensures Catch(HttpError(status, Str(text), message)) == Replied(FilterReply(status, false, Str(text), Null))
  {
  }

  /**
   * A `BadRequestException` built from a non-empty text replies 400 with that
   * text, the error being Nest's body `{message, error: 'Bad Request', statusCode: 400}`.
   */
  lemma BadRequestTextReply(text: string)
    requires text != ""
    ensures Catch(BadRequest(Str(text))).Replied?
    ensures Catch(BadRequest(Str(text))).reply.status == 400
    ensures Catch(BadRequest(Str(text))).reply.message == Str(text)
    ensures Get(Catch(BadRequest(Str(text))).reply.error, "error") == Str("Bad Request")
  {
  }

  /**
   * A `BadRequestException` built from a list of texts (validation errors)
   * replies with the texts joined by `', '`.
   */
  lemma BadRequestListReply(texts: seq<string>)
    ensures Catch(BadRequest(Arr(Texts(texts)))).Replied?
    ensures Catch(BadRequest(Arr(Texts(texts)))).reply.message == Str(Join(texts, ", "))
  {
    JoinTexts(texts, ", ");
  }
}
