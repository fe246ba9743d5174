/**
 * `ResponseInterceptor` (`src/common/interceptors/response.interceptor.ts`):
 * every value a controller returns is wrapped in the standard body
 * `{success, message, data, error, provider?}`, and the exchange is logged
 * under the service and endpoint read off the request URL. The log store,
 * the clock and the logger are not modelled; the model returns the body and
 * the fields of the log record it derives.
 */
module ResponseInterceptor {
  import opened Common
  import opened Text
  import opened Json

  /** The standard response body; `provider` is present only when the handler's value had one. */
  datatype Wrapped = Wrapped(success: bool, message: Value, data: Value, error: Value, provider: Option<Value>)

  /** The fields of the transaction log record that depend on the request and the body. */
  datatype LogEntry = LogEntry(callerId: Value, service: string, endpoint: string, status: string)

  /** A status code in `[200, 300)` is a success. */
  predicate IsSuccessStatus(statusCode: int)
  {
    200 <= statusCode < 300
  }

  /** `map(data => responseBody)` */
  function WrapBody(statusCode: int, data: Value): (w: Wrapped)
    ensures w.success <==> IsSuccessStatus(statusCode)
    ensures Truthy(w.message)
    ensures Truthy(Get(data, "message")) ==> w.message == Get(data, "message")
    ensures !Truthy(Get(data, "message")) && IsSuccessStatus(statusCode) ==> w.message == Str("Operation successful")
    ensures !Truthy(Get(data, "message")) && !IsSuccessStatus(statusCode) ==> w.message == Str("Operation failed")
    ensures Truthy(Get(data, "data")) ==> w.data == Get(data, "data")
    ensures !Truthy(Get(data, "data")) && Truthy(data) ==> w.data == data
    ensures !Truthy(Get(data, "data")) && !Truthy(data) ==> w.data == Null
    ensures w.data == Null || Truthy(w.data)
    ensures w.error == Null || Truthy(w.error)
    ensures Truthy(Get(data, "error")) ==> w.error == Get(data, "error")
    ensures !Truthy(Get(data, "error")) ==> w.error == Null
    ensures w.provider.Some? <==> Truthy(Get(data, "provider"))
    ensures w.provider.Some? ==> w.provider.value == Get(data, "provider")
  {
    var success := IsSuccessStatus(statusCode);
    Wrapped(
      success,
      Or(Get(data, "message"), Str(if success then "Operation successful" else "Operation failed")),
      Or(Or(Get(data, "data"), data), Null),
      Or(Get(data, "error"), Null),
      if Truthy(Get(data, "provider")) then Some(Get(data, "provider")) else None)
  }

  /** The JSON object the client receives. */
  function BodyValue(w: Wrapped): (v: Value)
    ensures v.Obj? && "provider" in v.fields <==> w.provider.Some?
  {
    var base := map["success" := Bool(w.success), "message" := w.message, "data" := w.data, "error" := w.error];
    match w.provider
    case None => Obj(base)
    case Some(p) => Obj(base["provider" := p])
  }

  /**
   * Wrapping an already wrapped body again changes nothing, provided the
   * first wrapping found some data: the message, the data, the error and the
   * provider are all carried over unchanged.
   */
  lemma WrapIdempotent(statusCode: int, data: Value)
    requires Truthy(WrapBody(statusCode, data).data)
    ensures WrapBody(statusCode, BodyValue(WrapBody(statusCode, data))) == WrapBody(statusCode, data)
  {
  }

  /**
   * When the handler returns nothing, the first wrapping reports `data: null`
   * and a second wrapping nests the whole first body as its data.
   */
  lemma WrapNothingTwice(statusCode: int)
    ensures WrapBody(statusCode, Null).data == Null
    ensures WrapBody(statusCode, BodyValue(WrapBody(statusCode, Null))).data == BodyValue(WrapBody(statusCode, Null))
  {
  }

  /** `url.split('/').filter(Boolean)` */
  function Segments(url: string): (parts: seq<string>)
    ensures forall k | 0 <= k < |parts| :: parts[k] != "" && '/' !in parts[k]
  {
    NonEmpty(Split(url, '/'))
  }

  function NonEmpty(pieces: seq<string>): (r: seq<string>)
    requires forall k | 0 <= k < |pieces| :: '/' !in pieces[k]
    ensures forall k | 0 <= k < |r| :: r[k] != "" && '/' !in r[k]
    ensures |r| <= |pieces|
  {
    if |pieces| == 0 then []
    else if pieces[0] == "" then NonEmpty(pieces[1..])
    else [pieces[0]] + NonEmpty(pieces[1..])
  }

  /** `extractServiceFromUrl`: the first path segment, or `'unknown'`. */
  function ServiceOf(url: string): (s: string)
    ensures |Segments(url)| > 0 ==> s == Segments(url)[0]
    ensures |Segments(url)| == 0 ==> s == "unknown"
    ensures s == "unknown" || (s != "" && '/' !in s)
  {
    var parts := Segments(url);
    if |parts| > 0 then parts[0] else "unknown"
  }

  /** `extractEndpointFromUrl`: the segments after the first joined by `'/'`, or `'unknown'`. */
  function EndpointOf(url: string): (e: string)
    ensures e != ""
    ensures |Segments(url)| < 2 ==> e == "unknown"
    ensures |Segments(url)| >= 2 ==> e == Join(Segments(url)[1..], "/")
  {
    var parts := Segments(url);
    var rest := if |parts| > 0 then Join(parts[1..], "/") else "";
    assert |parts| >= 2 ==> rest != "" by {
      if |parts| >= 2 {
        JoinNonEmpty(parts[1..], "/");
      }
    }
    if rest == "" then "unknown" else rest
  }

  /** A join of at least one non-empty part is non-empty. */
  lemma {:induction false} JoinNonEmpty(parts: seq<string>, sep: string)
    requires |parts| > 0 && parts[0] != ""
    ensures Join(parts, sep) != ""
  {
    if |parts| > 1 {
      assert |Join(parts, sep)| >= |parts[0]|;
    }
  }

  /**
   * Service and endpoint split the path: with two segments or more the
   * service, a slash and the endpoint spell out the segments joined by
   * slashes; with fewer the endpoint is `'unknown'`.
   */
  lemma ServiceEndpointSplit(url: string)
    ensures |Segments(url)| >= 2 ==> ServiceOf(url) + "/" + EndpointOf(url) == Join(Segments(url), "/")
    ensures |Segments(url)| < 2 ==> EndpointOf(url) == "unknown"
  {
    var parts := Segments(url);
    if |parts| >= 2 {
      JoinNonEmpty(parts[1..], "/");
    }
  }

  /** A URL that carries no `'/'` at all is one segment (or none, when empty). */
  lemma SlashFreeUrl(url: string)
    requires url != "" && '/' !in url
    ensures ServiceOf(url) == url && EndpointOf(url) == "unknown"
  {
    assert Split(url, '/') == [url] by {
      SplitWithoutSeparator(url, '/');
    }
  }

  /**
   * The whole `intercept` pipeline for one successful handler result: the
   * body the client sees and the log record, whose status is `'success'`
   * exactly when the body's is.
   */
  function Intercept(url: string, statusCode: int, userId: Value, callerHeader: Value, data: Value): (r: (Wrapped, LogEntry))
    ensures r.0 == WrapBody(statusCode, data)
    ensures r.1.status == "success" <==> IsSuccessStatus(statusCode)
    ensures r.1.status == "success" || r.1.status == "error"
    ensures Truthy(r.1.callerId)
    ensures r.1.service == ServiceOf(url) && r.1.endpoint == EndpointOf(url)
  {
    var body := WrapBody(statusCode, data);
    var caller := Or(Or(userId, callerHeader), Str("unknown"));
    (body, LogEntry(caller, ServiceOf(url), EndpointOf(url), if body.success then "success" else "error"))
  }
}
