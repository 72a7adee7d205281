/**
  The request snapshot and the mutable response of one exchange.

  A `Request` is built once from the WSGI environ.  Its Python attributes
  are `method`, `url_path`, `content_type`, `query_string` (for GET, DELETE,
  POST, PUT and PATCH), `body` (for POST, PUT and PATCH) and the read-only
  `GET` property.  A `Response` is an object whose attributes steps assign:
  a header dict, status code, status message, message and body, plus any
  other attribute a Property step names.
 */
module Http {
  import opened Values
  import opened Strings
  import Query
  import Headers

  datatype Request = Request(
    httpMethod: string,
    urlPath: string,
    contentType: string,
    queryString: Option<string>,
    body: Option<string>,
    environ: Headers.Environ)

  predicate HasQueryString(httpMethod: string)
  {
    httpMethod in {"GET", "DELETE", "POST", "PUT", "PATCH"}
  }

  predicate HasBody(httpMethod: string)
  {
    httpMethod in {"POST", "PUT", "PATCH"}
  }

  /**
    `Request.__init__` without the stream read: `body` is what reading
    CONTENT_LENGTH bytes of `wsgi.input` produced.
   */
  function FromEnviron(environ: Headers.Environ, body: string): (r: Request)
    ensures r.httpMethod == Headers.Raw(environ, "REQUEST_METHOD", "")
    ensures r.queryString.Some? <==> HasQueryString(r.httpMethod)
    ensures r.queryString.Some? ==> r.queryString.value == Headers.Raw(environ, "QUERY_STRING", "")
    ensures r.body.Some? <==> HasBody(r.httpMethod)
    ensures r.urlPath == Headers.Raw(environ, "PATH_INFO", "")
    ensures r.contentType == Headers.Raw(environ, "CONTENT_TYPE", "")
    ensures r.environ == environ
  {
    var m := Headers.Raw(environ, "REQUEST_METHOD", "");
    var qs := Headers.Raw(environ, "QUERY_STRING", "");
    Request(
      m,
      Headers.Raw(environ, "PATH_INFO", ""),
      Headers.Raw(environ, "CONTENT_TYPE", ""),
      if HasQueryString(m) then Some(qs) else None,
      if HasBody(m) then Some(body) else None,
      environ)
  }

  /** The GET dictionary as a context value. */
  function GetDict(qs: string, unquote: Query.Unquote): Value
  {
    var d := Query.GetParams(qs, unquote);
    VDict(map k | k in d :: VStr(d[k]))
  }

  /**
    `getattr(request, name)` for the request's own attributes: None where
    Python raises AttributeError (including `GET` on a request that never
    read a query string).  `headers` is the RequestHeader view; as a dict
    its own storage is empty, since it translates keys into the environ only
    in `__getitem__`, so dict methods such as `get` see nothing.
   */
  function RequestAttr(req: Request, name: string, unquote: Query.Unquote): (r: Option<Value>)
    ensures name == "method" ==> r == Some(VStr(req.httpMethod))
    ensures name == "url_path" ==> r == Some(VStr(req.urlPath))
    ensures name == "GET" ==> (r.Some? <==> req.queryString.Some?)
    ensures name == "GET" && req.queryString.Some? ==> r == Some(GetDict(req.queryString.value, unquote))
    ensures name == "headers" ==> r == Some(VDict(map[]))
  {
    match name
    case "method" => Some(VStr(req.httpMethod))
    case "url_path" => Some(VStr(req.urlPath))
    case "content_type" => Some(VStr(req.contentType))
    case "query_string" => if req.queryString.Some? then Some(VStr(req.queryString.value)) else None
    case "body" => if req.body.Some? then Some(VStr(req.body.value)) else None
    case "GET" => if req.queryString.Some? then Some(GetDict(req.queryString.value, unquote)) else None
    case "headers" => Some(VDict(map[]))
    case _ => None
  }

  /** A snapshot of a response object's attributes. */
  datatype Resp = Resp(
    headers: Value,
    statusCode: Value,
    statusMessage: Value,
    message: Value,
    body: Value,
    extra: map<string, Value>)

  /** `Response()`: an empty header dict and every other attribute the empty string. */
  const EmptyResponse: Resp := Resp(VDict(map[]), VStr(""), VStr(""), VStr(""), VStr(""), map[])

  /** `getattr(response, name, None)` on the response's data attributes. */
  function RespAttr(r: Resp, name: string): Value
  {
    match name
    case "headers" => r.headers
    case "status_code" => r.statusCode
    case "status_message" => r.statusMessage
    case "message" => r.message
    case "body" => r.body
    case _ => GetOr(r.extra, name, VNone)
  }

  /** `setattr(response, name, v)` */
  function SetRespAttr(r: Resp, name: string, v: Value): Resp
  {
    match name
    case "headers" => r.(headers := v)
    case "status_code" => r.(statusCode := v)
    case "status_message" => r.(statusMessage := v)
    case "message" => r.(message := v)
    case "body" => r.(body := v)
    case _ => r.(extra := r.extra[name := v])
  }

  /** Reading back an attribute yields what was last written, and writing one attribute leaves the others alone. */
  lemma SetRespAttrReadBack(r: Resp, name: string, other: string, v: Value)
    requires other != name
    ensures RespAttr(SetRespAttr(r, name, v), name) == v
    ensures RespAttr(SetRespAttr(r, name, v), other) == RespAttr(r, other)
  {
  }

  /** `response.headers[name] = v`: only possible while `headers` is a dict. */
  function SetHeader(r: Resp, name: string, v: Value): (res: Result<Resp>)
    ensures res.Ok? <==> r.headers.VDict?
    ensures res.Ok? ==> res.value == r.(headers := VDict(r.headers.items[name := v]))
  {
    match r.headers
    case VDict(m) => Ok(r.(headers := VDict(m[name := v])))
    case _ => Err(NotADict("headers"))
  }

  /** The response object of one exchange. */
  class Response {
    var headers: Value
    var statusCode: Value
    var statusMessage: Value
    var message: Value
    var body: Value
    var extra: map<string, Value>

    function Snapshot(): Resp
      reads this
    {
      Resp(headers, statusCode, statusMessage, message, body, extra)
    }

    constructor()
      ensures Snapshot() == EmptyResponse
    {
      headers, statusCode, statusMessage := VDict(map[]), VStr(""), VStr("");
      message, body, extra := VStr(""), VStr(""), map[];
    }

    /** `setattr(self, name, v)` */
    method SetAttr(name: string, v: Value)
      modifies this
      ensures Snapshot() == SetRespAttr(old(Snapshot()), name, v)
    {
      match name
      case "headers" => headers := v;
      case "status_code" => statusCode := v;
      case "status_message" => statusMessage := v;
      case "message" => message := v;
      case "body" => body := v;
      case _ => extra := extra[name := v];
    }

    /**
      `set_headers`: copy every entry of `hs` into the header dict, keeping
      the entries `hs` does not mention.  When the header attribute is not
      a dict the first assignment raises; `ok` reports whether it did.
     */
    method SetHeaders(hs: map<string, Value>) returns (ok: bool)
      modifies this
      ensures ok <==> (hs == map[] || old(headers).VDict?)
      ensures ok && old(headers).VDict? ==> headers == VDict(old(headers).items + hs)
      ensures !ok || !old(headers).VDict? ==> headers == old(headers)
      ensures statusCode == old(statusCode) && statusMessage == old(statusMessage)
      ensures message == old(message) && body == old(body) && extra == old(extra)
    {
      var todo := hs.Keys;
      var done: map<string, Value> := map[];
      while todo != {}
        invariant todo !! done.Keys && todo + done.Keys == hs.Keys
        invariant forall k :: k in done ==> done[k] == hs[k]
        invariant done != map[] ==> old(headers).VDict? && headers == VDict(old(headers).items + done)
        invariant done == map[] ==> headers == old(headers)
        invariant statusCode == old(statusCode) && statusMessage == old(statusMessage)
        invariant message == old(message) && body == old(body) && extra == old(extra)
        decreases todo
      {
        var k :| k in todo;
        match headers {
          case VDict(m) =>
            headers := VDict(m[k := hs[k]]);
          case _ =>
            return false;
        }
        done := done[k := hs[k]];
        todo := todo - {k};
      }
      assert done == hs;
      return true;
    }
  }
}
