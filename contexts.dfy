/**
  The per-request `Context`: one object shared by every step of an
  exchange.  Besides its `request` and `response` it carries whatever
  attributes the steps set on it (`is_default`, `switch_condition`,
  `break_sequence`, payload dicts, ...), kept here as a map.

  Steps may also set attributes on the request object; those writes are
  kept in an overlay over the request's own attributes.  `idsDrawn` counts
  the random identifiers handed out so far, so that the supplied identifier
  source can be indexed by it.
 */
module Contexts {
  import opened Values
  import opened Http
  import Query

  /** A snapshot of everything a step can read or change. */
  datatype State = State(
    attrs: map<string, Value>,
    requestAttrs: map<string, Value>,
    response: Resp,
    idsDrawn: nat)

  /** The state of a fresh context around a fresh `Response()`. */
  const Initial: State := State(map[], map[], EmptyResponse, 0)

  /**
    `getattr(request, name)`: a value set by a step, else the request's own
    attribute.  `GET` is a read-only property computed on each read from
    whatever `query_string` holds then, so a step that sets `query_string`
    changes what `GET` yields; a `query_string` that is not a string has no
    `replace`, and the read fails as a missing attribute.
   */
  function RequestValue(req: Request, st: State, name: string, unquote: Query.Unquote): (r: Option<Value>)
    ensures name != "GET" && name in st.requestAttrs ==> r == Some(st.requestAttrs[name])
    ensures name != "GET" && name !in st.requestAttrs ==> r == RequestAttr(req, name, unquote)
    ensures name == "GET" && "query_string" !in st.requestAttrs ==> r == RequestAttr(req, "GET", unquote)
    ensures name == "GET" && "query_string" in st.requestAttrs ==>
      (r.Some? <==> st.requestAttrs["query_string"].VStr?)
      && (r.Some? ==> r.value == GetDict(st.requestAttrs["query_string"].s, unquote))
  {
    if name == "GET" && "query_string" in st.requestAttrs then
      match st.requestAttrs["query_string"]
      case VStr(q) => Some(GetDict(q, unquote))
      case _ => None
    else if name != "GET" && name in st.requestAttrs then Some(st.requestAttrs[name])
    else RequestAttr(req, name, unquote)
  }

  /** `GET` always parses the `query_string` a read of `query_string` would yield. */
  lemma GetFollowsQueryString(req: Request, st: State, unquote: Query.Unquote)
    ensures RequestValue(req, st, "GET", unquote).Some? <==>
      RequestValue(req, st, "query_string", unquote).Some? && RequestValue(req, st, "query_string", unquote).value.VStr?
    ensures RequestValue(req, st, "GET", unquote).Some? ==>
      RequestValue(req, st, "GET", unquote).value == GetDict(RequestValue(req, st, "query_string", unquote).value.s, unquote)
  {
  }

  /** `from_request`: the request attribute, or the empty string. */
  function FromRequest(req: Request, st: State, key: string, unquote: Query.Unquote): (r: Value)
    ensures RequestValue(req, st, key, unquote).Some? ==> r == RequestValue(req, st, key, unquote).value
    ensures RequestValue(req, st, key, unquote).None? ==> r == VStr("")
  {
    match RequestValue(req, st, key, unquote)
    case Some(v) => v
    case None => VStr("")
  }

  /** `from_context`: the context attribute, or the empty string. */
  function FromContext(st: State, key: string): (r: Value)
    ensures key in st.attrs ==> r == st.attrs[key]
    ensures key !in st.attrs ==> r == VStr("")
  {
    GetOr(st.attrs, key, VStr(""))
  }

  /** `setattr(context, name, v)` on a snapshot. */
  function WithAttr(st: State, name: string, v: Value): State
  {
    st.(attrs := st.attrs[name := v])
  }

  class Context {
    const request: Request
    const response: Response
    var attrs: map<string, Value>
    var requestAttrs: map<string, Value>
    var idsDrawn: nat

    function Snapshot(): State
      reads this, response
    {
      State(attrs, requestAttrs, response.Snapshot(), idsDrawn)
    }

    /** `Context(request, response)`: no attributes of its own yet. */
    constructor(request: Request, response: Response)
      ensures this.request == request && this.response == response
      ensures attrs == map[] && requestAttrs == map[] && idsDrawn == 0
    {
      this.request := request;
      this.response := response;
      attrs, requestAttrs, idsDrawn := map[], map[], 0;
    }

    /** `setattr(context, name, v)` */
    method SetAttr(name: string, v: Value)
      modifies this
      ensures Snapshot() == WithAttr(old(Snapshot()), name, v)
    {
      attrs := attrs[name := v];
    }

    /** `setattr(context.request, name, v)` for a writable attribute. */
    method SetRequestAttr(name: string, v: Value)
      modifies this
      ensures Snapshot() == old(Snapshot()).(requestAttrs := old(requestAttrs)[name := v])
    {
      requestAttrs := requestAttrs[name := v];
    }

    /** Hand out the next random identifier. */
    method DrawId(uuid: nat -> string) returns (id: string)
      modifies this
      ensures id == uuid(old(idsDrawn))
      ensures Snapshot() == old(Snapshot()).(idsDrawn := old(idsDrawn) + 1)
    {
      id := uuid(idsDrawn);
      idsDrawn := idsDrawn + 1;
    }
  }
}
