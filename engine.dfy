/**
  The WSGI entry point `application`: route the request, run the
  in-sequence (stopping early on a break request), divert to the
  out-sequence on RunOutSequence or to the fault-sequence on any other
  exception, and finally build the reply from the response object.

  The `finally` block ends in `return`, so an exception escaping the out-
  or fault-sequence is discarded: the reply depends only on the response
  the context holds at that point.  The configured request processors are
  taken to be none, as in the shipped settings.
 */
module Engine {
  import opened Values
  import opened Steps
  import opened Http
  import opened Routing
  import opened Contexts
  import opened Semantics
  import opened Mediators
  import Headers

  /** The deployment: registered APIs, APPEND_SLASH, the regex matcher, the step environment and the call-stack room. */
  datatype Config = Config(
    apis: seq<Api>,
    appendSlash: bool,
    matches: Matcher,
    env: Env,
    depth: nat,
    showDict: map<string, Value> -> string)

  /** What `application` answers. */
  datatype Reply =
    | NoRoute                 // "404 Not Found"
    | Preflight               // the answer to OPTIONS
    | WrongMethod             // "405 Method Not Supported"
    | Emitted(status: string, headers: map<string, string>, message: string)
    | Raised(error: Error)    // `application` itself raises

  /** Which phase ran last. */
  datatype Terminal = InCompleted | OutRan(outcome: Outcome) | FaultRan(outcome: Outcome)

  datatype Phases = Phases(terminal: Terminal, state: State)

  // ---------------------------------------------------------------------
  // Specification.
  // ---------------------------------------------------------------------

  /**
    `sequence_for_uri(request, t)` on the request as the steps left it: the
    path must still be a string; a method that is not a string matches no
    resource.
   */
  function Lookup(cfg: Config, req: Request, st: State, t: SequenceType): Result<seq<Step>>
  {
    match RequestValue(req, st, "url_path", cfg.env.unquote)
    case Some(VStr(path)) =>
      (match RequestValue(req, st, "method", cfg.env.unquote)
       case Some(VStr(m)) => SequenceFor(cfg.apis, cfg.appendSlash, cfg.matches, m, path, t)
       case _ => Err(NoSequenceForUri))
    case _ => Err(NotAString("url_path"))
  }

  /** `hasattr(context, 'break_sequence') and context.break_sequence` */
  predicate BreakRequested(st: State)
  {
    "break_sequence" in st.attrs && Truthy(st.attrs["break_sequence"])
  }

  /** The in-sequence loop: before each step, stop if a break was requested. */
  function RunIn(env: Env, req: Request, ss: seq<Step>, st: State, depth: nat): Run
  {
    if ss == [] then Run(Continue, st)
    else
      var r := RunIn(env, req, ss[..|ss| - 1], st, depth);
      if !r.outcome.Continue? || BreakRequested(r.state) then r
      else Exec(env, req, ss[|ss| - 1], r.state, depth)
  }

  function OutPhase(cfg: Config, req: Request, st: State): Phases
  {
    match Lookup(cfg, req, st, Out)
    case Err(e) => Phases(OutRan(Fail(e)), st)
    case Ok(ss) =>
      var r := ExecSeq(cfg.env, req, ss, st, cfg.depth);
      Phases(OutRan(r.outcome), r.state)
  }

  function FaultPhase(cfg: Config, req: Request, st: State): Phases
  {
    match Lookup(cfg, req, st, FaultType)
    case Err(e) => Phases(FaultRan(Fail(e)), st)
    case Ok(ss) =>
      var r := ExecSeq(cfg.env, req, ss, st, cfg.depth);
      Phases(FaultRan(r.outcome), r.state)
  }

  /** The try/except part of `application`. */
  function RunPhases(cfg: Config, req: Request, st: State): Phases
  {
    match Lookup(cfg, req, st, In)
    case Err(_) => FaultPhase(cfg, req, st)
    case Ok(ss) =>
      var r := RunIn(cfg.env, req, ss, st, cfg.depth);
      match r.outcome
      case Continue => Phases(InCompleted, r.state)
      case RunOut => OutPhase(cfg, req, r.state)
      case Fail(_) => FaultPhase(cfg, req, r.state)
  }

  /** `str(v)` */
  function Str(v: Value, showDict: map<string, Value> -> string): string
  {
    match v
    case VStr(s) => s
    case VBool(b) => if b then "True" else "False"
    case VNone => "None"
    case VDict(m) => showDict(m)
    case VObject(t) => t
  }

  /** The header list `finally` builds: every header with its value stringified. */
  function HeaderList(m: map<string, Value>, showDict: map<string, Value> -> string): map<string, string>
  {
    map k | k in m :: Str(m[k], showDict)
  }

  /** The `finally` block: the reply is built from the response alone. */
  function Finalize(cfg: Config, r: Resp): Reply
  {
    if !Truthy(r.statusCode) then Raised(NoStatusCode)
    else
      match r.headers
      case VDict(m) =>
        Emitted(Str(r.statusCode, cfg.showDict) + " " + Str(r.statusMessage, cfg.showDict),
                HeaderList(m, cfg.showDict), Str(r.message, cfg.showDict))
      case _ => Raised(HeadersNotADict)
  }

  /** `application(environ, start_response)` */
  function Respond(cfg: Config, environ: Headers.Environ, body: string): Reply
  {
    RespondTo(cfg, FromEnviron(environ, body))
  }

  /** `application` once the request object is built. */
  function RespondTo(cfg: Config, req: Request): Reply
  {
    if MatchUrl(cfg.apis, req.urlPath, cfg.appendSlash, cfg.matches).Err? then NoRoute
    else if req.httpMethod == "OPTIONS" then Preflight
    else
      match MatchMethod(cfg.apis, req.httpMethod, req.urlPath, cfg.appendSlash, cfg.matches)
      case Err(e) => if e == MethodNotAllowed then WrongMethod else Raised(e)
      case Ok(api) => Handle(cfg, req, api)
  }

  /** The context the sequences start from: a fresh one holding the routed API as `_api_object`. */
  function Start(api: Api): State
  {
    WithAttr(Initial, "_api_object", VObject(Describe(api)))
  }

  /** What `application` answers once the request is routed to `api`, which supports its method. */
  function Handle(cfg: Config, req: Request, api: Api): Reply
  {
    Finalize(cfg, RunPhases(cfg, req, Start(api)).state.response)
  }

  // ---------------------------------------------------------------------
  // Implementation.
  // ---------------------------------------------------------------------

  /** Once the loop has stopped (an exception or a break request), later steps change nothing. */
  lemma {:induction false} RunInSettled(env: Env, req: Request, ss: seq<Step>, k: nat, st: State, depth: nat)
    requires k <= |ss|
    requires var r := RunIn(env, req, ss[..k], st, depth); !r.outcome.Continue? || BreakRequested(r.state)
    ensures RunIn(env, req, ss, st, depth) == RunIn(env, req, ss[..k], st, depth)
    decreases |ss| - k
  {
    if k < |ss| {
      var init := ss[..|ss| - 1];
      assert init[..k] == ss[..k];
      RunInSettled(env, req, init, k, st, depth);
    } else {
      assert ss[..k] == ss;
    }
  }

  /** The in-sequence loop of `application`. */
  method RunInSequence(env: Env, ss: seq<Step>, ctx: Context, depth: nat) returns (o: Outcome)
    modifies ctx, ctx.response
    ensures Run(o, ctx.Snapshot()) == RunIn(env, ctx.request, ss, old(ctx.Snapshot()), depth)
  {
    ghost var st0 := ctx.Snapshot();
    o := Continue;
    for i := 0 to |ss|
      invariant o == Continue
      invariant Run(Continue, ctx.Snapshot()) == RunIn(env, ctx.request, ss[..i], st0, depth)
    {
      assert ss[..i + 1][..i] == ss[..i];
      if "break_sequence" in ctx.attrs && Truthy(ctx.attrs["break_sequence"]) {
        RunInSettled(env, ctx.request, ss, i, st0, depth);
        return;
      }
      o := Mediate(env, ss[i], ctx, depth);
      if !o.Continue? {
        RunInSettled(env, ctx.request, ss, i + 1, st0, depth);
        return;
      }
    }
    assert ss[..|ss|] == ss;
  }

  /** `APIS.sequence_for_uri(context.request, t)` */
  method SequenceLookup(cfg: Config, ctx: Context, t: SequenceType) returns (r: Result<seq<Step>>)
    ensures r == Lookup(cfg, ctx.request, ctx.Snapshot(), t)
  {
    var path := RequestValue(ctx.request, ctx.Snapshot(), "url_path", cfg.env.unquote);
    if !(path.Some? && path.value.VStr?) {
      return Err(NotAString("url_path"));
    }
    var m := RequestValue(ctx.request, ctx.Snapshot(), "method", cfg.env.unquote);
    if !(m.Some? && m.value.VStr?) {
      return Err(NoSequenceForUri);
    }
    r := SequenceForUri(cfg.apis, cfg.appendSlash, cfg.matches, m.value.s, path.value.s, t);
  }

  /** The `except RunOutSequence` handler. */
  method RunOutPhase(cfg: Config, ctx: Context) returns (t: Terminal)
    modifies ctx, ctx.response
    ensures Phases(t, ctx.Snapshot()) == OutPhase(cfg, ctx.request, old(ctx.Snapshot()))
  {
    var ss := SequenceLookup(cfg, ctx, Out);
    if ss.Err? {
      return OutRan(Fail(ss.error));
    }
    var o := RunInternalSequences(cfg.env, ss.value, ctx, cfg.depth);
    t := OutRan(o);
  }

  /** The `except Exception` handler. */
  method RunFaultPhase(cfg: Config, ctx: Context) returns (t: Terminal)
    modifies ctx, ctx.response
    ensures Phases(t, ctx.Snapshot()) == FaultPhase(cfg, ctx.request, old(ctx.Snapshot()))
  {
    var ss := SequenceLookup(cfg, ctx, FaultType);
    if ss.Err? {
      return FaultRan(Fail(ss.error));
    }
    var o := RunInternalSequences(cfg.env, ss.value, ctx, cfg.depth);
    t := FaultRan(o);
  }

  /** The `try` block with its two handlers. */
  method RunAllPhases(cfg: Config, ctx: Context) returns (t: Terminal)
    modifies ctx, ctx.response
    ensures Phases(t, ctx.Snapshot()) == RunPhases(cfg, ctx.request, old(ctx.Snapshot()))
  {
    var ss := SequenceLookup(cfg, ctx, In);
    if ss.Err? {
      t := RunFaultPhase(cfg, ctx);
      return;
    }
    var o := RunInSequence(cfg.env, ss.value, ctx, cfg.depth);
    match o
    case Continue => t := InCompleted;
    case RunOut => t := RunOutPhase(cfg, ctx);
    case Fail(_) => t := RunFaultPhase(cfg, ctx);
  }

  /** The header loop of the `finally` block. */
  method CollectHeaders(m: map<string, Value>, showDict: map<string, Value> -> string)
    returns (headers: map<string, string>)
    ensures headers.Keys == m.Keys
    ensures forall k :: k in m ==> headers[k] == Str(m[k], showDict)
  {
    headers := map[];
    var todo := m.Keys;
    while todo != {}
      invariant todo <= m.Keys
      invariant headers.Keys == m.Keys - todo
      invariant forall k :: k in headers ==> headers[k] == Str(m[k], showDict)
      decreases todo
    {
      var k :| k in todo;
      headers := headers[k := Str(m[k], showDict)];
      todo := todo - {k};
    }
  }

  /** `application(environ, start_response)` */
  method Application(cfg: Config, environ: Headers.Environ, body: string) returns (reply: Reply)
    ensures reply == Respond(cfg, environ, body)
  {
    var request := FromEnviron(environ, body);
    reply := Dispatch(cfg, request);
  }

  /** Route the request, then handle it or answer 404, OPTIONS or 405. */
  method Dispatch(cfg: Config, request: Request) returns (reply: Reply)
    ensures reply == RespondTo(cfg, request)
  {
    var api := GetUrlApi(cfg.apis, request.urlPath, cfg.appendSlash, cfg.matches);
    assert MatchUrl(cfg.apis, request.urlPath, cfg.appendSlash, cfg.matches).Err? <==> api.None?;
    if api.None? {
      return NoRoute;
    }
    if request.httpMethod == "OPTIONS" {
      return Preflight;
    }
    api := GetUrlApi(cfg.apis, request.urlPath, cfg.appendSlash, cfg.matches);
    assert MatchMethod(cfg.apis, request.httpMethod, request.urlPath, cfg.appendSlash, cfg.matches)
      == if request.httpMethod in api.value.supportedMethods then Ok(api.value) else Err(MethodNotAllowed);
    if request.httpMethod !in api.value.supportedMethods {
      return WrongMethod;
    }
    reply := HandleRequest(cfg, request, api.value);
  }

  /** The `try`/`finally` part of `application`, around a fresh context holding the routed API. */
  method HandleRequest(cfg: Config, request: Request, api: Api) returns (reply: Reply)
    ensures reply == Handle(cfg, request, api)
  {
    var response := new Response();
    var ctx := new Context(request, response);
    assert ctx.Snapshot() == Initial;
    ctx.SetAttr("_api_object", VObject(Describe(api)));
    var _ := RunAllPhases(cfg, ctx);
    reply := FinalReply(cfg, ctx.response);
  }

  /** The `finally` block: check the status code, then collect the status line, headers and message. */
  method FinalReply(cfg: Config, response: Response) returns (reply: Reply)
    ensures reply == Finalize(cfg, response.Snapshot())
  {
    if !Truthy(response.statusCode) {
      return Raised(NoStatusCode);
    }
    match response.headers {
      case VDict(m) =>
        var headers := CollectHeaders(m, cfg.showDict);
        var status := Str(response.statusCode, cfg.showDict) + " " + Str(response.statusMessage, cfg.showDict);
        reply := Emitted(status, headers, Str(response.message, cfg.showDict));
      case _ =>
        reply := Raised(HeadersNotADict);
    }
  }
}
