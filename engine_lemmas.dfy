/**
  Properties of `application`: how routing decides the early replies,
  which phase runs, that exceptions from the out- and fault-sequences are
  swallowed by the `finally` block, and whole exchanges end to end.
 */
module EngineLemmas {
  import opened Values
  import opened Strings
  import opened Steps
  import opened Http
  import opened Routing
  import opened Contexts
  import opened Semantics
  import opened Sequencing
  import opened Engine
  import StepLemmas

  /** The API `application` routes a request to. */
  function RoutedApi(cfg: Config, req: Request): Option<Api>
  {
    LastMatch(cfg.apis, RoutedPath(req.urlPath, cfg.appendSlash), cfg.matches)
  }

  /**
    Routing: 404 exactly when no API matches the path; the preflight answer
    exactly when one matches and the method is OPTIONS; 405 exactly when one
    matches and does not support the method; otherwise the sequences run.
   */
  lemma RouteReplies(cfg: Config, req: Request)
    ensures RespondTo(cfg, req) == NoRoute <==> RoutedApi(cfg, req).None?
    ensures RespondTo(cfg, req) == Preflight <==> RoutedApi(cfg, req).Some? && req.httpMethod == "OPTIONS"
    ensures RespondTo(cfg, req) == WrongMethod <==>
      RoutedApi(cfg, req).Some? && req.httpMethod != "OPTIONS"
      && req.httpMethod !in RoutedApi(cfg, req).value.supportedMethods
    ensures (RoutedApi(cfg, req).Some? && req.httpMethod != "OPTIONS"
             && req.httpMethod in RoutedApi(cfg, req).value.supportedMethods) ==>
      RespondTo(cfg, req) == Handle(cfg, req, RoutedApi(cfg, req).value)
  {
    if RoutedApi(cfg, req).Some? {
      var h := Handle(cfg, req, RoutedApi(cfg, req).value);
      assert h.Emitted? || h.Raised?;
    }
  }

  /**
    Which phase runs last: the in-sequence alone when it ends normally (or
    on a break), the out-sequence only when a step asked for it, and the
    fault-sequence exactly when the in-sequence could not be found or raised.
   */
  lemma PhaseExclusivity(cfg: Config, req: Request, st: State)
    ensures var t := RunPhases(cfg, req, st).terminal;
      && (t == InCompleted <==>
            Lookup(cfg, req, st, In).Ok? && RunIn(cfg.env, req, Lookup(cfg, req, st, In).value, st, cfg.depth).outcome == Continue)
      && (t.OutRan? <==>
            Lookup(cfg, req, st, In).Ok? && RunIn(cfg.env, req, Lookup(cfg, req, st, In).value, st, cfg.depth).outcome == RunOut)
      && (t.FaultRan? <==>
            Lookup(cfg, req, st, In).Err? || RunIn(cfg.env, req, Lookup(cfg, req, st, In).value, st, cfg.depth).outcome.Fail?)
  {
  }

  /**
    `application` itself raises only from the `finally` block, when the
    response has a false status code or its headers are not a dict: an
    exception escaping the out- or fault-sequence never reaches the caller.
   */
  lemma OnlyFinallyRaises(cfg: Config, req: Request, api: Api)
    ensures Handle(cfg, req, api).Raised? ==>
      Handle(cfg, req, api).error == NoStatusCode || Handle(cfg, req, api).error == HeadersNotADict
    ensures var resp := RunPhases(cfg, req, Start(api)).state.response;
      Handle(cfg, req, api).Emitted? <==> Truthy(resp.statusCode) && resp.headers.VDict?
  {
  }

  /**
    A response with a status code and dict headers is emitted with the
    status line `"<code> <message>"`, one pair per response header with its
    value stringified, and the stringified message.
   */
  lemma FinalizeEmitsEveryHeader(cfg: Config, r: Resp)
    requires Truthy(r.statusCode) && r.headers.VDict?
    ensures var reply := Finalize(cfg, r);
      && reply.Emitted?
      && reply.status == Str(r.statusCode, cfg.showDict) + " " + Str(r.statusMessage, cfg.showDict)
      && reply.message == Str(r.message, cfg.showDict)
      && (forall h :: h in reply.headers <==> h in r.headers.items)
      && (forall h :: h in r.headers.items ==> reply.headers[h] == Str(r.headers.items[h], cfg.showDict))
  {
  }

  /**
    The context the sequences start from holds the routed API as
    `_api_object`, and the sequence lookup there sees the request as it came in.
   */
  lemma InitialLookup(cfg: Config, req: Request, api: Api, t: SequenceType)
    ensures FromContext(Start(api), "_api_object") == VObject(Describe(api))
    ensures Lookup(cfg, req, Start(api), t) == SequenceFor(cfg.apis, cfg.appendSlash, cfg.matches, req.httpMethod, req.urlPath, t)
  {
    assert RequestValue(req, Start(api), "url_path", cfg.env.unquote) == Some(VStr(req.urlPath));
    assert RequestValue(req, Start(api), "method", cfg.env.unquote) == Some(VStr(req.httpMethod));
  }

  /**
    A request routed to an API none of whose resources serves it has no
    in-sequence, hence no fault-sequence either; the response is never
    written, and `application` raises on its empty status code.
   */
  lemma UnservedRequestRaises(cfg: Config, req: Request, api: Api)
    requires SequenceFor(cfg.apis, cfg.appendSlash, cfg.matches, req.httpMethod, req.urlPath, In).Err?
    ensures Handle(cfg, req, api) == Raised(NoStatusCode)
  {
    InitialLookup(cfg, req, api, In);
    InitialLookup(cfg, req, api, FaultType);
    SequenceForSameResource(cfg.apis, cfg.appendSlash, cfg.matches, req.httpMethod, req.urlPath);
  }

  /** The response a literal ResponseMediator writes into a fresh context. */
  function LiteralResponse(code: string, status: string, message: string): Resp
  {
    EmptyResponse.(message := VStr(message), statusCode := VStr(code), statusMessage := VStr(status))
  }

  /**
    An in-sequence holding one ResponseMediator with a literal value answers
    with that status line and message, and no headers.
   */
  lemma LiteralResponseRoundTrip(cfg: Config, req: Request, api: Api, s: Step, code: string, status: string, message: string)
    requires cfg.depth > 0
    requires SequenceFor(cfg.apis, cfg.appendSlash, cfg.matches, req.httpMethod, req.urlPath, In) == Ok([s])
    requires s.kind == ResponseMediator && s.children == []
    requires s.attrs == map["value" := message, "status_code" := code, "status_message" := status]
    requires code != ""
    ensures Handle(cfg, req, api) == Emitted(code + " " + status, map[], message)
  {
    LiteralResponsePhases(cfg, req, api, s, code, status, message);
    var r := LiteralResponse(code, status, message);
    assert Handle(cfg, req, api) == Finalize(cfg, r);
    LiteralResponseReply(cfg, code, status, message);
  }

  /** The reply `finally` builds from a literal response. */
  lemma LiteralResponseReply(cfg: Config, code: string, status: string, message: string)
    requires code != ""
    ensures Finalize(cfg, LiteralResponse(code, status, message)) == Emitted(code + " " + status, map[], message)
  {
    var r := LiteralResponse(code, status, message);
    assert Truthy(r.statusCode) && r.headers == VDict(map[]);
    assert HeaderList(map[], cfg.showDict) == map[];
  }

  lemma LiteralResponsePhases(cfg: Config, req: Request, api: Api, s: Step, code: string, status: string, message: string)
    requires cfg.depth > 0
    requires SequenceFor(cfg.apis, cfg.appendSlash, cfg.matches, req.httpMethod, req.urlPath, In) == Ok([s])
    requires s.kind == ResponseMediator && s.children == []
    requires s.attrs == map["value" := message, "status_code" := code, "status_message" := status]
    ensures RunPhases(cfg, req, Start(api)) == Phases(InCompleted, Start(api).(response := LiteralResponse(code, status, message)))
  {
    InitialLookup(cfg, req, api, In);
    var st0 := Start(api);
    assert Lookup(cfg, req, st0, In) == Ok([s]);
    LiteralResponseRuns(cfg.env, req, s, st0, cfg.depth, code, status, message);
  }

  /** The in-sequence `[s]` of a literal ResponseMediator writes the literal response and ends normally. */
  lemma LiteralResponseRuns(env: Env, req: Request, s: Step, st0: State, depth: nat,
                            code: string, status: string, message: string)
    requires depth > 0 && st0.response == EmptyResponse && !BreakRequested(st0)
    requires s.kind == ResponseMediator && s.children == []
    requires s.attrs == map["value" := message, "status_code" := code, "status_message" := status]
    ensures RunIn(env, req, [s], st0, depth) == Run(Continue, st0.(response := LiteralResponse(code, status, message)))
  {
    var st1 := st0.(response := LiteralResponse(code, status, message));
    StepLemmas.ResponseWritesThenRuns(env, req, s, st0, depth);
    assert ExecSeq(env, req, [], st1, depth - 1) == Run(Continue, st1);
    assert Exec(env, req, s, st0, depth) == Run(Continue, st1);
    assert [s][..0] == [];
    assert RunIn(env, req, [], st0, depth) == Run(Continue, st0);
  }

  /**
    A break request stops the in-sequence: the steps after a
    ProcessResponseMediator of type `break` never run, and the reply comes
    from the response as it stood.
   */
  lemma BreakStopsInSequence(cfg: Config, req: Request, ss: seq<Step>, k: nat, st: State)
    requires k < |ss| && cfg.depth > 0
    requires ss[k].kind == ProcessResponseMediator && Attr(ss[k], "type") == Some("break")
    requires RunIn(cfg.env, req, ss[..k], st, cfg.depth).outcome == Continue
    requires !BreakRequested(RunIn(cfg.env, req, ss[..k], st, cfg.depth).state)
    ensures var r := RunIn(cfg.env, req, ss[..k], st, cfg.depth).state;
      RunIn(cfg.env, req, ss, st, cfg.depth) ==
        Run(Continue, r.(attrs := r.attrs["break_sequence" := VBool(true)]))
  {
    assert ss[..k + 1][..k] == ss[..k];
    RunInSettled(cfg.env, req, ss, k + 1, st, cfg.depth);
  }
}
