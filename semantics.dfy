/**
  What running a step does to the context, as functions from a context
  snapshot to an outcome and the snapshot afterwards.  The imperative
  `mediate` methods are proved to agree with these.

  A step ends normally (`Continue`), by raising `RunOutSequence` (`RunOut`)
  or by raising anything else (`Fail`).  A step that raises keeps whatever
  it had already written.  `depth` is the remaining room on Python's call
  stack: nesting one step inside another uses one level, and a step run
  with no room left fails with `RecursionLimit` (which Python raises as a
  RuntimeError, an ordinary exception).
 */
module Semantics {
  import opened Values
  import opened Strings
  import opened Steps
  import opened Http
  import opened Contexts
  import Query

  /** A response-message converter from the configured `CONVERTERS` table. */
  type Converter = Value -> Value

  /**
    What steps consult besides the context: the named-sequence registry,
    URL unquoting, the converter table, the source of random ids
    (`uuid4`, indexed by how many ids were drawn before) and the module
    logger: its attribute names, each mapped to whether calling it with one
    message string returns normally (true for `info`, `debug`, `error` and
    the other logging methods, and also for methods such as `getChild` or
    `isEnabledFor`; false for a non-callable or a method needing more
    arguments).
   */
  datatype Env = Env(
    named: map<string, seq<Step>>,
    unquote: Query.Unquote,
    converters: map<string, Converter>,
    uuid: nat -> string,
    logger: map<string, bool>)

  datatype Run = Run(outcome: Outcome, state: State)

  /** A step that only reads the context: its outcome, with the context unchanged. */
  function Checked(r: Result<State>, st: State): Run
  {
    match r
    case Ok(st1) => Run(Continue, st1)
    case Err(e) => Run(Fail(e), st)
  }

  /** `setattr(context.response, name, v)` on a snapshot. */
  function RespWrite(st: State, name: string, v: Value): State
  {
    st.(response := SetRespAttr(st.response, name, v))
  }

  // ---------------------------------------------------------------------
  // Log
  // ---------------------------------------------------------------------

  /**
    Log looks up its category on the logger, reads its `value`, then calls
    the method found with the message; it changes nothing.
   */
  function LogOutcome(env: Env, s: Step): Outcome
  {
    match Attr(s, "category")
    case None => Fail(MissingAttribute("category"))
    case Some(c) =>
      if c !in env.logger then Fail(MissingAttribute(c))
      else if Attr(s, "value").None? then Fail(MissingAttribute("value"))
      else if !env.logger[c] then Fail(NotALogMethod(c))
      else Continue
  }

  // ---------------------------------------------------------------------
  // ProcessResponse
  // ---------------------------------------------------------------------

  predicate IsBreak(s: Step)
  {
    Attr(s, "type") == Some("break")
  }

  /** Either ask the in-sequence to stop, or jump to the out-sequence. */
  function ProcessResponse(s: Step, st: State): Run
  {
    if IsBreak(s) then Run(Continue, WithAttr(st, "break_sequence", VBool(true)))
    else Run(RunOut, st)
  }

  // ---------------------------------------------------------------------
  // Switch, Case, Default
  // ---------------------------------------------------------------------

  /** `hasattr(step, name) and step.name`: the attribute when it is a non-empty string. */
  function NonEmptyAttr(s: Step, name: string): Option<string>
  {
    if Attr(s, name).Some? && Attr(s, name).value != "" then Attr(s, name) else None
  }

  /** What Switch writes before running its children. */
  function SwitchSetup(req: Request, s: Step, st: State, unquote: Query.Unquote): State
  {
    var st1 := WithAttr(st, "is_default", VBool(true));
    match NonEmptyAttr(s, "from_header")
    case Some(h) => WithAttr(st1, "switch_condition", FromRequest(req, st1, h, unquote))
    case None =>
      match NonEmptyAttr(s, "from_context")
      case Some(c) => WithAttr(st1, "switch_condition", FromContext(st1, c))
      case None => st1
  }

  /** Whether a Case matches: its `value` equals the context's `switch_condition`. */
  function CaseGuard(s: Step, st: State): Result<bool>
  {
    if "switch_condition" !in st.attrs then Err(NoSwitchCondition)
    else
      match Attr(s, "value")
      case None => Err(MissingAttribute("value"))
      case Some(v) => Ok(VStr(v) == st.attrs["switch_condition"])
  }

  /** Default runs its children when `is_default` is present and true. */
  predicate DefaultRuns(st: State)
  {
    "is_default" in st.attrs && Truthy(st.attrs["is_default"])
  }

  // ---------------------------------------------------------------------
  // Payload and Use
  // ---------------------------------------------------------------------

  /** Payload binds a fresh empty dict under its `name`. */
  function PayloadSetup(s: Step, st: State): Result<State>
  {
    match Attr(s, "name")
    case None => Err(MissingAttribute("name"))
    case Some(n) => Ok(WithAttr(st, n, VDict(map[])))
  }

  /** The value a Use step's `value` refers to. */
  function UseSource(req: Request, st: State, value: string, unquote: Query.Unquote): Result<Value>
  {
    var parts := Split(value, '.');
    if StartsWith(value, "$context") then
      if |parts| < 2 then Err(BadExpression(value)) else Ok(GetOr(st.attrs, parts[1], VNone))
    else if StartsWith(value, "$request") then
      if |parts| < 2 then Err(BadExpression(value))
      else Ok(match RequestValue(req, st, parts[1], unquote) case Some(v) => v case None => VNone)
    else if StartsWith(value, "$header") then
      match RequestValue(req, st, "headers", unquote)
      case Some(VDict(m)) => if |parts| < 2 then Err(BadExpression(value)) else Ok(GetOr(m, parts[1], VNone))
      case _ => Err(NotADict("headers"))
    else Ok(VNone)
  }

  /** Use stores the source value under `key` in the payload dict named `payload`. */
  function UseRun(req: Request, s: Step, st: State, unquote: Query.Unquote): Result<State>
  {
    match Attr(s, "value")
    case None => Err(MissingAttribute("value"))
    case Some(value) =>
      match UseSource(req, st, value, unquote)
      case Err(e) => Err(e)
      case Ok(v) =>
        match Attr(s, "payload")
        case None => Err(MissingAttribute("payload"))
        case Some(p) =>
          match Attr(s, "key")
          case None => Err(MissingAttribute("key"))
          case Some(k) =>
            if p in st.attrs then
              match st.attrs[p]
              case VDict(m) => Ok(WithAttr(st, p, VDict(m[k := v])))
              case _ => Err(NotADict(p))
            else Ok(WithAttr(st, p, VDict(map[k := v])))
  }

  // ---------------------------------------------------------------------
  // ResponseMediator and HttpHeaderMediator
  // ---------------------------------------------------------------------

  /** The first write of ResponseMediator: the response message. */
  function ResponseMessage(env: Env, s: Step, st: State): Run
  {
    match Attr(s, "value")
    case Some(v) => Run(Continue, RespWrite(st, "message", VStr(v)))
    case None =>
      match Attr(s, "use_payload")
      case None => Run(Fail(MissingAttribute("use_payload")), st)
      case Some(p) =>
        if p !in st.attrs then Run(Fail(MissingAttribute(p)), st)
        else
          var st1 := RespWrite(st, "message", st.attrs[p]);
          match Attr(s, "convert")
          case None => Run(Continue, st1)
          case Some(c) =>
            if c == "False" then Run(Continue, st1)
            else if c !in env.converters then Run(Fail(UnknownConverter(c)), st1)
            else Run(Continue, RespWrite(st1, "message", env.converters[c](st.attrs[p])))
  }

  /** All writes of ResponseMediator: message, status code, status message. */
  function ResponseSetup(env: Env, s: Step, st: State): Run
  {
    var r := ResponseMessage(env, s, st);
    if !r.outcome.Continue? then r
    else
      match Attr(s, "status_code")
      case None => Run(Fail(MissingAttribute("status_code")), r.state)
      case Some(code) =>
        var st2 := RespWrite(r.state, "status_code", VStr(code));
        match Attr(s, "status_message")
        case None => Run(Fail(MissingAttribute("status_message")), st2)
        case Some(m) => Run(Continue, RespWrite(st2, "status_message", VStr(m)))
  }

  /** HttpHeaderMediator: `response.headers[name] = value`. */
  function HeaderRun(s: Step, st: State): Result<State>
  {
    match Attr(s, "value")
    case None => Err(MissingAttribute("value"))
    case Some(v) =>
      match Attr(s, "name")
      case None => Err(MissingAttribute("name"))
      case Some(n) =>
        match SetHeader(st.response, n, VStr(v))
        case Err(e) => Err(e)
        case Ok(r) => Ok(st.(response := r))
  }

  // ---------------------------------------------------------------------
  // Property
  // ---------------------------------------------------------------------

  /** The objects a Property expression can name. */
  datatype Scope = ContextScope | RequestScope | ResponseScope | HeaderScope

  function ScopeOf(name: string): Option<Scope>
  {
    match name
    case "context" => Some(ContextScope)
    case "request" => Some(RequestScope)
    case "response" => Some(ResponseScope)
    case "header" => Some(HeaderScope)
    case _ => None
  }

  /**
    An expression `$scope.name`: exactly one `.`, and the scope is the text
    between the first and the second `$` of the part before it.
   */
  function ParseTarget(exp: string): Result<(Scope, string)>
  {
    var pieces := Split(exp, '.');
    if |pieces| != 2 then Err(BadExpression(exp))
    else
      var dollar := Split(pieces[0], '$');
      if |dollar| < 2 then Err(BadExpression(exp))
      else
        match ScopeOf(dollar[1])
        case None => Err(UnknownScope(dollar[1]))
        case Some(sc) => Ok((sc, pieces[1]))
  }

  /** Values that are looked up rather than taken literally. */
  predicate IsLookupValue(value: string)
  {
    StartsWith(value, "$context.") || StartsWith(value, "$request.")
    || StartsWith(value, "$response.") || StartsWith(value, "$header")
  }

  /** `get_element` after a lookup value naming `bv`: only three names rebind it. */
  function Rebind(bv: string, element: Option<Scope>): Option<Scope>
  {
    if bv == "context" then Some(ContextScope)
    else if bv == "response" then Some(ResponseScope)
    else if bv == "header" then Some(HeaderScope)
    else element
  }

  /** `getattr(element, name, None)`; a dict has no data attributes. */
  function ReadScope(sc: Scope, name: string, st: State): Value
  {
    match sc
    case ContextScope => GetOr(st.attrs, name, VNone)
    case ResponseScope => RespAttr(st.response, name)
    case _ => VNone
  }

  /** The value of one entry, the state after computing it and the `get_element` binding. */
  datatype Resolved = Resolved(value: Result<Value>, state: State, element: Option<Scope>)

  function Resolve(env: Env, value: string, st: State, element: Option<Scope>): Resolved
  {
    if StartsWith(value, "$random_id") then
      Resolved(Ok(VStr(env.uuid(st.idsDrawn))), st.(idsDrawn := st.idsDrawn + 1), element)
    else if IsLookupValue(value) then
      var pieces := Split(value, '.');
      if |pieces| != 2 then Resolved(Err(BadExpression(value)), st, element)
      else
        var bound := Rebind(Tail(pieces[0]), element);
        match bound
        case None => Resolved(Err(UnboundElement), st, bound)
        case Some(sc) => Resolved(Ok(ReadScope(sc, pieces[1], st)), st, bound)
    else Resolved(Ok(VStr(value)), st, element)
  }

  /** The `set` action on one target. */
  function WriteTarget(sc: Scope, name: string, v: Value, st: State): Result<State>
  {
    match sc
    case ContextScope => Ok(WithAttr(st, name, v))
    case RequestScope =>
      if name == "GET" then Err(ReadOnlyAttribute(name))
      else Ok(st.(requestAttrs := st.requestAttrs[name := v]))
    case ResponseScope => Ok(RespWrite(st, name, v))
    case HeaderScope =>
      match SetHeader(st.response, name, v)
      case Err(e) => Err(e)
      case Ok(r) => Ok(st.(response := r))
  }

  /** How far the Property loop got: its outcome, the state, and `get_element`. */
  datatype PropRun = PropRun(outcome: Outcome, state: State, element: Option<Scope>)

  /** One iteration of the Property loop. */
  function PropStep(env: Env, action: Option<string>, exp: string, value: string,
                    st: State, element: Option<Scope>): PropRun
  {
    match ParseTarget(exp)
    case Err(e) => PropRun(Fail(e), st, element)
    case Ok(target) =>
      var res := Resolve(env, value, st, element);
      match res.value
      case Err(e) => PropRun(Fail(e), res.state, res.element)
      case Ok(v) =>
        match action
        case None => PropRun(Fail(MissingAttribute("action")), res.state, res.element)
        case Some(a) =>
          if a != "set" then PropRun(Continue, res.state, res.element)
          else
            match WriteTarget(target.0, target.1, v, res.state)
            case Err(e) => PropRun(Fail(e), res.state, res.element)
            case Ok(st1) => PropRun(Continue, st1, res.element)
  }

  /** The loop over the entries, stopping at the first failure. */
  function PropLoop(env: Env, action: Option<string>, es: seq<(string, string)>, st: State): PropRun
  {
    if es == [] then PropRun(Continue, st, None)
    else
      var r := PropLoop(env, action, es[..|es| - 1], st);
      var e := es[|es| - 1];
      if r.outcome.Continue? then PropStep(env, action, e.0, e.1, r.state, r.element) else r
  }

  /** `zip(a, b)`: pairs by position, as long as the shorter list. */
  function Zip(a: seq<string>, b: seq<string>): (z: seq<(string, string)>)
    ensures |z| == if |a| < |b| then |a| else |b|
    ensures forall i :: 0 <= i < |z| ==> z[i] == (a[i], b[i])
  {
    if a == [] || b == [] then [] else [(a[0], b[0])] + Zip(a[1..], b[1..])
  }

  /** `d[k] = v` on a dict kept as its entries: replace in place, or append. */
  function Assoc(es: seq<(string, string)>, k: string, v: string): seq<(string, string)>
  {
    if es == [] then [(k, v)]
    else if es[0].0 == k then [(k, v)] + es[1..]
    else [es[0]] + Assoc(es[1..], k, v)
  }

  /** `dict(pairs)`, entries in order of each key's first occurrence. */
  function DictOf(pairs: seq<(string, string)>): seq<(string, string)>
  {
    if pairs == [] then []
    else
      var last := pairs[|pairs| - 1];
      Assoc(DictOf(pairs[..|pairs| - 1]), last.0, last.1)
  }

  /** `expression_dict` */
  function Entries(expression: string, params: string): seq<(string, string)>
  {
    DictOf(Zip(Split(expression, ','), Split(params, ',')))
  }

  function PropertyRun(env: Env, s: Step, st: State): Run
  {
    match Attr(s, "expression")
    case None => Run(Fail(MissingAttribute("expression")), st)
    case Some(e) =>
      match Attr(s, "params")
      case None => Run(Fail(MissingAttribute("params")), st)
      case Some(p) =>
        var r := PropLoop(env, Attr(s, "action"), Entries(e, p), st);
        Run(r.outcome, r.state)
  }

  // ---------------------------------------------------------------------
  // Running steps.
  // ---------------------------------------------------------------------

  /** `step.mediate(context)` */
  function Exec(env: Env, req: Request, s: Step, st: State, depth: nat): Run
    decreases depth, 0
  {
    if depth == 0 then Run(Fail(RecursionLimit), st)
    else
      match s.kind
      case InSequence => Run(Continue, st)
      case OutSequence => Run(Continue, st)
      case FaultSequence => Run(Continue, st)
      case PdbMediator => Run(Continue, st)
      case Log => Run(LogOutcome(env, s), st)
      case ProcessResponseMediator => ProcessResponse(s, st)
      case Property => PropertyRun(env, s, st)
      case Use => Checked(UseRun(req, s, st, env.unquote), st)
      case HttpHeaderMediator => Checked(HeaderRun(s, st), st)
      case Switch => ExecSeq(env, req, s.children, SwitchSetup(req, s, st, env.unquote), depth - 1)
      case Case =>
        (match CaseGuard(s, st)
         case Err(e) => Run(Fail(e), st)
         case Ok(matched) =>
           if !matched then Run(Continue, st)
           else
             var r := ExecSeq(env, req, s.children, st, depth - 1);
             if r.outcome.Continue? then Run(Continue, WithAttr(r.state, "is_default", VBool(false))) else r)
      case Default =>
        if DefaultRuns(st) then ExecSeq(env, req, s.children, st, depth - 1) else Run(Continue, st)
      case Payload =>
        (match PayloadSetup(s, st)
         case Err(e) => Run(Fail(e), st)
         case Ok(st1) => ExecSeq(env, req, s.children, st1, depth - 1))
      case ResponseMediator =>
        var r := ResponseSetup(env, s, st);
        if r.outcome.Continue? then ExecSeq(env, req, s.children, r.state, depth - 1) else r
      case NamedSequence =>
        match Attr(s, "name")
        case None => Run(Fail(MissingAttribute("name")), st)
        case Some(n) =>
          if n !in env.named then Run(Fail(UndefinedSequence(n)), st)
          else ExecSeq(env, req, env.named[n], st, depth - 1)
  }

  /** `run_internal_sequences`: the steps in order, stopping at the first that does not end normally. */
  function ExecSeq(env: Env, req: Request, ss: seq<Step>, st: State, depth: nat): Run
    decreases depth, |ss| + 1
  {
    if ss == [] then Run(Continue, st)
    else
      var r := ExecSeq(env, req, ss[..|ss| - 1], st, depth);
      if r.outcome.Continue? then Exec(env, req, ss[|ss| - 1], r.state, depth) else r
  }
}
