/**
  The steps' `mediate` methods, each updating the shared context in place.
  Every method is proved to end as `Exec` says: the outcome it returns and
  the context afterwards are those of the step's specification.
 */
module Mediators {
  import opened Values
  import opened Strings
  import opened Steps
  import opened Http
  import opened Contexts
  import opened Semantics
  import opened Sequencing

  /** `run_internal_sequences`: run the steps in order; the first exception ends the loop. */
  method RunInternalSequences(env: Env, ss: seq<Step>, ctx: Context, depth: nat) returns (o: Outcome)
    modifies ctx, ctx.response
    ensures Run(o, ctx.Snapshot()) == ExecSeq(env, ctx.request, ss, old(ctx.Snapshot()), depth)
    decreases depth, 2
  {
    ghost var st0 := ctx.Snapshot();
    o := Continue;
    for i := 0 to |ss|
      invariant o == Continue
      invariant Run(Continue, ctx.Snapshot()) == ExecSeq(env, ctx.request, ss[..i], st0, depth)
    {
      assert ss[..i + 1][..i] == ss[..i];
      o := Mediate(env, ss[i], ctx, depth);
      if !o.Continue? {
        ExecSeqStops(env, ctx.request, ss, i + 1, st0, depth);
        return;
      }
    }
    assert ss[..|ss|] == ss;
  }

  /** `step.mediate(context)`, dispatched on the step's kind. */
  method Mediate(env: Env, s: Step, ctx: Context, depth: nat) returns (o: Outcome)
    modifies ctx, ctx.response
    ensures Run(o, ctx.Snapshot()) == Exec(env, ctx.request, s, old(ctx.Snapshot()), depth)
    decreases depth, 1
  {
    if depth == 0 {
      return Fail(RecursionLimit);
    }
    match s.kind
    case InSequence => o := Continue;
    case OutSequence => o := Continue;
    case FaultSequence => o := Continue;
    case PdbMediator => o := Continue;
    case Log => o := LogOutcome(env, s);
    case ProcessResponseMediator => o := ProcessResponseMediate(s, ctx);
    case Property => o := PropertyMediate(env, s, ctx);
    case Use => o := UseMediate(env, s, ctx);
    case HttpHeaderMediator => o := HttpHeaderMediate(s, ctx);
    case Switch => o := SwitchMediate(env, s, ctx, depth);
    case Case => o := CaseMediate(env, s, ctx, depth);
    case Default => o := DefaultMediate(env, s, ctx, depth);
    case Payload => o := PayloadMediate(env, s, ctx, depth);
    case ResponseMediator => o := ResponseMediate(env, s, ctx, depth);
    case NamedSequence => o := NamedSequenceMediate(env, s, ctx, depth);
  }

  /** NamedSequence: run every step registered under `name`. */
  method NamedSequenceMediate(env: Env, s: Step, ctx: Context, depth: nat) returns (o: Outcome)
    requires depth > 0 && s.kind == NamedSequence
    modifies ctx, ctx.response
    ensures Run(o, ctx.Snapshot()) == Exec(env, ctx.request, s, old(ctx.Snapshot()), depth)
    decreases depth, 0
  {
    var name := Attr(s, "name");
    if name.None? {
      return Fail(MissingAttribute("name"));
    }
    if name.value !in env.named {
      return Fail(UndefinedSequence(name.value));
    }
    o := RunInternalSequences(env, env.named[name.value], ctx, depth - 1);
  }

  /** ProcessResponseMediator: set the break flag, or raise RunOutSequence. */
  method ProcessResponseMediate(s: Step, ctx: Context) returns (o: Outcome)
    modifies ctx
    ensures Run(o, ctx.Snapshot()) == ProcessResponse(s, old(ctx.Snapshot()))
  {
    if Attr(s, "type").Some? && Attr(s, "type").value == "break" {
      ctx.SetAttr("break_sequence", VBool(true));
      return Continue;
    }
    return RunOut;
  }

  /** Switch: mark the default branch live, record the condition, run the children. */
  method SwitchMediate(env: Env, s: Step, ctx: Context, depth: nat) returns (o: Outcome)
    requires depth > 0 && s.kind == Switch
    modifies ctx, ctx.response
    ensures Run(o, ctx.Snapshot()) == Exec(env, ctx.request, s, old(ctx.Snapshot()), depth)
    decreases depth, 0
  {
    ctx.SetAttr("is_default", VBool(true));
    var fromHeader := Attr(s, "from_header");
    var fromContext := Attr(s, "from_context");
    if fromHeader.Some? && fromHeader.value != "" {
      ctx.SetAttr("switch_condition", FromRequest(ctx.request, ctx.Snapshot(), fromHeader.value, env.unquote));
    } else if fromContext.Some? && fromContext.value != "" {
      ctx.SetAttr("switch_condition", FromContext(ctx.Snapshot(), fromContext.value));
    }
    o := RunInternalSequences(env, s.children, ctx, depth - 1);
  }

  /** Case: on a match run the children, then clear `is_default`. */
  method CaseMediate(env: Env, s: Step, ctx: Context, depth: nat) returns (o: Outcome)
    requires depth > 0 && s.kind == Case
    modifies ctx, ctx.response
    ensures Run(o, ctx.Snapshot()) == Exec(env, ctx.request, s, old(ctx.Snapshot()), depth)
    decreases depth, 0
  {
    if "switch_condition" !in ctx.attrs {
      return Fail(NoSwitchCondition);
    }
    var value := Attr(s, "value");
    if value.None? {
      return Fail(MissingAttribute("value"));
    }
    if VStr(value.value) == ctx.attrs["switch_condition"] {
      o := RunInternalSequences(env, s.children, ctx, depth - 1);
      if o.Continue? {
        ctx.SetAttr("is_default", VBool(false));
      }
    } else {
      o := Continue;
    }
  }

  /** Default: run the children while `is_default` is present and true. */
  method DefaultMediate(env: Env, s: Step, ctx: Context, depth: nat) returns (o: Outcome)
    requires depth > 0 && s.kind == Default
    modifies ctx, ctx.response
    ensures Run(o, ctx.Snapshot()) == Exec(env, ctx.request, s, old(ctx.Snapshot()), depth)
    decreases depth, 0
  {
    if "is_default" in ctx.attrs && Truthy(ctx.attrs["is_default"]) {
      o := RunInternalSequences(env, s.children, ctx, depth - 1);
    } else {
      o := Continue;
    }
  }

  /** Payload: bind a fresh empty dict under `name`, then run the children. */
  method PayloadMediate(env: Env, s: Step, ctx: Context, depth: nat) returns (o: Outcome)
    requires depth > 0 && s.kind == Payload
    modifies ctx, ctx.response
    ensures Run(o, ctx.Snapshot()) == Exec(env, ctx.request, s, old(ctx.Snapshot()), depth)
    decreases depth, 0
  {
    var name := Attr(s, "name");
    if name.None? {
      return Fail(MissingAttribute("name"));
    }
    ctx.SetAttr(name.value, VDict(map[]));
    o := RunInternalSequences(env, s.children, ctx, depth - 1);
  }

  /** Use: resolve the source value and store it under `key` in the payload dict. */
  method UseMediate(env: Env, s: Step, ctx: Context) returns (o: Outcome)
    modifies ctx
    ensures Run(o, ctx.Snapshot()) == Checked(UseRun(ctx.request, s, old(ctx.Snapshot()), env.unquote), old(ctx.Snapshot()))
  {
    var value := Attr(s, "value");
    if value.None? {
      return Fail(MissingAttribute("value"));
    }
    var obtained := UseSourceValue(env, value.value, ctx);
    if obtained.Err? {
      return Fail(obtained.error);
    }
    var payload := Attr(s, "payload");
    if payload.None? {
      return Fail(MissingAttribute("payload"));
    }
    var key := Attr(s, "key");
    if key.None? {
      return Fail(MissingAttribute("key"));
    }
    if payload.value in ctx.attrs {
      match ctx.attrs[payload.value] {
        case VDict(m) =>
          ctx.SetAttr(payload.value, VDict(m[key.value := obtained.value]));
        case _ =>
          return Fail(NotADict(payload.value));
      }
    } else {
      ctx.SetAttr(payload.value, VDict(map[key.value := obtained.value]));
    }
    o := Continue;
  }

  /** The value Use reads: a context attribute, a request attribute or a header, else None. */
  method UseSourceValue(env: Env, value: string, ctx: Context) returns (r: Result<Value>)
    ensures r == UseSource(ctx.request, ctx.Snapshot(), value, env.unquote)
  {
    var parts := Split(value, '.');
    if StartsWith(value, "$context") {
      if |parts| < 2 {
        return Err(BadExpression(value));
      }
      return Ok(GetOr(ctx.attrs, parts[1], VNone));
    } else if StartsWith(value, "$request") {
      if |parts| < 2 {
        return Err(BadExpression(value));
      }
      var found := RequestValue(ctx.request, ctx.Snapshot(), parts[1], env.unquote);
      return Ok(if found.Some? then found.value else VNone);
    } else if StartsWith(value, "$header") {
      var headers := RequestValue(ctx.request, ctx.Snapshot(), "headers", env.unquote);
      if !(headers.Some? && headers.value.VDict?) {
        return Err(NotADict("headers"));
      }
      if |parts| < 2 {
        return Err(BadExpression(value));
      }
      return Ok(GetOr(headers.value.items, parts[1], VNone));
    }
    return Ok(VNone);
  }

  /** ResponseMediator: write message, status code and status message, then run the children. */
  method ResponseMediate(env: Env, s: Step, ctx: Context, depth: nat) returns (o: Outcome)
    requires depth > 0 && s.kind == ResponseMediator
    modifies ctx, ctx.response
    ensures Run(o, ctx.Snapshot()) == Exec(env, ctx.request, s, old(ctx.Snapshot()), depth)
    decreases depth, 0
  {
    o := ResponseWrites(env, s, ctx);
    if o.Continue? {
      o := RunInternalSequences(env, s.children, ctx, depth - 1);
    }
  }

  /** The writes ResponseMediator makes before running its children. */
  method ResponseWrites(env: Env, s: Step, ctx: Context) returns (o: Outcome)
    modifies ctx.response
    ensures Run(o, ctx.Snapshot()) == ResponseSetup(env, s, old(ctx.Snapshot()))
  {
    var value := Attr(s, "value");
    if value.Some? {
      ctx.response.SetAttr("message", VStr(value.value));
    } else {
      var usePayload := Attr(s, "use_payload");
      if usePayload.None? {
        return Fail(MissingAttribute("use_payload"));
      }
      if usePayload.value !in ctx.attrs {
        return Fail(MissingAttribute(usePayload.value));
      }
      ctx.response.SetAttr("message", ctx.attrs[usePayload.value]);
      var convert := Attr(s, "convert");
      if convert.Some? && convert.value != "False" {
        if convert.value !in env.converters {
          return Fail(UnknownConverter(convert.value));
        }
        ctx.response.SetAttr("message", env.converters[convert.value](ctx.response.message));
      }
    }
    var statusCode := Attr(s, "status_code");
    if statusCode.None? {
      return Fail(MissingAttribute("status_code"));
    }
    ctx.response.SetAttr("status_code", VStr(statusCode.value));
    var statusMessage := Attr(s, "status_message");
    if statusMessage.None? {
      return Fail(MissingAttribute("status_message"));
    }
    ctx.response.SetAttr("status_message", VStr(statusMessage.value));
    o := Continue;
  }

  /** HttpHeaderMediator: `response.headers[name] = value`. */
  method HttpHeaderMediate(s: Step, ctx: Context) returns (o: Outcome)
    modifies ctx.response
    ensures Run(o, ctx.Snapshot()) == Checked(HeaderRun(s, old(ctx.Snapshot())), old(ctx.Snapshot()))
  {
    var value := Attr(s, "value");
    if value.None? {
      return Fail(MissingAttribute("value"));
    }
    var name := Attr(s, "name");
    if name.None? {
      return Fail(MissingAttribute("name"));
    }
    match ctx.response.headers {
      case VDict(m) =>
        ctx.response.SetAttr("headers", VDict(m[name.value := VStr(value.value)]));
      case _ =>
        return Fail(NotADict("headers"));
    }
    o := Continue;
  }

  /** Property: apply each entry of `expression_dict` in turn, carrying `get_element`. */
  method PropertyMediate(env: Env, s: Step, ctx: Context) returns (o: Outcome)
    modifies ctx, ctx.response
    ensures Run(o, ctx.Snapshot()) == PropertyRun(env, s, old(ctx.Snapshot()))
  {
    var expression := Attr(s, "expression");
    if expression.None? {
      return Fail(MissingAttribute("expression"));
    }
    var params := Attr(s, "params");
    if params.None? {
      return Fail(MissingAttribute("params"));
    }
    var entries := Entries(expression.value, params.value);
    var action := Attr(s, "action");
    var getElement: Option<Scope> := None;
    ghost var st0 := ctx.Snapshot();
    for i := 0 to |entries|
      invariant PropRun(Continue, ctx.Snapshot(), getElement) == PropLoop(env, action, entries[..i], st0)
    {
      assert entries[..i + 1][..i] == entries[..i];
      o, getElement := PropertyEntry(env, action, entries[i].0, entries[i].1, ctx, getElement);
      if !o.Continue? {
        PropLoopStops(env, action, entries, i + 1, st0);
        return;
      }
    }
    assert entries[..|entries|] == entries;
    o := Continue;
  }

  /** One iteration of the Property loop. */
  method PropertyEntry(env: Env, action: Option<string>, exp: string, value: string, ctx: Context,
                       element0: Option<Scope>)
    returns (o: Outcome, getElement: Option<Scope>)
    modifies ctx, ctx.response
    ensures PropRun(o, ctx.Snapshot(), getElement) == PropStep(env, action, exp, value, old(ctx.Snapshot()), element0)
  {
    var target := ParseTarget(exp);
    if target.Err? {
      return Fail(target.error), element0;
    }
    var finalValue;
    finalValue, getElement := ResolveValue(env, value, ctx, element0);
    if finalValue.Err? {
      return Fail(finalValue.error), getElement;
    }
    if action.None? {
      return Fail(MissingAttribute("action")), getElement;
    }
    if action.value == "set" {
      o := SetTarget(target.value.0, target.value.1, finalValue.value, ctx);
    } else {
      o := Continue;
    }
  }

  /** The value of a Property entry: a fresh id, a lookup through `get_element`, or the literal. */
  method ResolveValue(env: Env, value: string, ctx: Context, element0: Option<Scope>)
    returns (finalValue: Result<Value>, getElement: Option<Scope>)
    modifies ctx
    ensures Resolved(finalValue, ctx.Snapshot(), getElement) == Resolve(env, value, old(ctx.Snapshot()), element0)
  {
    getElement := element0;
    if StartsWith(value, "$random_id") {
      var id := ctx.DrawId(env.uuid);
      finalValue := Ok(VStr(id));
    } else if IsLookupValue(value) {
      var pieces := Split(value, '.');
      if |pieces| != 2 {
        return Err(BadExpression(value)), getElement;
      }
      getElement := Rebind(Tail(pieces[0]), getElement);
      if getElement.None? {
        return Err(UnboundElement), getElement;
      }
      finalValue := Ok(ReadScope(getElement.value, pieces[1], ctx.Snapshot()));
    } else {
      finalValue := Ok(VStr(value));
    }
  }

  /** The `set` action: assign the attribute, or the header entry, the target names. */
  method SetTarget(scope: Scope, parameter: string, v: Value, ctx: Context) returns (o: Outcome)
    modifies ctx, ctx.response
    ensures Run(o, ctx.Snapshot()) == Checked(WriteTarget(scope, parameter, v, old(ctx.Snapshot())), old(ctx.Snapshot()))
  {
    match scope {
      case ContextScope =>
        ctx.SetAttr(parameter, v);
      case RequestScope =>
        if parameter == "GET" {
          return Fail(ReadOnlyAttribute(parameter));
        }
        ctx.SetRequestAttr(parameter, v);
      case ResponseScope =>
        ctx.response.SetAttr(parameter, v);
      case HeaderScope =>
        match ctx.response.headers {
          case VDict(m) =>
            ctx.response.SetAttr("headers", VDict(m[parameter := v]));
          case _ =>
            return Fail(NotADict("headers"));
        }
    }
    o := Continue;
  }
}
