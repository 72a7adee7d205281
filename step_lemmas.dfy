/**
  Properties of the individual steps: the Switch/Case/Default protocol
  around `is_default`, the writes of Payload, Use, HttpHeaderMediator and
  ResponseMediator, the break-versus-jump choice of ProcessResponse, the
  expansion of named sequences, and the counter behind random ids.
 */
module StepLemmas {
  import opened Values
  import opened Strings
  import opened Steps
  import opened Http
  import opened Contexts
  import opened Semantics
  import opened Sequencing

  /** A context attribute, or None when `hasattr` is false. */
  function AttrOf(st: State, name: string): Option<Value>
  {
    if name in st.attrs then Some(st.attrs[name]) else None
  }

  // ---------------------------------------------------------------------
  // ProcessResponse
  // ---------------------------------------------------------------------

  /**
    With `type == "break"` the step sets `break_sequence` to True and ends
    normally; with any other or no type it jumps to the out-sequence and
    changes nothing.
   */
  lemma ProcessResponseBreakOrJump(env: Env, req: Request, s: Step, st: State, depth: nat)
    requires depth > 0 && s.kind == ProcessResponseMediator
    ensures var r := Exec(env, req, s, st, depth);
      && (r.outcome == Continue <==> Attr(s, "type") == Some("break"))
      && (r.outcome == RunOut <==> Attr(s, "type") != Some("break"))
      && (r.outcome == RunOut ==> r.state == st)
      && (r.outcome == Continue ==> r.state == st.(attrs := st.attrs["break_sequence" := VBool(true)]))
  {
  }

  // ---------------------------------------------------------------------
  // Switch, Case, Default
  // ---------------------------------------------------------------------

  /**
    Switch sets `is_default` to True, then records the condition: from the
    request attribute named by a non-empty `from_header`, otherwise from the
    context attribute named by a non-empty `from_context` (read after
    `is_default` was set), otherwise it leaves `switch_condition` alone.
    Nothing else changes before the children run.
   */
  lemma SwitchRecordsCondition(env: Env, req: Request, s: Step, st: State, depth: nat)
    requires depth > 0 && s.kind == Switch
    ensures var st1 := SwitchSetup(req, s, st, env.unquote);
      && Exec(env, req, s, st, depth) == ExecSeq(env, req, s.children, st1, depth - 1)
      && AttrOf(st1, "is_default") == Some(VBool(true))
      && (NonEmptyAttr(s, "from_header").Some? ==>
            AttrOf(st1, "switch_condition") == Some(FromRequest(req, st, NonEmptyAttr(s, "from_header").value, env.unquote)))
      && (NonEmptyAttr(s, "from_header").None? && NonEmptyAttr(s, "from_context").Some? ==>
            AttrOf(st1, "switch_condition") ==
              Some(if NonEmptyAttr(s, "from_context").value == "is_default" then VBool(true)
                   else FromContext(st, NonEmptyAttr(s, "from_context").value)))
      && (NonEmptyAttr(s, "from_header").None? && NonEmptyAttr(s, "from_context").None? ==>
            AttrOf(st1, "switch_condition") == AttrOf(st, "switch_condition"))
      && (forall k :: k != "is_default" && k != "switch_condition" ==> AttrOf(st1, k) == AttrOf(st, k))
      && st1.requestAttrs == st.requestAttrs && st1.response == st.response && st1.idsDrawn == st.idsDrawn
  {
  }

  /**
    Case: without a `switch_condition` it raises and changes nothing; when
    its value differs from the condition it does nothing; when it matches
    it runs its children and only then, if they ended normally, sets
    `is_default` to False.
   */
  lemma CaseSemantics(env: Env, req: Request, s: Step, st: State, depth: nat)
    requires depth > 0 && s.kind == Case
    ensures "switch_condition" !in st.attrs ==> Exec(env, req, s, st, depth) == Run(Fail(NoSwitchCondition), st)
    ensures "switch_condition" in st.attrs && "value" in s.attrs && VStr(s.attrs["value"]) != st.attrs["switch_condition"]
      ==> Exec(env, req, s, st, depth) == Run(Continue, st)
    ensures "switch_condition" in st.attrs && "value" in s.attrs && VStr(s.attrs["value"]) == st.attrs["switch_condition"]
      ==> var r := ExecSeq(env, req, s.children, st, depth - 1);
          Exec(env, req, s, st, depth) ==
            if r.outcome.Continue? then Run(Continue, r.state.(attrs := r.state.attrs["is_default" := VBool(false)])) else r
  {
  }

  /**
    Log never changes the context.  It ends normally exactly when it has a
    `category` naming a logger attribute that accepts one message and has a
    `value`; a category the logger lacks raises before `value` is read.
   */
  lemma LogOnlyReports(env: Env, req: Request, s: Step, st: State, depth: nat)
    requires s.kind == Log && depth > 0
    ensures Exec(env, req, s, st, depth).state == st
    ensures Exec(env, req, s, st, depth).outcome == Continue <==>
      Attr(s, "category").Some? && Attr(s, "category").value in env.logger
      && env.logger[Attr(s, "category").value] && Attr(s, "value").Some?
    ensures Attr(s, "category").Some? && Attr(s, "category").value !in env.logger ==>
      Exec(env, req, s, st, depth).outcome == Fail(MissingAttribute(Attr(s, "category").value))
  {
  }

  /** Default runs its children exactly when `is_default` exists and is true, and otherwise does nothing. */
  lemma DefaultRunsIff(env: Env, req: Request, s: Step, st: State, depth: nat)
    requires depth > 0 && s.kind == Default
    ensures ("is_default" in st.attrs && Truthy(st.attrs["is_default"])) ==>
      Exec(env, req, s, st, depth) == ExecSeq(env, req, s.children, st, depth - 1)
    ensures !("is_default" in st.attrs && Truthy(st.attrs["is_default"])) ==>
      Exec(env, req, s, st, depth) == Run(Continue, st)
  {
  }

  /** A step list that, when it ends normally, leaves `is_default` and `switch_condition` as it found them. */
  ghost predicate KeepsSwitchState(env: Env, req: Request, body: seq<Step>, depth: nat)
  {
    forall st: State :: ExecSeq(env, req, body, st, depth).outcome.Continue? ==>
      && AttrOf(ExecSeq(env, req, body, st, depth).state, "switch_condition") == AttrOf(st, "switch_condition")
      && AttrOf(ExecSeq(env, req, body, st, depth).state, "is_default") == AttrOf(st, "is_default")
  }

  /** Cases whose value is declared and whose bodies keep the switch state. */
  ghost predicate PlainCases(env: Env, req: Request, cs: seq<Step>, depth: nat)
  {
    depth > 0 &&
    forall i :: 0 <= i < |cs| ==>
      cs[i].kind == Case && "value" in cs[i].attrs && KeepsSwitchState(env, req, cs[i].children, depth - 1)
  }

  /** Some case's value equals the condition. */
  predicate AnyCaseMatches(cs: seq<Step>, cond: Value)
  {
    exists i :: 0 <= i < |cs| && "value" in cs[i].attrs && VStr(cs[i].attrs["value"]) == cond
  }

  /**
    Cases do not short-circuit one another: after a run of cases that ends
    normally the condition is unchanged, and `is_default` is False if any
    case matched and untouched otherwise.
   */
  lemma {:induction false} CasesDecideDefault(env: Env, req: Request, cs: seq<Step>, st: State, depth: nat)
    requires PlainCases(env, req, cs, depth)
    requires "switch_condition" in st.attrs
    requires ExecSeq(env, req, cs, st, depth).outcome.Continue?
    ensures var st1 := ExecSeq(env, req, cs, st, depth).state;
      && AttrOf(st1, "switch_condition") == AttrOf(st, "switch_condition")
      && AttrOf(st1, "is_default") ==
           if AnyCaseMatches(cs, st.attrs["switch_condition"]) then Some(VBool(false)) else AttrOf(st, "is_default")
  {
    if cs != [] {
      var init := cs[..|cs| - 1];
      var c := cs[|cs| - 1];
      var cond := st.attrs["switch_condition"];
      var r := ExecSeq(env, req, init, st, depth);
      assert PlainCases(env, req, init, depth) by {
        forall i | 0 <= i < |init| ensures init[i] == cs[i] { }
      }
      CasesDecideDefault(env, req, init, st, depth);
      assert "switch_condition" in r.state.attrs && r.state.attrs["switch_condition"] == cond;
      assert c.kind == Case && "value" in c.attrs && KeepsSwitchState(env, req, c.children, depth - 1);
      var matchedBefore := AnyCaseMatches(init, cond);
      assert AnyCaseMatches(cs, cond) <==> matchedBefore || VStr(c.attrs["value"]) == cond by {
        if AnyCaseMatches(cs, cond) && !(VStr(c.attrs["value"]) == cond) {
          var i :| 0 <= i < |cs| && "value" in cs[i].attrs && VStr(cs[i].attrs["value"]) == cond;
          assert i < |init| && init[i] == cs[i];
        }
        if matchedBefore {
          var i :| 0 <= i < |init| && "value" in init[i].attrs && VStr(init[i].attrs["value"]) == cond;
          assert cs[i] == init[i];
        }
      }
      if VStr(c.attrs["value"]) == cond {
        var body := ExecSeq(env, req, c.children, r.state, depth - 1);
        assert body.outcome.Continue?;
        assert AttrOf(body.state, "switch_condition") == AttrOf(r.state, "switch_condition");
      }
    }
  }

  /**
    The Switch protocol: after the Switch set `is_default` to True, a
    Default placed after a run of cases runs its children exactly when no
    case matched, and does nothing when one did.
   */
  lemma DefaultAfterCases(env: Env, req: Request, cs: seq<Step>, dflt: Step, st: State, depth: nat)
    requires PlainCases(env, req, cs, depth) && dflt.kind == Default
    requires "switch_condition" in st.attrs && AttrOf(st, "is_default") == Some(VBool(true))
    requires ExecSeq(env, req, cs, st, depth).outcome.Continue?
    ensures var st1 := ExecSeq(env, req, cs, st, depth).state;
      Exec(env, req, dflt, st1, depth) ==
        if AnyCaseMatches(cs, st.attrs["switch_condition"]) then Run(Continue, st1)
        else ExecSeq(env, req, dflt.children, st1, depth - 1)
  {
    CasesDecideDefault(env, req, cs, st, depth);
  }

  // ---------------------------------------------------------------------
  // Payload and Use
  // ---------------------------------------------------------------------

  /** Payload replaces whatever was bound under its name by a fresh empty dict, then runs its children. */
  lemma PayloadBindsEmptyDict(env: Env, req: Request, s: Step, st: State, depth: nat)
    requires depth > 0 && s.kind == Payload && "name" in s.attrs
    ensures var st1 := st.(attrs := st.attrs[s.attrs["name"] := VDict(map[])]);
      Exec(env, req, s, st, depth) == ExecSeq(env, req, s.children, st1, depth - 1)
  {
  }

  /**
    Use writes the source value under `key` into the payload dict, keeping
    the dict's other keys, or creates `{key: value}` when the context has no
    attribute of that name; nothing else changes.  It raises when an
    attribute is missing, the source cannot be read, or the payload
    attribute is not a dict.
   */
  lemma UseWritesOneKey(req: Request, s: Step, st: State, unquote: Query.Unquote)
    requires "value" in s.attrs && "payload" in s.attrs && "key" in s.attrs
    requires UseSource(req, st, s.attrs["value"], unquote).Ok?
    ensures var p, k, v := s.attrs["payload"], s.attrs["key"], UseSource(req, st, s.attrs["value"], unquote).value;
      && (p !in st.attrs ==> UseRun(req, s, st, unquote) == Ok(st.(attrs := st.attrs[p := VDict(map[k := v])])))
      && (p in st.attrs && st.attrs[p].VDict? ==>
            UseRun(req, s, st, unquote) == Ok(st.(attrs := st.attrs[p := VDict(st.attrs[p].items[k := v])])))
      && (p in st.attrs && !st.attrs[p].VDict? ==> UseRun(req, s, st, unquote) == Err(NotADict(p)))
  {
  }

  /** Use raises on a missing `value`, `payload` or `key`, whatever the context holds. */
  lemma UseNeedsAttributes(req: Request, s: Step, st: State, unquote: Query.Unquote)
    requires !("value" in s.attrs && "payload" in s.attrs && "key" in s.attrs)
    ensures UseRun(req, s, st, unquote).Err?
  {
  }

  /** A source with none of the three recognised prefixes stores None. */
  lemma UseUnknownPrefixIsNone(req: Request, st: State, value: string, unquote: Query.Unquote)
    requires !StartsWith(value, "$context") && !StartsWith(value, "$request") && !StartsWith(value, "$header")
    ensures UseSource(req, st, value, unquote) == Ok(VNone)
  {
  }

  /**
    A `$header.` source reads the header view with the `get` it inherits
    from dict, whose own storage is empty: it yields None whatever the
    environ holds, unless a step replaced the request's `headers`.
   */
  lemma UseHeaderYieldsNone(req: Request, st: State, name: string, unquote: Query.Unquote)
    requires "headers" !in st.requestAttrs
    requires '.' !in name
    ensures UseSource(req, st, "$header." + name, unquote) == Ok(VNone)
  {
    var value := "$header." + name;
    assert value[..7] == "$header";
    assert value[..8] == "$header.";
    assert StartsWith(value, "$header") && !StartsWith(value, "$context") && !StartsWith(value, "$request");
    assert '.' !in "$header";
    SplitJoin(["$header", name], '.');
    assert Join(["$header", name], '.') == value;
    assert RequestValue(req, st, "headers", unquote) == Some(VDict(map[]));
  }

  // ---------------------------------------------------------------------
  // HttpHeaderMediator and ResponseMediator
  // ---------------------------------------------------------------------

  /** HttpHeaderMediator sets exactly one header and leaves the other headers and everything else unchanged. */
  lemma HeaderSetsOne(s: Step, st: State)
    requires "value" in s.attrs && "name" in s.attrs && st.response.headers.VDict?
    ensures var n := s.attrs["name"];
      && HeaderRun(s, st).Ok?
      && var st1 := HeaderRun(s, st).value;
      && st1.response.headers.VDict?
      && st1.response.headers.items[n] == VStr(s.attrs["value"])
      && (forall h :: h != n ==>
            (h in st1.response.headers.items <==> h in st.response.headers.items)
            && (h in st.response.headers.items ==> st1.response.headers.items[h] == st.response.headers.items[h]))
      && st1 == st.(response := st.response.(headers := st1.response.headers))
  {
  }

  /** HttpHeaderMediator raises, changing nothing, when an attribute is missing or the headers are not a dict. */
  lemma HeaderFailsWithoutDict(s: Step, st: State)
    ensures HeaderRun(s, st).Err? <==>
      !("value" in s.attrs && "name" in s.attrs && st.response.headers.VDict?)
  {
  }

  /**
    ResponseMediator with a literal `value` sets message, status code and
    status message, and only then runs its children.
   */
  lemma ResponseWritesThenRuns(env: Env, req: Request, s: Step, st: State, depth: nat)
    requires depth > 0 && s.kind == ResponseMediator
    requires "value" in s.attrs && "status_code" in s.attrs && "status_message" in s.attrs
    ensures Exec(env, req, s, st, depth) ==
      ExecSeq(env, req, s.children,
              st.(response := st.response.(message := VStr(s.attrs["value"]),
                                           statusCode := VStr(s.attrs["status_code"]),
                                           statusMessage := VStr(s.attrs["status_message"]))),
              depth - 1)
  {
  }

  /**
    Without a literal `value` the message is the context attribute named by
    `use_payload`, passed through the converter named by `convert` unless
    that is absent or "False".
   */
  lemma ResponseUsesPayload(env: Env, s: Step, st: State)
    requires "value" !in s.attrs && "use_payload" in s.attrs && s.attrs["use_payload"] in st.attrs
    requires "status_code" in s.attrs && "status_message" in s.attrs
    ensures var m := st.attrs[s.attrs["use_payload"]];
      && (("convert" !in s.attrs || s.attrs["convert"] == "False") ==>
            ResponseSetup(env, s, st).outcome == Continue && ResponseSetup(env, s, st).state.response.message == m)
      && ("convert" in s.attrs && s.attrs["convert"] != "False" && s.attrs["convert"] in env.converters ==>
            ResponseSetup(env, s, st).outcome == Continue
            && ResponseSetup(env, s, st).state.response.message == env.converters[s.attrs["convert"]](m))
      && ("convert" in s.attrs && s.attrs["convert"] != "False" && s.attrs["convert"] !in env.converters ==>
            ResponseSetup(env, s, st) == Run(Fail(UnknownConverter(s.attrs["convert"])), st.(response := st.response.(message := m))))
  {
  }

  // ---------------------------------------------------------------------
  // Named sequences
  // ---------------------------------------------------------------------

  /** A named sequence runs the registered steps in order; an unregistered name raises. */
  lemma NamedSequenceExpands(env: Env, req: Request, s: Step, st: State, depth: nat)
    requires depth > 0 && s.kind == NamedSequence && "name" in s.attrs
    ensures s.attrs["name"] in env.named ==>
      Exec(env, req, s, st, depth) == ExecSeq(env, req, env.named[s.attrs["name"]], st, depth - 1)
    ensures s.attrs["name"] !in env.named ==>
      Exec(env, req, s, st, depth) == Run(Fail(UndefinedSequence(s.attrs["name"])), st)
  {
  }

  /**
    There is no cycle check: a sequence that invokes itself recurses until
    the call stack is exhausted, and the step fails with the recursion
    error, having changed nothing.
   */
  lemma {:induction false} SelfReferenceExhaustsStack(env: Env, req: Request, s: Step, st: State, depth: nat)
    requires s.kind == NamedSequence && "name" in s.attrs
    requires s.attrs["name"] in env.named && env.named[s.attrs["name"]] == [s]
    ensures Exec(env, req, s, st, depth) == Run(Fail(RecursionLimit), st)
  {
    if depth > 0 {
      SelfReferenceExhaustsStack(env, req, s, st, depth - 1);
      assert [s][..0] == [];
      assert ExecSeq(env, req, [s], st, depth - 1) == Exec(env, req, s, st, depth - 1);
    }
  }

  // ---------------------------------------------------------------------
  // Random ids
  // ---------------------------------------------------------------------

  /** Resolving a value draws one id for `$random_id` and none otherwise. */
  lemma ResolveDraws(env: Env, value: string, st: State, element: Option<Scope>)
    ensures Resolve(env, value, st, element).state.idsDrawn ==
      if StartsWith(value, "$random_id") then st.idsDrawn + 1 else st.idsDrawn
  {
  }

  /** Writing a Property target never touches the id counter. */
  lemma WriteTargetKeepsIds(sc: Scope, name: string, v: Value, st: State)
    requires WriteTarget(sc, name, v, st).Ok?
    ensures WriteTarget(sc, name, v, st).value.idsDrawn == st.idsDrawn
  {
  }

  /** A Property entry never moves the id counter back, and a `$random_id` value draws exactly one id. */
  lemma PropStepDraws(env: Env, action: Option<string>, exp: string, value: string, st: State, element: Option<Scope>)
    ensures PropStep(env, action, exp, value, st, element).state.idsDrawn >= st.idsDrawn
    ensures ParseTarget(exp).Ok? && StartsWith(value, "$random_id") ==>
      PropStep(env, action, exp, value, st, element).state.idsDrawn == st.idsDrawn + 1
  {
    if ParseTarget(exp).Ok? {
      var target := ParseTarget(exp).value;
      var res := Resolve(env, value, st, element);
      ResolveDraws(env, value, st, element);
      if res.value.Ok? && action.Some? && action.value == "set" && WriteTarget(target.0, target.1, res.value.value, res.state).Ok? {
        WriteTargetKeepsIds(target.0, target.1, res.value.value, res.state);
      }
    }
  }

  lemma {:induction false} PropLoopDraws(env: Env, action: Option<string>, es: seq<(string, string)>, st: State)
    ensures PropLoop(env, action, es, st).state.idsDrawn >= st.idsDrawn
  {
    if es != [] {
      var init := es[..|es| - 1];
      PropLoopDraws(env, action, init, st);
      var r := PropLoop(env, action, init, st);
      PropStepDraws(env, action, es[|es| - 1].0, es[|es| - 1].1, r.state, r.element);
    }
  }

  /**
    Running a step never decreases the number of ids drawn, so ids drawn
    later in an exchange come from later positions of the id source; with
    an injective source every `$random_id` value of an exchange is fresh.
   */
  lemma {:induction false} ExecDrawsForward(env: Env, req: Request, s: Step, st: State, depth: nat)
    ensures Exec(env, req, s, st, depth).state.idsDrawn >= st.idsDrawn
    decreases depth, 0
  {
    if depth > 0 {
      match s.kind
      case Property =>
        if "expression" in s.attrs && "params" in s.attrs {
          PropLoopDraws(env, Attr(s, "action"), Entries(s.attrs["expression"], s.attrs["params"]), st);
        }
      case Switch => ExecSeqDrawsForward(env, req, s.children, SwitchSetup(req, s, st, env.unquote), depth - 1);
      case Case => ExecSeqDrawsForward(env, req, s.children, st, depth - 1);
      case Default => ExecSeqDrawsForward(env, req, s.children, st, depth - 1);
      case Payload =>
        if "name" in s.attrs {
          ExecSeqDrawsForward(env, req, s.children, st.(attrs := st.attrs[s.attrs["name"] := VDict(map[])]), depth - 1);
        }
      case ResponseMediator => ExecSeqDrawsForward(env, req, s.children, ResponseSetup(env, s, st).state, depth - 1);
      case NamedSequence =>
        if "name" in s.attrs && s.attrs["name"] in env.named {
          ExecSeqDrawsForward(env, req, env.named[s.attrs["name"]], st, depth - 1);
        }
      case _ =>
    }
  }

  lemma {:induction false} ExecSeqDrawsForward(env: Env, req: Request, ss: seq<Step>, st: State, depth: nat)
    ensures ExecSeq(env, req, ss, st, depth).state.idsDrawn >= st.idsDrawn
    decreases depth, |ss| + 1
  {
    if ss != [] {
      var init := ss[..|ss| - 1];
      ExecSeqDrawsForward(env, req, init, st, depth);
      ExecDrawsForward(env, req, ss[|ss| - 1], ExecSeq(env, req, init, st, depth).state, depth);
    }
  }
}
