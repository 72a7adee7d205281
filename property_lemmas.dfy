/**
  Properties of the Property mediator: how `expression_dict` pairs
  expressions with values, how an expression names its target, how
  `get_element` carries over from one entry to the next, and what an
  action other than `set` changes.
 */
module PropertyLemmas {
  import opened Values
  import opened Strings
  import opened Http
  import opened Contexts
  import opened Semantics
  import opened Sequencing

  // ---------------------------------------------------------------------
  // Dictionaries kept as their entries
  // ---------------------------------------------------------------------

  /** The keys of a list of entries. */
  function KeySet(es: seq<(string, string)>): set<string>
  {
    if es == [] then {} else {es[0].0} + KeySet(es[1..])
  }

  /** No key occurs twice. */
  predicate DistinctKeys(es: seq<(string, string)>)
  {
    es == [] || (es[0].0 !in KeySet(es[1..]) && DistinctKeys(es[1..]))
  }

  /** `d.get(k)`: the value of the first entry for `k`. */
  function Lookup(es: seq<(string, string)>, k: string): Option<string>
  {
    if es == [] then None
    else if es[0].0 == k then Some(es[0].1)
    else Lookup(es[1..], k)
  }

  /** The value of the last pair for `k`, the one `dict(pairs)` keeps. */
  function LastValue(pairs: seq<(string, string)>, k: string): Option<string>
  {
    if pairs == [] then None
    else if pairs[|pairs| - 1].0 == k then Some(pairs[|pairs| - 1].1)
    else LastValue(pairs[..|pairs| - 1], k)
  }

  /** `d[k] = v` adds `k` to the keys, maps it to `v` and leaves every other key's value alone. */
  lemma {:induction false} AssocUpdates(es: seq<(string, string)>, k: string, v: string, j: string)
    ensures KeySet(Assoc(es, k, v)) == KeySet(es) + {k}
    ensures Lookup(Assoc(es, k, v), j) == if j == k then Some(v) else Lookup(es, j)
    ensures DistinctKeys(es) ==> DistinctKeys(Assoc(es, k, v))
  {
    if es != [] {
      if es[0].0 == k {
        assert Assoc(es, k, v)[1..] == es[1..];
      } else {
        AssocUpdates(es[1..], k, v, j);
        assert Assoc(es, k, v)[1..] == Assoc(es[1..], k, v);
      }
    }
  }

  /**
    `dict(pairs)` has each key once, has exactly the keys of the pairs, and
    maps each to the value of its last pair: a later duplicate wins.
   */
  lemma {:induction false} DictOfLastWins(pairs: seq<(string, string)>, k: string)
    ensures DistinctKeys(DictOf(pairs))
    ensures KeySet(DictOf(pairs)) == KeySet(pairs)
    ensures Lookup(DictOf(pairs), k) == LastValue(pairs, k)
  {
    if pairs != [] {
      var init := pairs[..|pairs| - 1];
      var last := pairs[|pairs| - 1];
      DictOfLastWins(init, k);
      AssocUpdates(DictOf(init), last.0, last.1, k);
      KeySetSnoc(init, last);
      assert pairs == init + [last];
    }
  }

  /** Appending a pair adds its key. */
  lemma {:induction false} KeySetSnoc(es: seq<(string, string)>, e: (string, string))
    ensures KeySet(es + [e]) == KeySet(es) + {e.0}
  {
    if es != [] {
      KeySetSnoc(es[1..], e);
      assert (es + [e])[1..] == es[1..] + [e];
    }
  }

  /** The last pair for a key is the one at an index that no later pair repeats. */
  lemma {:induction false} LastValueAt(pairs: seq<(string, string)>, i: nat)
    requires i < |pairs|
    requires forall j :: i < j < |pairs| ==> pairs[j].0 != pairs[i].0
    ensures LastValue(pairs, pairs[i].0) == Some(pairs[i].1)
  {
    if i < |pairs| - 1 {
      var init := pairs[..|pairs| - 1];
      LastValueAt(init, i);
    }
  }

  /**
    `expression_dict`: the i-th expression is paired with the i-th
    parameter, unless a later expression repeats it; pieces beyond the
    shorter of the two lists are dropped.
   */
  lemma EntriesPairByPosition(expression: string, params: string, i: nat)
    requires i < |Split(expression, ',')| && i < |Split(params, ',')|
    requires forall j :: i < j < |Split(expression, ',')| ==> Split(expression, ',')[j] != Split(expression, ',')[i]
    ensures Lookup(Entries(expression, params), Split(expression, ',')[i]) == Some(Split(params, ',')[i])
  {
    var z := Zip(Split(expression, ','), Split(params, ','));
    LastValueAt(z, i);
    DictOfLastWins(z, Split(expression, ',')[i]);
  }

  /** Only the first min(n, m) expressions become entries. */
  lemma EntriesKeys(expression: string, params: string)
    ensures DistinctKeys(Entries(expression, params))
    ensures forall k :: k in KeySet(Entries(expression, params)) <==>
      exists i :: 0 <= i < |Split(expression, ',')| && i < |Split(params, ',')| && Split(expression, ',')[i] == k
  {
    var z := Zip(Split(expression, ','), Split(params, ','));
    DictOfLastWins(z, "");
    forall k ensures k in KeySet(z) <==> exists i :: 0 <= i < |z| && z[i].0 == k {
      KeySetIndex(z, k);
    }
  }

  lemma {:induction false} KeySetIndex(es: seq<(string, string)>, k: string)
    ensures k in KeySet(es) <==> exists i :: 0 <= i < |es| && es[i].0 == k
  {
    if es != [] {
      KeySetIndex(es[1..], k);
      if k in KeySet(es[1..]) {
        var i :| 0 <= i < |es[1..]| && es[1..][i].0 == k;
        assert es[i + 1].0 == k;
      }
      if exists i :: 0 <= i < |es| && es[i].0 == k {
        var i :| 0 <= i < |es| && es[i].0 == k;
        if i > 0 { assert es[1..][i - 1].0 == k; }
      }
    }
  }

  // ---------------------------------------------------------------------
  // Targets
  // ---------------------------------------------------------------------

  /** The name `scope` uses in an expression. */
  function ScopeName(sc: Scope): (n: string)
    ensures ScopeOf(n) == Some(sc)
  {
    match sc
    case ContextScope => "context"
    case RequestScope => "request"
    case ResponseScope => "response"
    case HeaderScope => "header"
  }

  /** `$scope.name` names that scope and that attribute, for any name without a `.`. */
  lemma ParseTargetRoundTrip(sc: Scope, name: string)
    requires '.' !in name
    ensures ParseTarget("$" + ScopeName(sc) + "." + name) == Ok((sc, name))
  {
    var n := ScopeName(sc);
    var exp := "$" + n + "." + name;
    assert '.' !in "$" + n && '$' !in n;
    SplitJoin(["$" + n, name], '.');
    assert Join(["$" + n, name], '.') == exp;
    SplitJoin(["", n], '$');
    assert Join(["", n], '$') == "$" + n;
  }

  /** An expression without a `.` cannot be written to. */
  lemma ParseTargetNeedsDot(exp: string)
    requires '.' !in exp
    ensures ParseTarget(exp) == Err(BadExpression(exp))
  {
    SplitJoin([exp], '.');
  }

  /** An expression whose scope is none of the four names is refused. */
  lemma ParseTargetUnknownScope(scope: string, name: string)
    requires '.' !in scope && '$' !in scope && '.' !in name && ScopeOf(scope).None?
    ensures ParseTarget("$" + scope + "." + name) == Err(UnknownScope(scope))
  {
    var exp := "$" + scope + "." + name;
    SplitJoin(["$" + scope, name], '.');
    assert Join(["$" + scope, name], '.') == exp;
    SplitJoin(["", scope], '$');
    assert Join(["", scope], '$') == "$" + scope;
  }

  /**
    `set` with a literal value writes the target: a context attribute, a
    request attribute (except the read-only `GET`), a response attribute, or
    one entry of the response headers, which must be a dict.
   */
  lemma LiteralSetWritesTarget(env: Env, sc: Scope, name: string, value: string, st: State, element: Option<Scope>)
    requires '.' !in name && !StartsWith(value, "$random_id") && !IsLookupValue(value)
    ensures var r := PropStep(env, Some("set"), "$" + ScopeName(sc) + "." + name, value, st, element);
      && r.element == element
      && (sc == ContextScope ==> r == PropRun(Continue, st.(attrs := st.attrs[name := VStr(value)]), element))
      && (sc == RequestScope && name == "GET" ==> r == PropRun(Fail(ReadOnlyAttribute("GET")), st, element))
      && (sc == RequestScope && name != "GET" ==>
            r == PropRun(Continue, st.(requestAttrs := st.requestAttrs[name := VStr(value)]), element))
      && (sc == ResponseScope ==> r.outcome == Continue && r.state == RespWrite(st, name, VStr(value)))
      && (sc == HeaderScope && st.response.headers.VDict? ==>
            r.outcome == Continue
            && r.state == st.(response := st.response.(headers := VDict(st.response.headers.items[name := VStr(value)]))))
      && (sc == HeaderScope && !st.response.headers.VDict? ==> r == PropRun(Fail(NotADict("headers")), st, element))
  {
    ParseTargetRoundTrip(sc, name);
  }

  /**
    Setting `$request.query_string` to a literal changes what later reads of
    `$request.GET` yield: the pairs of the new query string.
   */
  lemma SetQueryStringRefreshesGet(env: Env, req: Request, value: string, st: State, element: Option<Scope>)
    requires !StartsWith(value, "$random_id") && !IsLookupValue(value)
    ensures var r := PropStep(env, Some("set"), "$" + ScopeName(RequestScope) + "." + "query_string", value, st, element);
      r.outcome == Continue && RequestValue(req, r.state, "GET", env.unquote) == Some(GetDict(value, env.unquote))
  {
    LiteralSetWritesTarget(env, RequestScope, "query_string", value, st, element);
    var st1 := st.(requestAttrs := st.requestAttrs["query_string" := VStr(value)]);
    assert RequestValue(req, st1, "GET", env.unquote) == Some(GetDict(value, env.unquote));
  }

  // ---------------------------------------------------------------------
  // get_element
  // ---------------------------------------------------------------------

  /** Splitting `"$" + n + "." + name` at the dot, for a scope word `n`. */
  lemma SplitLookup(n: string, name: string)
    requires '.' !in n && '.' !in name
    ensures Split("$" + n + "." + name, '.') == ["$" + n, name]
  {
    assert '.' !in "$" + n;
    SplitJoin(["$" + n, name], '.');
    assert Join(["$" + n, name], '.') == "$" + n + "." + name;
  }

  /** A `$context.` value reads the context attribute (None when absent) and binds `get_element` to the context. */
  lemma ContextValueBinds(env: Env, name: string, st: State, element: Option<Scope>)
    requires '.' !in name
    ensures Resolve(env, "$context." + name, st, element) ==
      Resolved(Ok(GetOr(st.attrs, name, VNone)), st, Some(ContextScope))
  {
    var v := "$context." + name;
    assert v == "$" + "context" + "." + name;
    SplitLookup("context", name);
    assert !StartsWith(v, "$random_id") by { assert v[1] != "$random_id"[1]; }
    assert StartsWith(v, "$context.") by { assert v[..9] == "$context."; }
  }

  /**
    A `$request.` value does not rebind `get_element`: it reads the name
    from whatever the previous lookup bound, and raises when nothing was
    bound yet.
   */
  lemma RequestValueUsesPreviousElement(env: Env, name: string, st: State, element: Option<Scope>)
    requires '.' !in name
    ensures element.None? ==> Resolve(env, "$request." + name, st, element) == Resolved(Err(UnboundElement), st, None)
    ensures element.Some? ==>
      Resolve(env, "$request." + name, st, element) == Resolved(Ok(ReadScope(element.value, name, st)), st, element)
  {
    var v := "$request." + name;
    assert v == "$" + "request" + "." + name;
    SplitLookup("request", name);
    assert !StartsWith(v, "$random_id") by { assert v[2] != "$random_id"[2]; }
    assert StartsWith(v, "$request.") by { assert v[..9] == "$request."; }
  }

  /** A Property step whose first entry reads `$request.` raises before writing anything. */
  lemma FirstRequestValueRaises(env: Env, action: Option<string>, es: seq<(string, string)>, name: string, st: State)
    requires |es| >= 1 && ParseTarget(es[0].0).Ok? && es[0].1 == "$request." + name && '.' !in name
    ensures PropLoop(env, action, es, st) == PropRun(Fail(UnboundElement), st, None)
  {
    RequestValueUsesPreviousElement(env, name, st, None);
    var first := PropStep(env, action, es[0].0, es[0].1, st, None);
    assert first == PropRun(Fail(UnboundElement), st, None);
    assert es[..1][..0] == [] && es[..1][0] == es[0];
    assert PropLoop(env, action, [], st) == PropRun(Continue, st, None);
    assert PropLoop(env, action, es[..1], st) == first;
    PropLoopStops(env, action, es, 1, st);
  }

  // ---------------------------------------------------------------------
  // Actions other than set
  // ---------------------------------------------------------------------

  /**
    With an action other than `set` the entries are evaluated but nothing
    is written: the only change is the ids drawn by `$random_id` values.
   */
  lemma {:induction false} OtherActionWritesNothing(env: Env, a: string, es: seq<(string, string)>, st: State)
    requires a != "set"
    ensures var r := PropLoop(env, Some(a), es, st);
      r.state == st.(idsDrawn := r.state.idsDrawn)
  {
    if es != [] {
      OtherActionWritesNothing(env, a, es[..|es| - 1], st);
      var r := PropLoop(env, Some(a), es[..|es| - 1], st);
      var e := es[|es| - 1];
      OtherActionStepWritesNothing(env, a, e.0, e.1, r.state, r.element);
    }
  }

  lemma OtherActionStepWritesNothing(env: Env, a: string, exp: string, value: string, st: State, element: Option<Scope>)
    requires a != "set"
    ensures var r := PropStep(env, Some(a), exp, value, st, element);
      r.state == st.(idsDrawn := r.state.idsDrawn)
  {
    if ParseTarget(exp).Ok? {
      ResolveOnlyDraws(env, value, st, element);
    }
  }

  /** Resolving a value changes nothing but the id counter. */
  lemma ResolveOnlyDraws(env: Env, value: string, st: State, element: Option<Scope>)
    ensures Resolve(env, value, st, element).state == st.(idsDrawn := Resolve(env, value, st, element).state.idsDrawn)
  {
    if StartsWith(value, "$random_id") {
      assert Resolve(env, value, st, element).state == st.(idsDrawn := st.idsDrawn + 1);
    } else {
      assert Resolve(env, value, st, element).state == st;
    }
  }
}
