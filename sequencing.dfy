/**
  How running a list of steps composes: a list split in two runs as its
  first part followed, if that ended normally, by its second part; and a
  step that raises stops everything after it.  The same holds for the
  entries of a Property step.
 */
module Sequencing {
  import opened Values
  import opened Steps
  import opened Http
  import opened Contexts
  import opened Semantics

  /** Running `a + b` is running `a`, then `b` from where `a` left off if `a` ended normally. */
  lemma {:induction false} ExecSeqAppend(env: Env, req: Request, a: seq<Step>, b: seq<Step>, st: State, depth: nat)
    ensures ExecSeq(env, req, a + b, st, depth) ==
      var r := ExecSeq(env, req, a, st, depth);
      if r.outcome.Continue? then ExecSeq(env, req, b, r.state, depth) else r
    decreases |b|
  {
    if b == [] {
      assert a + b == a;
    } else {
      var init := b[..|b| - 1];
      ExecSeqAppend(env, req, a, init, st, depth);
      assert (a + b)[..|a + b| - 1] == a + init;
    }
  }

  /** An exception from a step stops the remaining steps and propagates unchanged. */
  lemma ExecSeqStops(env: Env, req: Request, ss: seq<Step>, k: nat, st: State, depth: nat)
    requires k <= |ss|
    requires !ExecSeq(env, req, ss[..k], st, depth).outcome.Continue?
    ensures ExecSeq(env, req, ss, st, depth) == ExecSeq(env, req, ss[..k], st, depth)
  {
    assert ss == ss[..k] + ss[k..];
    ExecSeqAppend(env, req, ss[..k], ss[k..], st, depth);
  }

  /** Property entries compose the same way. */
  lemma {:induction false} PropLoopAppend(env: Env, action: Option<string>, a: seq<(string, string)>,
                                          b: seq<(string, string)>, st: State)
    ensures PropLoop(env, action, a + b, st) ==
      var r := PropLoop(env, action, a, st);
      if r.outcome.Continue? then PropLoopFrom(env, action, b, r.state, r.element) else r
    decreases |b|
  {
    if b == [] {
      assert a + b == a;
    } else {
      var init := b[..|b| - 1];
      PropLoopAppend(env, action, a, init, st);
      assert (a + b)[..|a + b| - 1] == a + init;
    }
  }

  /** The Property loop resumed with a given `get_element` binding. */
  function PropLoopFrom(env: Env, action: Option<string>, es: seq<(string, string)>,
                        st: State, element: Option<Scope>): PropRun
  {
    if es == [] then PropRun(Continue, st, element)
    else
      var r := PropLoopFrom(env, action, es[..|es| - 1], st, element);
      var e := es[|es| - 1];
      if r.outcome.Continue? then PropStep(env, action, e.0, e.1, r.state, r.element) else r
  }

  /** A failing entry stops the remaining entries. */
  lemma PropLoopStops(env: Env, action: Option<string>, es: seq<(string, string)>, k: nat, st: State)
    requires k <= |es|
    requires !PropLoop(env, action, es[..k], st).outcome.Continue?
    ensures PropLoop(env, action, es, st) == PropLoop(env, action, es[..k], st)
  {
    assert es == es[..k] + es[k..];
    PropLoopAppend(env, action, es[..k], es[k..], st);
  }
}
