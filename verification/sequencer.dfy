/** The driver's entry points are straight-line code in which each fallible
    call is followed by `if (err < 0) return err;` (or `if (ret) return ret;`)
    and every other call's result is ignored. Such a body is a script of
    steps; `Run` executes a script against an oracle, recording each call as
    it is made and stopping at the first call that fails. */
module Sequencer {
  import opened Trace

  datatype Step =
    | Try(e: Event)      // a negative result is returned at once
    | TryZero(e: Event)  // any nonzero result is returned at once
    | Do(e: Event)       // the result is ignored, or the call returns nothing

  /** What an entry point returns, and the calls it made on the way. */
  datatype Outcome = Outcome(code: int, trace: seq<Event>)

  predicate Fails(o: Oracle, s: Step)
  {
    match s
    case Try(e) => o(e) < 0
    case TryZero(e) => o(e) != 0
    case Do(_) => false
  }

  /** The calls a script makes when nothing fails. */
  function Events(s: seq<Step>): (t: seq<Event>)
    ensures |t| == |s|
    ensures forall i :: 0 <= i < |s| ==> t[i] == s[i].e
  {
    seq(|s|, i requires 0 <= i < |s| => s[i].e)
  }

  /** No step of the script fails. */
  predicate Succeeds(o: Oracle, s: seq<Step>)
  {
    forall i :: 0 <= i < |s| ==> !Fails(o, s[i])
  }

  /** Step `k` is the first step of the script that fails. */
  predicate FailsFirstAt(o: Oracle, s: seq<Step>, k: int)
  {
    0 <= k < |s| && Fails(o, s[k]) && Succeeds(o, s[..k])
  }

  /** `r` is what running script `s` against `o` gives: its trace is a
      prefix of the calls the script would make; its code is 0 exactly
      when no step fails, in which case the trace is all of those calls;
      and otherwise the code is the result of the first failing call, which
      ends the trace. */
  predicate Ran(o: Oracle, s: seq<Step>, r: Outcome)
  {
    && |r.trace| <= |s| && r.trace == Events(s)[..|r.trace|]
    && (r.code == 0 <==> Succeeds(o, s))
    && (r.code == 0 ==> r.trace == Events(s))
    && (r.code != 0 ==>
          0 < |r.trace| && FailsFirstAt(o, s, |r.trace| - 1) && r.code == o(s[|r.trace| - 1].e))
  }

  /** Runs a script: each step's call is made in turn until one fails. */
  function Run(o: Oracle, s: seq<Step>): (r: Outcome)
    ensures Ran(o, s, r)
    decreases |s|
  {
    if |s| == 0 then Outcome(0, [])
    else if Fails(o, s[0]) then
      RunHead(o, s);
      Outcome(o(s[0].e), [s[0].e])
    else
      var rest := Run(o, s[1..]);
      RunCons(o, s, rest);
      Outcome(rest.code, [s[0].e] + rest.trace)
  }

  /** A script whose first step fails stops there. */
  lemma RunHead(o: Oracle, s: seq<Step>)
    requires 0 < |s| && Fails(o, s[0])
    ensures Ran(o, s, Outcome(o(s[0].e), [s[0].e]))
  {
  }

  /** How the outcome of a script's tail extends to the script once its
      first step has succeeded. */
  lemma RunCons(o: Oracle, s: seq<Step>, rest: Outcome)
    requires 0 < |s| && !Fails(o, s[0])
    requires Ran(o, s[1..], rest)
    ensures Ran(o, s, Outcome(rest.code, [s[0].e] + rest.trace))
  {
    var r := Outcome(rest.code, [s[0].e] + rest.trace);
    EventsCons(s);
    PrefixCons(s[0].e, Events(s[1..]), |rest.trace|);
    assert r.trace == Events(s)[..|r.trace|];
    SucceedsCons(o, s);
    assert r.code == 0 <==> Succeeds(o, s);
    if rest.code != 0 {
      var k := |rest.trace| - 1;
      FailsFirstCons(o, s, k);
      assert s[1..][k] == s[k + 1];
    }
  }

  lemma PrefixCons<T>(x: T, a: seq<T>, m: nat)
    requires m <= |a|
    ensures ([x] + a)[..m + 1] == [x] + a[..m]
  {
  }

  lemma EventsCons(s: seq<Step>)
    requires 0 < |s|
    ensures Events(s) == [s[0].e] + Events(s[1..])
  {
  }

  lemma SucceedsCons(o: Oracle, s: seq<Step>)
    requires 0 < |s|
    ensures Succeeds(o, s) <==> !Fails(o, s[0]) && Succeeds(o, s[1..])
  {
    assert forall i :: 1 <= i < |s| ==> s[1..][i - 1] == s[i];
  }

  lemma FailsFirstCons(o: Oracle, s: seq<Step>, k: int)
    requires 0 < |s| && !Fails(o, s[0]) && FailsFirstAt(o, s[1..], k)
    ensures FailsFirstAt(o, s, k + 1)
  {
    var p := s[..k + 1];
    assert p[0] == s[0];
    assert forall i :: 0 < i < |p| ==> p[i] == s[1..][..k][i - 1];
  }

  /** A script stops exactly at its first failing step. */
  lemma RunStopsAt(o: Oracle, s: seq<Step>, k: int)
    requires FailsFirstAt(o, s, k)
    ensures Run(o, s).code == o(s[k].e) != 0
    ensures Run(o, s).trace == Events(s[..k + 1])
  {
    var r := Run(o, s);
    assert !Succeeds(o, s);
    FirstFailureUnique(o, s, k, |r.trace| - 1);
    assert Events(s)[..k + 1] == Events(s[..k + 1]);
  }

  lemma FirstFailureUnique(o: Oracle, s: seq<Step>, j: int, k: int)
    requires FailsFirstAt(o, s, j) && FailsFirstAt(o, s, k)
    ensures j == k
  {
  }

  /** The script of a body in which each call that `fallible` picks is
      followed by `if (err < 0) return err;` and every other call's result
      is ignored. */
  function Script(t: seq<Event>, fallible: Event -> bool): (s: seq<Step>)
    ensures Events(s) == t
    ensures forall i :: 0 <= i < |s| ==> s[i] == (if fallible(t[i]) then Try(t[i]) else Do(t[i]))
  {
    seq(|t|, i requires 0 <= i < |t| => if fallible(t[i]) then Try(t[i]) else Do(t[i]))
  }

  /** Every call of `t` that `fallible` picks succeeds under `o`. */
  predicate AllSucceed(o: Oracle, t: seq<Event>, fallible: Event -> bool)
  {
    forall i :: 0 <= i < |t| && fallible(t[i]) ==> o(t[i]) >= 0
  }

  /** Running such a body: the calls made are a prefix of `t`; the result
      is 0 exactly when every fallible call succeeds; otherwise it is the
      negative result of the last call made, a fallible one, and every
      fallible call before it succeeded. */
  lemma ScriptRun(o: Oracle, t: seq<Event>, fallible: Event -> bool)
    ensures var r := Run(o, Script(t, fallible));
      && r.code <= 0
      && (r.code == 0 <==> AllSucceed(o, t, fallible))
      && |r.trace| <= |t| && r.trace == t[..|r.trace|]
      && (r.code == 0 ==> r.trace == t)
      && (r.code != 0 ==>
            && 0 < |r.trace|
            && fallible(r.trace[|r.trace| - 1])
            && r.code == o(r.trace[|r.trace| - 1]) < 0
            && AllSucceed(o, r.trace[..|r.trace| - 1], fallible))
  {
    var s := Script(t, fallible);
    var r := Run(o, s);
    ScriptSucceeds(o, t, fallible);
    if r.code != 0 {
      var m := |r.trace| - 1;
      ScriptFails(o, t, fallible, m);
      assert r.trace[..m] == t[..m];
    }
  }

  lemma ScriptSucceeds(o: Oracle, t: seq<Event>, fallible: Event -> bool)
    ensures Succeeds(o, Script(t, fallible)) <==> AllSucceed(o, t, fallible)
  {
    var s := Script(t, fallible);
    if Succeeds(o, s) {
      forall i | 0 <= i < |t| && fallible(t[i])
        ensures o(t[i]) >= 0
      {
        assert !Fails(o, s[i]);
      }
    }
  }

  lemma ScriptFails(o: Oracle, t: seq<Event>, fallible: Event -> bool, m: int)
    requires FailsFirstAt(o, Script(t, fallible), m)
    ensures 0 <= m < |t| && fallible(t[m]) && o(t[m]) < 0
    ensures AllSucceed(o, t[..m], fallible)
  {
    var s := Script(t, fallible);
    forall i | 0 <= i < m && fallible(t[..m][i])
      ensures o(t[..m][i]) >= 0
    {
      assert s[..m][i] == s[i];
    }
  }

  /** Such a body stops at the first fallible call that fails. */
  lemma ScriptStopsAt(o: Oracle, t: seq<Event>, fallible: Event -> bool, k: int)
    requires 0 <= k < |t| && fallible(t[k]) && o(t[k]) < 0
    requires AllSucceed(o, t[..k], fallible)
    ensures Run(o, Script(t, fallible)) == Outcome(o(t[k]), t[..k + 1])
  {
    var s := Script(t, fallible);
    forall i | 0 <= i < k
      ensures !Fails(o, s[..k][i])
    {
      assert s[..k][i] == s[i] && t[..k][i] == t[i];
    }
    RunStopsAt(o, s, k);
    assert Events(s[..k + 1]) == t[..k + 1];
  }

  /** No call's result is checked. */
  predicate Unchecked(e: Event)
  {
    false
  }

  /** A body that ignores every result makes all its calls and returns 0. */
  lemma ScriptIgnoresAll(o: Oracle, t: seq<Event>)
    ensures Run(o, Script(t, Unchecked)) == Outcome(0, t)
  {
    var s := Script(t, Unchecked);
    assert forall i :: 0 <= i < |s| ==> s[i].Do?;
    RunInfallible(o, s);
  }

  /** A script none of whose steps can fail returns 0 under every oracle. */
  lemma RunInfallible(o: Oracle, s: seq<Step>)
    requires forall i :: 0 <= i < |s| ==> s[i].Do?
    ensures Run(o, s) == Outcome(0, Events(s))
  {
  }
}
