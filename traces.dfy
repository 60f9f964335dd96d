/**
  A run of external commands (shell commands, compiler calls) that stops at
  the first one that fails: every `sh` and every `sass.compile` raises on
  failure and nothing in a batch run catches it. Whether a command succeeds
  is an abstract predicate `ok`.
 */
module Traces {

  /** The index of the first element that fails, or |xs| when none does. */
  function FirstFailure<T>(xs: seq<T>, ok: T -> bool): (k: nat)
    ensures k <= |xs|
    ensures forall j :: 0 <= j < k ==> ok(xs[j])
    ensures k < |xs| ==> !ok(xs[k])
  {
    if xs == [] then 0
    else if !ok(xs[0]) then 0
    else 1 + FirstFailure(xs[1..], ok)
  }

  predicate Succeeds<T>(xs: seq<T>, ok: T -> bool) {
    FirstFailure(xs, ok) == |xs|
  }

  /** The commands that are actually issued: all of them, or those up to and including the first failure. */
  function Attempted<T>(xs: seq<T>, ok: T -> bool): (a: seq<T>)
    ensures a <= xs
    ensures Succeeds(xs, ok) ==> a == xs
    ensures !Succeeds(xs, ok) ==> |a| == FirstFailure(xs, ok) + 1 && !ok(a[|a| - 1])
  {
    var k := FirstFailure(xs, ok);
    if k == |xs| then xs else xs[..k + 1]
  }

  /** The first failure is determined by its defining properties. */
  lemma FirstFailureUnique<T>(xs: seq<T>, ok: T -> bool, k: nat)
    requires k <= |xs|
    requires forall j :: 0 <= j < k ==> ok(xs[j])
    requires k < |xs| ==> !ok(xs[k])
    ensures FirstFailure(xs, ok) == k
  {
  }

  /** Running `xs` then `ys` fails inside `xs` or, if `xs` succeeds, runs `ys`. */
  lemma AttemptedAppend<T>(xs: seq<T>, ys: seq<T>, ok: T -> bool)
    ensures Succeeds(xs, ok) ==>
      Attempted(xs + ys, ok) == xs + Attempted(ys, ok) && (Succeeds(xs + ys, ok) <==> Succeeds(ys, ok))
    ensures !Succeeds(xs, ok) ==>
      Attempted(xs + ys, ok) == Attempted(xs, ok) && !Succeeds(xs + ys, ok)
  {
    var k := FirstFailure(xs, ok);
    if k == |xs| {
      var m := FirstFailure(ys, ok);
      FirstFailureUnique(xs + ys, ok, k + m);
      if m < |ys| {
        assert (xs + ys)[..k + m + 1] == xs + ys[..m + 1];
      }
    } else {
      FirstFailureUnique(xs + ys, ok, k);
      assert (xs + ys)[..k + 1] == xs[..k + 1];
    }
  }

  /** One step of a loop that issues `xs` in order: after `i` successes, `xs[i]` fails. */
  lemma AttemptedStopsAt<T>(xs: seq<T>, ok: T -> bool, i: nat)
    requires i < |xs|
    requires forall j :: 0 <= j < i ==> ok(xs[j])
    requires !ok(xs[i])
    ensures Attempted(xs, ok) == xs[..i + 1] && !Succeeds(xs, ok)
  {
    FirstFailureUnique(xs, ok, i);
  }

  /** A loop that issued every element of `xs` without failure has run all of it. */
  lemma AttemptedAll<T>(xs: seq<T>, ok: T -> bool)
    requires forall j :: 0 <= j < |xs| ==> ok(xs[j])
    ensures Attempted(xs, ok) == xs && Succeeds(xs, ok)
  {
    FirstFailureUnique(xs, ok, |xs|);
  }

  /**
    A pipeline in stages: after `issued` has run without failure, the next
    stage either fails, and the run ends there, or succeeds and is added.
   */
  lemma Advance<T>(plan: seq<T>, issued: seq<T>, stage: seq<T>, remaining: seq<T>, ok: T -> bool)
    requires plan == issued + (stage + remaining)
    requires Succeeds(issued, ok)
    ensures plan == (issued + stage) + remaining
    ensures !Succeeds(stage, ok) ==>
      Attempted(plan, ok) == issued + Attempted(stage, ok) && !Succeeds(plan, ok)
    ensures Succeeds(stage, ok) ==> Succeeds(issued + stage, ok)
  {
    assert issued + (stage + remaining) == (issued + stage) + remaining;
    if Succeeds(stage, ok) {
      AttemptedAppend(issued, stage, ok);
    } else {
      AttemptedAppend(stage, remaining, ok);
      AttemptedAppend(issued, stage + remaining, ok);
    }
  }
}
