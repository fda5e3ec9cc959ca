/**
 * The reference shape every handler's guards follow: a fixed sequence of
 * checks, each with the failure it reports. A handler answers with the
 * failure of the first check that does not pass, and only when all pass
 * does it reach the service call that changes state.
 */
module Validation {
  import opened Wrappers
  import opened Hive

  /** One guard: whether it passes and what is thrown when it does not. */
  datatype Check = Check(passes: bool, failure: Failure)

  /** The index of the first guard that does not pass, or `|checks|` when all pass. */
  function FirstFailing(checks: seq<Check>): (k: nat)
    ensures k <= |checks|
    ensures forall i :: 0 <= i < k ==> checks[i].passes
    ensures k < |checks| ==> !checks[k].passes
  {
    if |checks| == 0 then 0
    else if !checks[0].passes then 0
    else 1 + FirstFailing(checks[1..])
  }

  /** The failure a guard sequence reports, if any. */
  function FirstFailure(checks: seq<Check>): (r: Option<Failure>)
    ensures r.None? <==> forall i :: 0 <= i < |checks| ==> checks[i].passes
    ensures r.Some? ==> exists k :: 0 <= k < |checks| && !checks[k].passes && checks[k].failure == r.value
  {
    var k := FirstFailing(checks);
    if k < |checks| then Some(checks[k].failure) else None
  }

  /** Unfolds the reference one guard at a time. */
  lemma FirstFailureStep(checks: seq<Check>)
    requires |checks| > 0
    ensures FirstFailure(checks) == if !checks[0].passes then Some(checks[0].failure) else FirstFailure(checks[1..])
  {
  }

  /** The reference on four guards, spelled out. */
  lemma FirstFailureOfFour(a: Check, b: Check, c: Check, d: Check)
    ensures FirstFailure([a, b, c, d]) ==
              if !a.passes then Some(a.failure)
              else if !b.passes then Some(b.failure)
              else if !c.passes then Some(c.failure)
              else if !d.passes then Some(d.failure)
              else None
  {
    var s := [a, b, c, d];
    FirstFailureStep(s);
    assert s[1..] == [b, c, d];
    FirstFailureStep([b, c, d]);
    assert [b, c, d][1..] == [c, d];
    FirstFailureStep([c, d]);
    assert [c, d][1..] == [d];
    FirstFailureStep([d]);
    assert [d][1..] == [];
  }
}
