/**
 * A run of precondition checks. Each call to Preconditions.checkArgument or
 * Preconditions.checkState in a method body is one Check; the checks run in
 * the order they are written, and the first one whose condition is false
 * throws, so none after it runs.
 */
module Preconditions {
  import opened NdTypes

  /** One check: whether its condition holds, and what it throws if not. */
  datatype Check = Check(passes: bool, failure: Error)

  /** The exception thrown by the first failing check, or None when every check passes. */
  function FirstFailure(checks: seq<Check>): (r: Option<Error>)
    ensures r.None? <==> forall i | 0 <= i < |checks| :: checks[i].passes
    ensures r.Some? ==>
      exists i | 0 <= i < |checks| ::
        && !checks[i].passes
        && r.value == checks[i].failure
        && forall j | 0 <= j < i :: checks[j].passes
  {
    if checks == [] then None
    else if !checks[0].passes then Some(checks[0].failure)
    else
      FirstFailure(checks[1..])
  }

  /** Running two blocks of checks one after the other: the second block only runs if the first passes. */
  lemma {:induction false} FirstFailureAppend(first: seq<Check>, second: seq<Check>)
    ensures FirstFailure(first + second)
         == if FirstFailure(first).Some? then FirstFailure(first) else FirstFailure(second)
  {
    if first == [] {
      assert first + second == second;
    } else {
      assert (first + second)[0] == first[0];
      assert (first + second)[1..] == first[1..] + second;
      if first[0].passes {
        FirstFailureAppend(first[1..], second);
      }
    }
  }
}
