/** The checker's error-synthesis rule (async_result_handler::check): when the
    session's checker rejects the collected statuses, the error is built from the
    status codes of the terminal replies. */
module Checking {
  import opened Replies

  /** Number of successful (status 0) commands. */
  function Successes(s: seq<Command>): (n: nat)
    ensures n <= |s|
    ensures n == 0 <==> forall i :: 0 <= i < |s| ==> s[i].status != 0
  {
    if s == [] then 0 else Successes(s[..|s| - 1]) + (if s[|s| - 1].status == 0 then 1 else 0)
  }

  /** The first command whose status is not 0, if there is one. */
  function FirstFailure(s: seq<Command>): (r: Option<Command>)
    ensures r.None? <==> forall i :: 0 <= i < |s| ==> s[i].status == 0
    ensures r.Some? ==> exists k :: 0 <= k < |s| && s[k] == r.value && r.value.status != 0 &&
                                    forall j :: 0 <= j < k ==> s[j].status == 0
  {
    if s == [] then None
    else
      var r' := FirstFailure(s[..|s| - 1]);
      if r'.Some? then r'
      else if s[|s| - 1].status != 0 then Some(s[|s| - 1])
      else None
  }

  /** The loop of check: counts the successes and remembers the first failed
      command. The source keeps that command in a variable whose status 0 means
      "none yet"; here that is None. */
  method ScanStatuses(statuses: seq<Command>) returns (success: nat, command: Option<Command>)
    ensures success == Successes(statuses)
    ensures command == FirstFailure(statuses)
  {
    success := 0;
    command := None;
    var i := 0;
    while i < |statuses|
      invariant 0 <= i <= |statuses|
      invariant success == Successes(statuses[..i])
      invariant command == FirstFailure(statuses[..i])
    {
      if statuses[i].status == 0 {
        success := success + 1;
      } else if command.None? {
        command := Some(statuses[i]);
      }
      assert statuses[..i + 1][..i] == statuses[..i];
      i := i + 1;
    }
    assert statuses[..i] == statuses;
  }

  /** The error check leaves behind when the checker rejected the statuses:
      no success and a failed command gives that command's error, no success and
      no failed command gives -ENXIO ("insufficient results"), and at least one
      success leaves the current error as it was. With no success the error is
      always a real (non-zero) one. */
  function CheckedError(statuses: seq<Command>, current: ErrorInfo): (e: ErrorInfo)
    ensures Successes(statuses) > 0 ==> e == current
    ensures Successes(statuses) == 0 ==> e.Err? && e.code != 0
  {
    if Successes(statuses) == 0 then
      match FirstFailure(statuses)
      case Some(c) => CommandError(c)
      case None => Err(-ENXIO)
    else current
  }

  /** With no success, the first failed command is simply the first one. */
  lemma NoSuccessFirstIsFailure(s: seq<Command>)
    requires Successes(s) == 0 && |s| > 0
    ensures FirstFailure(s) == Some(s[0]) && s[0].status != 0
  {
  }

  /** The three outcomes of a rejected check, stated on the status list. */
  lemma CheckedErrorCases(s: seq<Command>, current: ErrorInfo)
    ensures Successes(s) > 0 ==> CheckedError(s, current) == current
    ensures Successes(s) == 0 && |s| > 0 ==>
              CheckedError(s, current) == Err(s[0].status) && s[0].status != 0
    ensures s == [] ==> CheckedError(s, current) == Err(-ENXIO)
  {
    if Successes(s) == 0 && |s| > 0 {
      NoSuccessFirstIsFailure(s);
    }
  }

  /** "Every status is 0 and none is 0" only happens for an empty list, so the
      "insufficient results" branch is taken exactly when no terminal reply arrived. */
  lemma {:induction false} InsufficientOnlyWhenEmpty(s: seq<Command>)
    requires Successes(s) == 0
    ensures FirstFailure(s).None? <==> s == []
  {
    if s != [] {
      NoSuccessFirstIsFailure(s);
    }
  }
}
