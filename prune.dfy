/** The `pod prune` command: remove every stopped pod, print the id of each
    pod removed and report the failures together at the end. */
module Pods {
  import opened Common

  /** The engine's answer for one pod: its id and the error removing it
      gave (`None` when it was removed). */
  datatype PodPruneReport = PodPruneReport(id: string, err: Option<Error>)

  /** The ids of the pods removed, in response order. */
  function SucceededIds(responses: seq<PodPruneReport>): seq<string>
  {
    if responses == [] then []
    else (if responses[0].err.None? then [responses[0].id] else []) + SucceededIds(responses[1..])
  }

  /** The errors of the pods not removed, in response order. */
  function FailedErrors(responses: seq<PodPruneReport>): seq<Error>
  {
    if responses == [] then []
    else (if responses[0].err.Some? then [responses[0].err.value] else []) + FailedErrors(responses[1..])
  }

  /** Both outputs are built response by response: the outputs for a
      concatenation are those of its parts, one after the other. */
  lemma {:induction false} PartitionAppend(a: seq<PodPruneReport>, b: seq<PodPruneReport>)
    ensures SucceededIds(a + b) == SucceededIds(a) + SucceededIds(b)
    ensures FailedErrors(a + b) == FailedErrors(a) + FailedErrors(b)
  {
    if a == [] {
      assert a + b == b;
    } else {
      assert (a + b)[1..] == a[1..] + b;
      PartitionAppend(a[1..], b);
    }
  }

  /** Every response lands in exactly one of the two outputs. */
  lemma {:induction false} PartitionSizes(responses: seq<PodPruneReport>)
    ensures |SucceededIds(responses)| + |FailedErrors(responses)| == |responses|
  {
    if responses != [] {
      PartitionSizes(responses[1..]);
    }
  }

  /** The printed ids are exactly the ids of responses without an error. */
  lemma {:induction false} SucceededIdsExactly(responses: seq<PodPruneReport>, id: string)
    ensures id in SucceededIds(responses) <==>
            exists j | 0 <= j < |responses| :: responses[j].err.None? && responses[j].id == id
  {
    if responses != [] {
      SucceededIdsExactly(responses[1..], id);
      if exists j | 0 <= j < |responses| :: responses[j].err.None? && responses[j].id == id {
        var j :| 0 <= j < |responses| && responses[j].err.None? && responses[j].id == id;
        if j > 0 {
          assert responses[1..][j - 1] == responses[j];
        }
      }
      if exists j | 0 <= j < |responses[1..]| :: responses[1..][j].err.None? && responses[1..][j].id == id {
        var j :| 0 <= j < |responses[1..]| && responses[1..][j].err.None? && responses[1..][j].id == id;
        assert responses[j + 1] == responses[1..][j];
      }
    }
  }

  /** The collected errors are exactly the errors of the responses that
      have one. */
  lemma {:induction false} FailedErrorsExactly(responses: seq<PodPruneReport>, e: Error)
    ensures e in FailedErrors(responses) <==>
            exists j | 0 <= j < |responses| :: responses[j].err == Some(e)
  {
    if responses != [] {
      FailedErrorsExactly(responses[1..], e);
      if exists j | 0 <= j < |responses| :: responses[j].err == Some(e) {
        var j :| 0 <= j < |responses| && responses[j].err == Some(e);
        if j > 0 {
          assert responses[1..][j - 1] == responses[j];
        }
      }
      if exists j | 0 <= j < |responses[1..]| :: responses[1..][j].err == Some(e) {
        var j :| 0 <= j < |responses[1..]| && responses[1..][j].err == Some(e);
        assert responses[j + 1] == responses[1..][j];
      }
    }
  }

  /** The command's handler. `args` are the positional arguments, `engine`
      is what the container engine's pod prune gives, and `printErrors`
      stands for turning the collected errors into the command's error.
      Reports the lines printed, the errors collected, whether the engine
      was called, and the error returned (`None` is nil). */
  method PrunePods(args: seq<string>, commandPath: string, engine: Result<seq<PodPruneReport>>,
                   printErrors: seq<Error> -> Option<Error>)
    returns (printed: seq<string>, errs: seq<Error>, engineCalled: bool, ret: Option<Error>)
    ensures engineCalled <==> args == []
    ensures args != [] ==>
              ret == Some(Failure("`" + commandPath + "` takes no arguments")) && printed == [] && errs == []
    ensures args == [] && engine.Err? ==> ret == Some(engine.error) && printed == [] && errs == []
    ensures args == [] && engine.Ok? ==>
              && printed == SucceededIds(engine.value)
              && errs == FailedErrors(engine.value)
              && ret == printErrors(FailedErrors(engine.value))
  {
    printed, errs, engineCalled := [], [], false;
    if |args| > 0 {
      ret := Some(Failure("`" + commandPath + "` takes no arguments"));
      return;
    }
    engineCalled := true;
    if engine.Err? {
      ret := Some(engine.error);
      return;
    }
    var responses := engine.value;
    for i := 0 to |responses|
      invariant printed == SucceededIds(responses[..i])
      invariant errs == FailedErrors(responses[..i])
    {
      var r := responses[i];
      PartitionAppend(responses[..i], [r]);
      assert responses[..i + 1] == responses[..i] + [r];
      if r.err.None? {
        printed := printed + [r.id];
      } else {
        errs := errs + [r.err.value];
      }
    }
    assert responses[..|responses|] == responses;
    ret := printErrors(errs);
  }
}
