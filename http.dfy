/**
 * What a controller action hands back to ASP.NET: StatusCode(status, body),
 * where the body is an ApiResponse(code, message, data) or nothing (the 204
 * replies), plus the texts several actions share.
 */
module Http {
  import opened Common

  datatype Body<+T> = NoBody | Api(code: int, message: Option<string>, data: Option<T>)

  datatype Reply<+T> = Reply(status: int, body: Body<T>)

  /** StatusCode(status, new ApiResponse(status, message)) without data. */
  function Plain<T>(status: int, message: string): (r: Reply<T>)
    ensures r.status == status && r.body.Api? && r.body.code == status
    ensures r.body.message == Some(message) && r.body.data == None
  {
    Reply(status, Api(status, Some(message), None))
  }

  /** A 400 answer to a request field that failed validation. */
  function BadRequest<T>(message: string): (r: Reply<T>)
    ensures r.status == 400 && r.body.Api? && r.body.code == 400
    ensures r.body.message == Some(message)
  {
    Plain(400, message)
  }

  /** An answer carrying data. */
  function WithData<T>(status: int, message: string, data: Option<T>): (r: Reply<T>)
    ensures r.status == status && r.body == Api(status, Some(message), data)
  {
    Reply(status, Api(status, Some(message), data))
  }

  /** The two spellings of the generic server-error text used across the controllers. */
  const ServerError: string := "Oops! Something went wrong on our end...Server error"
  const ServerErrorSpaced: string := "Oops! Something went wrong on our end... Server error"

  /** NoContent(): status 204 without a body. */
  function NoContent<T>(): (r: Reply<T>)
    ensures r.status == 204 && r.body.NoBody?
  {
    Reply(204, NoBody)
  }

  /** One request-field test of a controller action: whether the request
      passes it, and the message of the 400 the action answers when it does not. */
  datatype Check = Check(passes: bool, message: string)

  /** The k-th test is the first the request fails. */
  predicate FailsFirstAt(checks: seq<Check>, k: int)
  {
    0 <= k < |checks| && !checks[k].passes && forall j | 0 <= j < k :: checks[j].passes
  }

  /** An action's guard chain: the tests run in order and the first failing
      one answers with its message; None when the request passes them all. */
  function FirstFailed(checks: seq<Check>): (m: Option<string>)
    ensures m.None? <==> forall i | 0 <= i < |checks| :: checks[i].passes
    ensures m.Some? ==> exists k :: FailsFirstAt(checks, k) && m.value == checks[k].message
  {
    if checks == [] then None
    else if !checks[0].passes then
      assert FailsFirstAt(checks, 0);
      Some(checks[0].message)
    else
      var rest := FirstFailed(checks[1..]);
      assert forall i | 1 <= i < |checks| :: checks[i] == checks[1..][i - 1];
      if rest.Some? then
        var k :| FailsFirstAt(checks[1..], k) && rest.value == checks[1..][k].message;
        assert FailsFirstAt(checks, k + 1);
        rest
      else rest
  }

  /** Whatever the later tests say, the first failing test decides the answer. */
  lemma {:induction false} FirstFailedAt(checks: seq<Check>, k: int)
    requires FailsFirstAt(checks, k)
    ensures FirstFailed(checks) == Some(checks[k].message)
    decreases k
  {
    if k > 0 {
      assert FailsFirstAt(checks[1..], k - 1);
      FirstFailedAt(checks[1..], k - 1);
    }
  }

  /** A chain made of two chains runs the first one to the end before the second. */
  lemma {:induction false} FirstFailedAppend(a: seq<Check>, b: seq<Check>)
    ensures FirstFailed(a + b) == if FirstFailed(a).Some? then FirstFailed(a) else FirstFailed(b)
    decreases |a|
  {
    if a != [] {
      assert (a + b)[1..] == a[1..] + b;
      FirstFailedAppend(a[1..], b);
    } else {
      assert a + b == b;
    }
  }

  /** The message a SqlException raised by a stored procedure's THROW 50000 carries. */
  predicate IsRaised(f: Failure)
  {
    f.SqlFailure? && f.number == 50000
  }

  /** The generic answer every catch-all block gives. */
  function ServerFault<T>(): (r: Reply<T>)
    ensures r.status == 500 && r.body == Api(500, Some(ServerError), None)
  {
    Plain(500, ServerError)
  }

  /** A catch block answers with an ApiResponse<string> without data; the
      action returns it as its IActionResult whatever its success type. */
  function Retyped<T>(e: Reply<string>): (r: Reply<T>)
    ensures r.status == e.status && r.body.Api? == e.body.Api?
    ensures e.body.Api? ==> r.body == Api(e.body.code, e.body.message, None)
  {
    Reply(e.status, if e.body.Api? then Api(e.body.code, e.body.message, None) else NoBody)
  }

  function ServerFaultSpaced<T>(): (r: Reply<T>)
    ensures r.status == 500 && r.body == Api(500, Some(ServerErrorSpaced), None)
  {
    Plain(500, ServerErrorSpaced)
  }
}
