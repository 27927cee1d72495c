/** The raw API operation: sends one request with a caller-given method, path and body and
    prints the pretty-printed response. */
module ApiOperation {
  import opened Wrappers
  import opened Operation
  import opened ApiTypes
  import opened Effects

  /** ApiOperation: the HTTP method, the path and the request body as given. */
  datatype ApiOperation = ApiOperation(verb: string, path: string, body: string)

  /** ApiOperation.run. `reply` is the client's answer: the response body or the error's text.
      `pretty` stands for utils.PrettyJSON, whose formatting is not modelled. */
  function Run(op: ApiOperation, reply: Result<string>, pretty: string -> string): (t: Trace<RunResult>)
    ensures op.verb == "" ==> t == Trace(ErrorResult("method is required"), [], [])
    ensures op.verb != "" && op.path == "" ==> t == Trace(ErrorResult("path is required"), [], [])
    ensures op.verb != "" && op.path != "" ==> t.calls == [Call(op.verb, op.path, Raw(op.body))]
    ensures op.verb != "" && op.path != "" && reply.Err? ==> t.result == ErrorResult(reply.error) && t.out == []
    ensures op.verb != "" && op.path != "" && reply.Ok? ==> t.result == OkResult() && t.out == [pretty(reply.value) + "\n"]
  {
    if |op.verb| == 0 then Trace(ErrorResult("method is required"), [], [])
    else if |op.path| == 0 then Trace(ErrorResult("path is required"), [], [])
    else
      var calls := [Call(op.verb, op.path, Raw(op.body))];
      match reply
      case Err(e) => Trace(ErrorResult(e), calls, [])
      case Ok(response) => Trace(OkResult(), calls, [pretty(response) + "\n"])
  }

  /** The command fails exactly when a guard refuses the input or the client reports an error,
      and then it exits with code 1 and that error's text. */
  lemma RunExitStatus(op: ApiOperation, reply: Result<string>, pretty: string -> string)
    ensures var e := Execute(Run(op, reply, pretty).result);
            && (e.NoError? <==> op.verb != "" && op.path != "" && reply.Ok?)
            && (op.verb != "" && op.path != "" && reply.Err? ==> e == ExitError(reply.error, 1))
  {
  }

  /** The error example: a client error "some error msg" is the result's message. */
  lemma ClientErrorExample(pretty: string -> string)
    ensures Run(ApiOperation("GET", "https://somewhere", ""), Err("some error msg"), pretty).result ==
            ErrorResult("some error msg")
  {
  }
}
