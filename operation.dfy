/** The result protocol every command of the `operations` package goes through:
    an operation's `run` yields nil (the user declined), an ok result or an error result,
    and `Execute` turns that into the CLI's exit status. */
module Operation {

  /** `*runResult`: `Declined` is the nil pointer, `Result` a record with its two fields. */
  datatype RunResult = Declined | Result(isError: bool, message: string)

  /** The `error` a command hands back to the CLI framework. `ExitError` is
      `cli.NewExitError(message, code)`; `PlainError` is any other error passed through as is. */
  datatype CliError = NoError | ExitError(message: string, code: int) | PlainError(message: string)

  /** The operation kinds the dispatchers compare against. `Other` stands for any
      `OperationType` string that is none of the five named ones. */
  datatype OperationType = Create | Update | Delete | Show | List | Other(name: string)

  /** error_result: a failed result carrying `message`. */
  function ErrorResult(message: string): (r: RunResult)
    ensures r.Result? && r.isError && r.message == message
  {
    Result(true, message)
  }

  /** ok_result: a successful result with an empty message. */
  function OkResult(): (r: RunResult)
    ensures r.Result? && !r.isError && r.message == ""
  {
    Result(false, "")
  }

  /** Execute: only an error result fails, and it fails with exit code 1 and the result's message;
      a declined operation and an ok result both succeed. */
  function Execute(r: RunResult): (e: CliError)
    ensures e.NoError? <==> r.Declined? || !r.isError
    ensures e.ExitError? <==> r.Result? && r.isError
    ensures e.ExitError? ==> e.message == r.message && e.code == 1
    ensures !e.PlainError?
  {
    if r.Declined? then NoError
    else if r.isError then ExitError(r.message, 1)
    else NoError
  }
}
