/** The direct SSH operation: checks its inputs in order, has the API sign the user's public
    key for a district, and opens a session to the given instance through that district's
    bastion with an empty command. */
module SshcmdOperation {
  import opened Wrappers
  import opened Operation
  import opened ApiTypes
  import opened Effects
  import opened SshSession

  /** SshcmdOperation: the district, the instance address and the SSH configuration. */
  datatype SshcmdOperation = SshcmdOperation(districtName: string, ip: string, config: SshConfig)

  /** How `run` ends. `NilErrorPanic` is the failing session: the code then calls `Error()` on a
      nil error, so no result and no message come out of it. */
  datatype SshcmdOutcome = Finished(result: RunResult) | NilErrorPanic

  /** The path the certificate is requested from. */
  function SignPath(districtName: string): (p: string)
    ensures |p| == |districtName| + 27
    ensures p[..11] == "/districts/" && p[|p| - 16..] == "/sign_public_key"
    ensures p[11..|p| - 16] == districtName
  {
    "/districts/" + districtName + "/sign_public_key"
  }

  /** Distinct districts ask for their certificate at distinct paths. */
  lemma SignPathInjective(a: string, b: string)
    ensures SignPath(a) == SignPath(b) <==> a == b
  {
    if SignPath(a) == SignPath(b) {
      assert a == SignPath(a)[11..|SignPath(a)| - 16];
    }
  }

  /** SshcmdOperation.run. `signReply` is what the POST gives back; `calls` records the requests
      sent. An empty district name is reported first, an empty ip second, both before any request. */
  method Run(op: SshcmdOperation, signReply: Reply<DistrictResponse>, runner: CommandRunner,
             store: FileStore, console: Console)
    returns (outcome: SshcmdOutcome, calls: seq<Call>)
    modifies store`files, runner`invocations, console`out
    ensures op.districtName == "" ==> outcome == Finished(ErrorResult("district name is required"))
    ensures op.districtName != "" && op.ip == "" ==> outcome == Finished(ErrorResult("ip is required"))
    ensures op.districtName == "" || op.ip == "" ==> calls == []
    ensures op.districtName != "" && op.ip != "" ==> calls == [Call("POST", SignPath(op.districtName), NoBody)]
    ensures (op.districtName == "" || op.ip == "" || !signReply.Decoded?) ==>
              && store.files == old(store.files)
              && runner.invocations == old(runner.invocations)
              && console.out == old(console.out)
    ensures op.districtName != "" && op.ip != "" && !signReply.Decoded? ==>
              outcome == Finished(ErrorResult(ReplyError(signReply).value))
    ensures op.districtName != "" && op.ip != "" && signReply.Decoded? ==>
              var resp := signReply.value;
              var o := SessionOutcome(op.config, runner, store);
              && Session(op.ip, resp.district.bastionIp, resp.certificate, op.config, runner, store, console,
                         old(store.files), old(runner.invocations), old(console.out), "", o)
              && (o.Pass? ==> outcome == Finished(OkResult()))
              && (o.Fail? ==> outcome == NilErrorPanic)
  {
    calls := [];
    if |op.districtName| == 0 {
      return Finished(ErrorResult("district name is required")), calls;
    }
    if |op.ip| == 0 {
      return Finished(ErrorResult("ip is required")), calls;
    }
    calls := [Call("POST", SignPath(op.districtName), NoBody)];
    if signReply.Failed? {
      return Finished(ErrorResult(signReply.error)), calls;
    }
    if signReply.Undecodable? {
      return Finished(ErrorResult(signReply.error)), calls;
    }
    var resp := signReply.value;
    var ssh := new SshCommand(op.ip, resp.district.bastionIp, resp.certificate, op.config, runner);
    var o := ssh.Run("", store, console);
    if o.Fail? {
      return NilErrorPanic, calls;
    }
    outcome := Finished(OkResult());
  }
}
