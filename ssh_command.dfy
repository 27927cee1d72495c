/** The SSH session broker: writes the signed certificate where the SSH configuration expects it,
    then runs `ssh` once through the bastion host with a fixed argument vector. */
module SshSession {
  import opened Wrappers
  import opened Effects
  import Strings

  /** The SshConfig collaborator: where the certificate goes, the private key, and the debug flag. */
  datatype SshConfig = SshConfig(certPath: string, privateKeyPath: string, debug: bool)

  /** The options every session passes before the proxy command. */
  const FixedOptions: seq<string> := [
    "-t", "-t",
    "-oStrictHostKeyChecking=no",
    "-oLogLevel=QUIET",
    "-oUserKnownHostsFile=/dev/null",
    "-oServerAliveInterval=60",
    "-oServerAliveCountMax=720"]

  const ProxyPrefix: string := "-oProxyCommand=ssh -W %h:%p -i "

  /** The proxy command: jump through the bastion as `hopper`, with the same private key. */
  function ProxyCommand(privateKeyPath: string, bastionIp: string): string {
    ProxyPrefix + privateKeyPath + " hopper@" + bastionIp
  }

  /** The argument vector of a session; `command` is the last argument even when it is empty. */
  function SshArgs(ip: string, bastionIp: string, privateKeyPath: string, command: string): (args: seq<string>)
    ensures |args| == 12
    ensures args[..7] == FixedOptions
    ensures args[7] == ProxyCommand(privateKeyPath, bastionIp)
    ensures args[8] == "-i" && args[9] == privateKeyPath
    ensures args[10] == "ec2-user@" + ip
    ensures args[11] == command
  {
    FixedOptions + [ProxyCommand(privateKeyPath, bastionIp), "-i", privateKeyPath, "ec2-user@" + ip, command]
  }

  /** The argument vector records all four inputs and nothing else: equal vectors come
      exactly from equal host, bastion, key and command. */
  lemma SshArgsDetermined(ip1: string, bastion1: string, key1: string, cmd1: string,
                          ip2: string, bastion2: string, key2: string, cmd2: string)
    ensures SshArgs(ip1, bastion1, key1, cmd1) == SshArgs(ip2, bastion2, key2, cmd2) <==>
            ip1 == ip2 && bastion1 == bastion2 && key1 == key2 && cmd1 == cmd2
  {
    var a1 := SshArgs(ip1, bastion1, key1, cmd1);
    var a2 := SshArgs(ip2, bastion2, key2, cmd2);
    if a1 == a2 {
      assert key1 == a1[9] == key2;
      var n := |ProxyPrefix + key1 + " hopper@"|;
      assert bastion1 == a1[7][n..];
      assert bastion2 == a2[7][n..];
      assert ip1 == a1[10][9..];
      assert ip2 == a2[10][9..];
    }
  }

  /** The debug line printed before the session starts. */
  function DebugLine(args: seq<string>): string {
    "ssh " + Strings.Join(args, " ") + "\n"
  }

  /** The result a session reports: the certificate write's error, or else the runner's exit. */
  function SessionOutcome(config: SshConfig, runner: CommandRunner, store: FileStore): (o: Outcome)
    ensures config.certPath in store.writeFailures ==> o == Fail(store.writeFailures[config.certPath])
    ensures config.certPath !in store.writeFailures ==> o == runner.exit
  {
    if config.certPath in store.writeFailures then Fail(store.writeFailures[config.certPath]) else runner.exit
  }

  /** What running a session to `ip` through `bastionIp` with `certificate` did, starting from
      the files `filesBefore`, the runner's log `invocationsBefore` and the output `outBefore`.
      If the certificate cannot be written, that error is the result and nothing else happens.
      Otherwise the certificate file holds exactly the certificate (whatever it held before), the
      runner was started once with `ssh` and the session's arguments while that file was in
      place, and its exit result is the result. Standard output gains the debug line, if any. */
  predicate Session(ip: string, bastionIp: string, certificate: string, config: SshConfig,
                    runner: CommandRunner, store: FileStore, console: Console,
                    filesBefore: map<string, string>, invocationsBefore: seq<Invocation>, outBefore: seq<string>,
                    command: string, o: Outcome)
    reads store, runner, console
  {
    if config.certPath in store.writeFailures then
      && o == Fail(store.writeFailures[config.certPath])
      && store.files == filesBefore
      && runner.invocations == invocationsBefore
      && console.out == outBefore
    else
      var args := SshArgs(ip, bastionIp, config.privateKeyPath, command);
      && store.files == filesBefore[config.certPath := certificate]
      && runner.invocations == invocationsBefore + [Invocation("ssh", args, store.files)]
      && console.out == outBefore + (if config.debug then [DebugLine(args)] else [])
      && o == runner.exit
  }

  /** sshCommand: a session to `ip` through `bastionIp`, authenticated with `certificate`. */
  class SshCommand {
    const ip: string
    const bastionIp: string
    const certificate: string
    const config: SshConfig
    const runner: CommandRunner

    /** NewSshCommand. */
    constructor (ip: string, bastionIp: string, certificate: string, config: SshConfig, runner: CommandRunner)
      ensures this.ip == ip && this.bastionIp == bastionIp && this.certificate == certificate
      ensures this.config == config && this.runner == runner
    {
      this.ip := ip;
      this.bastionIp := bastionIp;
      this.certificate := certificate;
      this.config := config;
      this.runner := runner;
    }

    /** sshCommand.Run. */
    method Run(command: string, store: FileStore, console: Console) returns (o: Outcome)
      modifies store`files, runner`invocations, console`out
      ensures Session(ip, bastionIp, certificate, config, runner, store, console,
                      old(store.files), old(runner.invocations), old(console.out), command, o)
    {
      var written := store.WriteFile(config.certPath, certificate);
      if written.Fail? {
        return written;
      }
      var args := SshArgs(ip, bastionIp, config.privateKeyPath, command);
      if config.debug {
        console.Print(DebugLine(args));
      }
      o := runner.RunCommand("ssh", args, store);
    }
  }
}
