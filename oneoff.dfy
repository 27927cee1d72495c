/** Connecting to a one-off task: the task is created, its status polled until it runs, the
    container instance it was placed on looked up, and an SSH session opened to that instance.
    The API's answers are given up front: one for the creating POST and a script for the polls,
    so an exhausted script stands for a task that is still pending. Sleeps are counted. */
module Oneoff {
  import opened Wrappers
  import opened ApiTypes
  import opened Effects
  import opened SshSession
  import opened Strings

  function OneoffsPath(heritageName: string): string {
    "/heritages/" + heritageName + "/oneoffs"
  }

  /** The path a task's status is polled at: its district, the heritage, and its id in decimal. */
  function PollPath(districtName: string, heritageName: string, id: int): string {
    "/districts/" + districtName + "/heritages/" + heritageName + "/oneoffs/" + FormatInt(id)
  }

  /** Distinct task ids of a heritage are polled at distinct paths. */
  lemma PollPathInjective(d: string, h: string, id1: int, id2: int)
    ensures PollPath(d, h, id1) == PollPath(d, h, id2) <==> id1 == id2
  {
    if PollPath(d, h, id1) == PollPath(d, h, id2) {
      var n := |"/districts/" + d + "/heritages/" + h + "/oneoffs/"|;
      assert FormatInt(id1) == PollPath(d, h, id1)[n..];
      assert FormatInt(id2) == PollPath(d, h, id2)[n..];
      FormatIntRoundTrip(id1);
      FormatIntRoundTrip(id2);
    }
  }

  /** A poll answer that makes the loop sleep and poll again. */
  predicate Pending(r: Reply<OneoffResponse>) {
    r.Decoded? && r.value.oneoff.status == "PENDING"
  }

  /** The index of the poll answer the loop stops at, or |polls| when every answer is pending. */
  function Settled(polls: seq<Reply<OneoffResponse>>): (k: nat)
    ensures k <= |polls|
    ensures forall i :: 0 <= i < k ==> Pending(polls[i])
    ensures k < |polls| ==> !Pending(polls[k])
  {
    if |polls| == 0 || !Pending(polls[0]) then 0 else 1 + Settled(polls[1..])
  }

  /** The index of the first container instance with the given ARN, or |cis| when there is none. */
  function FirstInstance(cis: seq<ContainerInstance>, arn: string): (k: nat)
    ensures k <= |cis|
    ensures forall i :: 0 <= i < k ==> cis[i].containerInstanceArn != arn
    ensures k < |cis| ==> cis[k].containerInstanceArn == arn
  {
    if |cis| == 0 || cis[0].containerInstanceArn == arn then 0 else 1 + FirstInstance(cis[1..], arn)
  }

  /** The container-instance scan: the first instance whose ARN matches, if any. */
  method FindContainer(cis: seq<ContainerInstance>, arn: string) returns (found: Option<ContainerInstance>)
    ensures found.None? <==> forall i :: 0 <= i < |cis| ==> cis[i].containerInstanceArn != arn
    ensures found.Some? ==> found.value == cis[FirstInstance(cis, arn)]
  {
    found := None;
    var i := 0;
    while i < |cis|
      invariant 0 <= i <= |cis|
      invariant forall j :: 0 <= j < i ==> cis[j].containerInstanceArn != arn
    {
      if cis[i].containerInstanceArn == arn {
        found := Some(cis[i]);
        assert FirstInstance(cis, arn) == i;
        break;
      }
      i := i + 1;
    }
  }

  /** How connecting ends: with the function's error value, or not at all while the task stays pending. */
  datatype Connection = Returned(outcome: Outcome) | StillPolling

  const WaitingLine: string := "Waiting for the process to start\n"
  const ConnectingLine: string := "Connecting to the process\n"
  const NoContainer: string := "Failed to find the container. Maybe try again"

  /** Nothing but standard output changed, and it gained `lines`. */
  twostate predicate OnlyPrinted(runner: CommandRunner, store: FileStore, console: Console, lines: seq<string>)
    reads runner, store, console
  {
    && store.files == old(store.files)
    && runner.invocations == old(runner.invocations)
    && console.out == old(console.out) + lines
  }

  /** The poll loop of connectToHeritage: one GET of `poll` per answer up to the first that is
      not pending, sleeping after each pending one. It ends with the loop's error, with
      StillPolling when every answer was pending, or with None once the task runs. */
  method AwaitRunning(poll: Call, polls: seq<Reply<OneoffResponse>>)
    returns (stop: Option<Connection>, calls: seq<Call>, sleeps: nat)
    ensures var k := Settled(polls);
            && sleeps == k
            && calls == Repeat(poll, if k < |polls| then k + 1 else k)
            && (k == |polls| ==> stop == Some(StillPolling))
            && (k < |polls| && !polls[k].Decoded? ==> stop == Some(Returned(Fail(ReplyError(polls[k]).value))))
            && (k < |polls| && polls[k].Decoded? && polls[k].value.oneoff.status != "RUNNING" ==>
                  stop == Some(Returned(Fail("Unexpected task status " + polls[k].value.oneoff.status))))
            && (k < |polls| && polls[k].Decoded? && polls[k].value.oneoff.status == "RUNNING" ==> stop == None)
  {
    ghost var k := Settled(polls);
    calls, sleeps := [], 0;
    var attempts := 0;
    while true
      invariant attempts <= k && attempts == sleeps
      invariant calls == Repeat(poll, attempts)
      decreases |polls| - attempts
    {
      if attempts == |polls| {
        return Some(StillPolling), calls, sleeps;
      }
      calls := calls + [poll];
      var reply := polls[attempts];
      attempts := attempts + 1;
      assert calls == Repeat(poll, attempts);
      if !reply.Decoded? {
        return Some(Returned(Fail(reply.error))), calls, sleeps;
      }
      if reply.value.oneoff.status == "RUNNING" {
        return None, calls, sleeps;
      } else if reply.value.oneoff.status == "PENDING" {
        sleeps := sleeps + 1;
      } else {
        return Some(Returned(Fail("Unexpected task status " + reply.value.oneoff.status))), calls, sleeps;
      }
    }
  }

  /** The end of connectToHeritage once the task runs: the container instance the task was
      placed on is looked up among its district's instances, a missing one is reported, and
      otherwise a session is opened to its private address through the district's bastion. The
      session's own failure is not reported. */
  method OpenSession(oneoff: Oneoff, certificate: string, config: SshConfig,
                     runner: CommandRunner, store: FileStore, console: Console)
    returns (o: Outcome)
    modifies store`files, runner`invocations, console`out
    ensures var cis := oneoff.district.containerInstances;
            var i := FirstInstance(cis, oneoff.containerInstanceArn);
            && (i == |cis| ==> o == Fail(NoContainer) && OnlyPrinted(runner, store, console, [ConnectingLine]))
            && (i < |cis| ==>
                  && o == Pass
                  && Session(cis[i].privateIpAddress, oneoff.district.bastionIp, certificate, config,
                             runner, store, console, old(store.files), old(runner.invocations),
                             old(console.out) + [ConnectingLine],
                             oneoff.interactiveRunCommand, SessionOutcome(config, runner, store)))
  {
    console.Print(ConnectingLine);
    var matched := FindContainer(oneoff.district.containerInstances, oneoff.containerInstanceArn);
    if matched.None? {
      return Fail(NoContainer);
    }
    var ssh := new SshCommand(matched.value.privateIpAddress, oneoff.district.bastionIp, certificate, config, runner);
    var _ := ssh.Run(oneoff.interactiveRunCommand, store, console);
    o := Pass;
  }

  /** What connectToHeritage does once the task was created and is not detached from, given
      the task record and certificate the POST returned.
      - It polls the task's path, built from that record, sleeping after each pending answer; a
        failed or undecodable poll, or a status other than RUNNING or PENDING, is the error.
      - Once the task runs, it looks the container instance up in that same record (not in the
        poll's), reports a missing one, and otherwise opens a session to its private address
        through the district's bastion with the task's interactive command. The session's own
        failure is not reported. */
  twostate predicate Attached(created: OneoffResponse, heritageName: string, polls: seq<Reply<OneoffResponse>>,
                              config: SshConfig, runner: CommandRunner, store: FileStore, console: Console,
                              c: Connection, calls: seq<Call>, sleeps: nat)
    reads runner, store, console
  {
    var oneoff := created.oneoff;
    var k := Settled(polls);
    var poll := Call("GET", PollPath(oneoff.district.name, heritageName, oneoff.id), NoBody);
    && sleeps == k
    && calls == Repeat(poll, if k < |polls| then k + 1 else k)
    && (k == |polls| ==> c == StillPolling && OnlyPrinted(runner, store, console, [WaitingLine]))
    && (k < |polls| && !polls[k].Decoded? ==>
          c == Returned(Fail(ReplyError(polls[k]).value)) && OnlyPrinted(runner, store, console, [WaitingLine]))
    && (k < |polls| && polls[k].Decoded? && polls[k].value.oneoff.status != "RUNNING" ==>
          && c == Returned(Fail("Unexpected task status " + polls[k].value.oneoff.status))
          && OnlyPrinted(runner, store, console, [WaitingLine]))
    && (k < |polls| && polls[k].Decoded? && polls[k].value.oneoff.status == "RUNNING" ==>
          var cis := oneoff.district.containerInstances;
          var i := FirstInstance(cis, oneoff.containerInstanceArn);
          && (i == |cis| ==> c == Returned(Fail(NoContainer)) && OnlyPrinted(runner, store, console, [WaitingLine, ConnectingLine]))
          && (i < |cis| ==>
                && c == Returned(Pass)
                && Session(cis[i].privateIpAddress, oneoff.district.bastionIp, created.certificate, config,
                           runner, store, console, old(store.files), old(runner.invocations),
                           old(console.out) + [WaitingLine, ConnectingLine],
                           oneoff.interactiveRunCommand, SessionOutcome(config, runner, store))))
  }

  /** What connectToHeritage does: it POSTs the parameters to the heritage's one-off collection,
      and a failed or undecodable answer is the error. In detach mode it stops right after the
      POST; otherwise it goes on as Attached says. */
  twostate predicate Connected(params: OneoffParams, heritageName: string, detach: bool,
                               postReply: Reply<OneoffResponse>, polls: seq<Reply<OneoffResponse>>,
                               config: SshConfig, runner: CommandRunner, store: FileStore, console: Console,
                               c: Connection, calls: seq<Call>, sleeps: nat)
    reads runner, store, console
  {
    var post := Call("POST", OneoffsPath(heritageName), OneoffBody(params));
    if !postReply.Decoded? then
      c == Returned(Fail(ReplyError(postReply).value)) && calls == [post] && sleeps == 0
      && OnlyPrinted(runner, store, console, [])
    else if detach then
      // PrintOneoff's table is printed here; its text is not modelled, so the log gains no line.
      c == Returned(Pass) && calls == [post] && sleeps == 0 && OnlyPrinted(runner, store, console, [])
    else
      && |calls| >= 1 && calls[0] == post
      && Attached(postReply.value, heritageName, polls, config, runner, store, console, c, calls[1..], sleeps)
  }

  /** connectToHeritage after the POST, when not detaching. */
  method Attach(created: OneoffResponse, heritageName: string, polls: seq<Reply<OneoffResponse>>,
                config: SshConfig, runner: CommandRunner, store: FileStore, console: Console)
    returns (c: Connection, calls: seq<Call>, sleeps: nat)
    modifies store`files, runner`invocations, console`out
    ensures Attached(created, heritageName, polls, config, runner, store, console, c, calls, sleeps)
  {
    var oneoff := created.oneoff;
    console.Print(WaitingLine);
    var poll := Call("GET", PollPath(oneoff.district.name, heritageName, oneoff.id), NoBody);
    var stop;
    stop, calls, sleeps := AwaitRunning(poll, polls);
    if stop.Some? {
      return stop.value, calls, sleeps;
    }
    var o := OpenSession(oneoff, created.certificate, config, runner, store, console);
    c := Returned(o);
  }

  /** connectToHeritage. */
  method ConnectToHeritage(params: OneoffParams, heritageName: string, detach: bool,
                           postReply: Reply<OneoffResponse>, polls: seq<Reply<OneoffResponse>>,
                           config: SshConfig, runner: CommandRunner, store: FileStore, console: Console)
    returns (c: Connection, calls: seq<Call>, sleeps: nat)
    modifies store`files, runner`invocations, console`out
    ensures Connected(params, heritageName, detach, postReply, polls, config, runner, store, console, c, calls, sleeps)
  {
    var post := Call("POST", OneoffsPath(heritageName), OneoffBody(params));
    if !postReply.Decoded? {
      return Returned(Fail(ReplyError(postReply).value)), [post], 0;
    }
    if detach {
      return Returned(Pass), [post], 0;
    }
    var attachCalls;
    c, attachCalls, sleeps := Attach(postReply.value, heritageName, polls, config, runner, store, console);
    calls := [post] + attachCalls;
    assert calls[1..] == attachCalls;
  }
}
