/** The `run` command: it validates its flags, gathers the environment variables of the task
    from the environment's configuration and from `--envvar` flags, picks the heritage from a
    flag, a branch's review app or the environment, and connects to a one-off task there. */
module RunOneoff {
  import opened Wrappers
  import opened Operation
  import opened ApiTypes
  import opened Effects
  import opened SshSession
  import opened Oneoff
  import opened Review
  import Strings

  /* ---- `--envvar NAME=value` flags ---- */

  /** The characters of `[A-Z_]`. */
  predicate IsNameChar(c: char) {
    'A' <= c <= 'Z' || c == '_'
  }

  /** What `^([A-Z_]+)=(.*)$` matches: a non-empty run of name characters, an '=', and a value
      without a newline (`.` stops at newlines and `$` only matches at the end). */
  predicate Matches(s: string) {
    exists i :: 0 < i < |s| && s[i] == '=' && (forall j :: 0 <= j < i ==> IsNameChar(s[j]))
                && (forall j :: i < j < |s| ==> s[j] != '\n')
  }

  datatype EnvVar = EnvVar(name: string, value: string)

  /** The length of the run of name characters that starts `s`. */
  function NameLength(s: string): (n: nat)
    ensures n <= |s|
    ensures forall j :: 0 <= j < n ==> IsNameChar(s[j])
    ensures n < |s| ==> !IsNameChar(s[n])
  {
    if |s| == 0 || !IsNameChar(s[0]) then 0 else 1 + NameLength(s[1..])
  }

  predicate NoNewline(s: string) {
    forall j :: 0 <= j < |s| ==> s[j] != '\n'
  }

  /** The two submatches of the pattern, when it matches. */
  function ParseEnvVar(s: string): Option<EnvVar> {
    var n := NameLength(s);
    if 0 < n < |s| && s[n] == '=' && NoNewline(s[n + 1..]) then Some(EnvVar(s[..n], s[n + 1..])) else None
  }

  /** An '=' preceded only by name characters ends the name. */
  lemma NameEndsAt(s: string, i: nat)
    requires 0 < i < |s| && s[i] == '='
    requires forall j :: 0 <= j < i ==> IsNameChar(s[j])
    ensures NameLength(s) == i
  {
  }

  /** A suffix has no newline exactly when the string has none after its start. */
  lemma NoNewlineAfter(s: string, n: nat)
    requires n < |s|
    ensures NoNewline(s[n + 1..]) <==> forall j :: n < j < |s| ==> s[j] != '\n'
  {
    assert forall j :: n < j < |s| ==> s[j] == s[n + 1..][j - n - 1];
  }

  /** Parsing succeeds exactly when the pattern matches, and then splits the flag at its first
      '=' into a name of name characters and a value without a newline. */
  lemma ParseMatches(s: string)
    ensures ParseEnvVar(s).Some? <==> Matches(s)
    ensures ParseEnvVar(s).Some? ==>
              var v := ParseEnvVar(s).value;
              && s == v.name + "=" + v.value && |v.name| > 0
              && (forall j :: 0 <= j < |v.name| ==> IsNameChar(v.name[j])) && NoNewline(v.value)
  {
    var n := NameLength(s);
    if Matches(s) {
      var i :| 0 < i < |s| && s[i] == '=' && (forall j :: 0 <= j < i ==> IsNameChar(s[j]))
               && (forall j :: i < j < |s| ==> s[j] != '\n');
      NameEndsAt(s, i);
      NoNewlineAfter(s, i);
    }
    if ParseEnvVar(s).Some? {
      NoNewlineAfter(s, n);
      assert s == s[..n] + "=" + s[n + 1..];
      assert forall j :: 0 <= j < n ==> s[..n][j] == s[j];
    }
  }

  /** A name of name characters and a value without a newline are parsed back from their flag. */
  lemma ParseFormatted(name: string, value: string)
    requires |name| > 0 && forall j :: 0 <= j < |name| ==> IsNameChar(name[j])
    requires NoNewline(value)
    ensures ParseEnvVar(name + "=" + value) == Some(EnvVar(name, value))
  {
    var s := name + "=" + value;
    assert forall j :: 0 <= j < |name| ==> s[j] == name[j];
    NameEndsAt(s, |name|);
    assert s[..|name|] == name;
    assert s[|name| + 1..] == value;
  }

  /** The error checkEnvVars reports for a flag the pattern does not match. */
  function InvalidMessage(s: string): string {
    "Env Variable  " + s + "  is not valid. Name must have PASCAL_CASE="
  }

  /** The index of the first flag the pattern does not match, or |vars|. */
  function FirstInvalid(vars: seq<string>): (k: nat)
    ensures k <= |vars|
    ensures forall i :: 0 <= i < k ==> ParseEnvVar(vars[i]).Some?
    ensures k < |vars| ==> ParseEnvVar(vars[k]).None?
  {
    if |vars| == 0 || ParseEnvVar(vars[0]).None? then 0 else 1 + FirstInvalid(vars[1..])
  }

  predicate AllParse(vars: seq<string>) {
    forall i :: 0 <= i < |vars| ==> ParseEnvVar(vars[i]).Some?
  }

  /** The map the flags assign, each in turn. */
  function Assign(vars: seq<string>): map<string, string>
    requires AllParse(vars)
  {
    if |vars| == 0 then map[]
    else
      var last := ParseEnvVar(vars[|vars| - 1]).value;
      Assign(vars[..|vars| - 1])[last.name := last.value]
  }

  function NameOf(s: string): string
    requires ParseEnvVar(s).Some?
  {
    ParseEnvVar(s).value.name
  }

  /** The assigned names are exactly the flags' names. */
  lemma {:induction false} AssignKeys(vars: seq<string>, name: string)
    requires AllParse(vars)
    ensures name in Assign(vars) <==> exists i :: 0 <= i < |vars| && NameOf(vars[i]) == name
  {
    if |vars| > 0 {
      var init := vars[..|vars| - 1];
      assert AllParse(init) by {
        assert forall i :: 0 <= i < |init| ==> init[i] == vars[i];
      }
      AssignKeys(init, name);
      if exists i :: 0 <= i < |vars| && NameOf(vars[i]) == name {
        var i :| 0 <= i < |vars| && NameOf(vars[i]) == name;
        if i < |vars| - 1 {
          assert init[i] == vars[i];
        }
      }
      if exists i :: 0 <= i < |init| && NameOf(init[i]) == name {
        var i :| 0 <= i < |init| && NameOf(init[i]) == name;
        assert vars[i] == init[i];
      }
    }
  }

  /** A flag that no later flag renames wins: its value is the one assigned. */
  lemma {:induction false} AssignLast(vars: seq<string>, i: nat)
    requires AllParse(vars)
    requires i < |vars|
    requires forall j :: i < j < |vars| ==> NameOf(vars[j]) != NameOf(vars[i])
    ensures NameOf(vars[i]) in Assign(vars)
    ensures Assign(vars)[NameOf(vars[i])] == ParseEnvVar(vars[i]).value.value
  {
    var init := vars[..|vars| - 1];
    assert AllParse(init) by {
      assert forall k :: 0 <= k < |init| ==> init[k] == vars[k];
    }
    if i < |vars| - 1 {
      assert init[i] == vars[i];
      assert forall j :: i < j < |init| ==> init[j] == vars[j];
      AssignLast(init, i);
    }
  }

  /** What checkEnvVars returns: the error for the first flag the pattern rejects, or the map the
      flags assign. */
  function ParsedVars(vars: seq<string>): Result<map<string, string>> {
    var k := FirstInvalid(vars);
    if k < |vars| then Err(InvalidMessage(vars[k])) else Ok(Assign(vars))
  }

  /** checkEnvVars. */
  method CheckEnvVars(vars: seq<string>) returns (r: Result<map<string, string>>)
    ensures r == ParsedVars(vars)
  {
    var result := map[];
    var i := 0;
    while i < |vars|
      invariant 0 <= i <= |vars|
      invariant forall j :: 0 <= j < i ==> ParseEnvVar(vars[j]).Some?
      invariant AllParse(vars[..i]) && result == Assign(vars[..i])
    {
      var parsed := ParseEnvVar(vars[i]);
      if parsed.None? {
        assert FirstInvalid(vars) == i;
        return Err(InvalidMessage(vars[i]));
      }
      assert vars[..i + 1][..i] == vars[..i];
      result := result[parsed.value.name := parsed.value.value];
      i := i + 1;
      assert AllParse(vars[..i]) by {
        assert forall j :: 0 <= j < i ==> vars[..i][j] == vars[j];
      }
    }
    assert vars[..i] == vars;
    r := Ok(result);
  }

  /** Two well-formed flags are assigned in turn. */
  lemma TwoFlags(name1: string, value1: string, name2: string, value2: string)
    requires |name1| > 0 && forall j :: 0 <= j < |name1| ==> IsNameChar(name1[j])
    requires |name2| > 0 && forall j :: 0 <= j < |name2| ==> IsNameChar(name2[j])
    requires NoNewline(value1) && NoNewline(value2)
    ensures ParsedVars([name1 + "=" + value1, name2 + "=" + value2]) == Ok(map[name1 := value1][name2 := value2])
  {
    ParseFormatted(name1, value1);
    ParseFormatted(name2, value2);
    var vars := [name1 + "=" + value1, name2 + "=" + value2];
    assert FirstInvalid(vars[1..][1..]) == 0;
    assert FirstInvalid(vars) == 2;
    assert vars[..1][..0] == [];
    assert Assign(vars[..1]) == map[name1 := value1];
  }

  /** A lower-case letter before the first '=' makes the flag invalid. */
  lemma LowerCaseRejected(s: string, i: nat)
    requires i < |s| && 'a' <= s[i] <= 'z'
    requires forall j :: 0 <= j < i ==> s[j] != '='
    ensures ParseEnvVar(s).None?
  {
    assert NameLength(s) <= i;
  }

  /** The rejected flag of the command's test: a name with a lower-case letter fails the whole
      check. */
  lemma RejectedExample()
    ensures ParsedVars(["ABCd=def", "GHI=jkl"]).Err?
  {
    LowerCaseRejected("ABCd=def", 3);
  }

  /* ---- environments of barcelona.yml ---- */

  /** An environment of the heritage configuration: the heritage's name and, when configured,
      the variables every `run` passes. */
  datatype Environment = Environment(name: string, runEnv: Option<map<string, string>>)

  /** LoadEnvironment (util.go). `config` is the parsed configuration file, or the error reading
      or parsing it. An environment whose entry is null is an absent key here: util.go rejects
      both with the same "environment is invalid". */
  function LoadEnvironment(config: Result<map<string, Environment>>, envName: string): (r: Result<Environment>)
    ensures config.Err? ==> r == Err(config.error)
    ensures config.Ok? && envName !in config.value ==> r == Err("environment is invalid")
    ensures config.Ok? && envName in config.value ==> r == Ok(config.value[envName])
  {
    match config
    case Err(e) => Err(e)
    case Ok(environments) => if envName in environments then Ok(environments[envName]) else Err("environment is invalid")
  }

  /** The variables loadEnvVars starts from: none without an environment name, otherwise the
      environment's own, if it has any. */
  function BaseVars(config: Result<map<string, Environment>>, envName: string): Result<map<string, string>> {
    if envName == "" then Ok(map[])
    else match LoadEnvironment(config, envName)
         case Err(e) => Err(e)
         case Ok(env) => Ok(if env.runEnv.Some? then env.runEnv.value else map[])
  }

  /** loadEnvVars: the environment's variables are copied one by one. */
  method LoadEnvVars(config: Result<map<string, Environment>>, envName: string) returns (r: Result<map<string, string>>)
    ensures r == BaseVars(config, envName)
  {
    var result: map<string, string> := map[];
    if envName != "" {
      var env := LoadEnvironment(config, envName);
      if env.Err? {
        return Err(env.error);
      }
      if env.value.runEnv.Some? {
        var vars := env.value.runEnv.value;
        var remaining := vars.Keys;
        while remaining != {}
          invariant remaining <= vars.Keys
          invariant result.Keys == vars.Keys - remaining
          invariant forall k :: k in result ==> result[k] == vars[k]
          decreases remaining
        {
          var k :| k in remaining;
          result := result[k := vars[k]];
          remaining := remaining - {k};
        }
        assert result == vars;
      }
    }
    r := Ok(result);
  }

  /** The merge loop of the action: every override is set, every other variable kept. */
  method MergeVars(base: map<string, string>, overrides: map<string, string>) returns (merged: map<string, string>)
    ensures merged.Keys == base.Keys + overrides.Keys
    ensures forall k :: k in overrides ==> merged[k] == overrides[k]
    ensures forall k :: k in base && k !in overrides ==> merged[k] == base[k]
  {
    merged := base;
    var remaining := overrides.Keys;
    while remaining != {}
      invariant remaining <= overrides.Keys
      invariant merged.Keys == base.Keys + (overrides.Keys - remaining)
      invariant forall k :: k in overrides && k !in remaining ==> merged[k] == overrides[k]
      invariant forall k :: k in base && k !in overrides.Keys - remaining ==> merged[k] == base[k]
      decreases remaining
    {
      var k :| k in remaining;
      merged := merged[k := overrides[k]];
      remaining := remaining - {k};
    }
  }

  /* ---- the heritage of a branch ---- */

  /** getHeritageName (run.go): the group's review apps, and the heritage of the first one for
      the branch. */
  function BranchLookup(branchName: string, definition: Result<ReviewAppDefinition>,
                        appsReply: Reply<seq<ReviewApp>>): Trace<Result<string>>
  {
    match definition
    case Err(e) => Trace(Err(e), [], [])
    case Ok(d) =>
      var calls := [Call("GET", ReviewAppsPath(d.groupName), NoBody)];
      match appsReply
      case Failed(e) => Trace(Err(e), calls, [])
      case Undecodable(e) => Trace(Err(e), calls, [])
      case Decoded(apps) =>
        var k := FirstSubject(apps, branchName);
        if k < |apps| && apps[k].heritageName != "" then Trace(Ok(apps[k].heritageName), calls, [])
        else Trace(Err("No heritage found for branch: " + branchName), calls, [])
  }

  /** A branch's heritage is the one of the first review app for the branch, and is never empty;
      there is none when no app is for the branch or the first one has no heritage name. */
  lemma BranchLookupMeaning(branchName: string, d: ReviewAppDefinition, apps: seq<ReviewApp>)
    ensures var r := BranchLookup(branchName, Ok(d), Decoded(apps)).result;
            && (r.Ok? <==> exists i :: 0 <= i < |apps| && apps[i].subject == branchName && apps[i].heritageName != ""
                                       && forall j :: 0 <= j < i ==> apps[j].subject != branchName)
            && (r.Ok? ==> r.value != "" && exists i :: 0 <= i < |apps| && apps[i].subject == branchName
                                                      && apps[i].heritageName == r.value)
            && (r.Err? ==> r.error == "No heritage found for branch: " + branchName)
  {
    var k := FirstSubject(apps, branchName);
    if exists i :: 0 <= i < |apps| && apps[i].subject == branchName && apps[i].heritageName != ""
                   && forall j :: 0 <= j < i ==> apps[j].subject != branchName {
      var i :| 0 <= i < |apps| && apps[i].subject == branchName && apps[i].heritageName != ""
               && forall j :: 0 <= j < i ==> apps[j].subject != branchName;
      assert k == i;
    }
  }

  /** getHeritageName (run.go), through the review commands' own helpers. */
  method BranchHeritageName(branchName: string, definition: Result<ReviewAppDefinition>, appsReply: Reply<seq<ReviewApp>>)
    returns (r: Result<string>, calls: seq<Call>)
    ensures Trace(r, calls, []) == BranchLookup(branchName, definition, appsReply)
  {
    calls := [];
    var group := GetGroupName(definition);
    if group.Err? {
      return Err(group.error), calls;
    }
    calls := [Call("GET", ReviewAppsPath(group.value), NoBody)];
    var apps := GetReviewApps(appsReply);
    if apps.Err? {
      return Err(apps.error), calls;
    }
    var heritageName := GetHeritageName(branchName, apps.value);
    if heritageName == "" {
      return Err("No heritage found for branch: " + branchName), calls;
    }
    r := Ok(heritageName);
  }

  /* ---- the action ---- */

  /** The flags and arguments of `run`; `memory` is 0 and text flags are empty when not given. */
  datatype RunFlags = RunFlags(
    environment: string,
    heritageName: string,
    branch: string,
    memory: int,
    user: string,
    detach: bool,
    envVars: seq<string>,
    args: seq<string>)

  const EnvironmentHeritageExclusive: string := "environment and heritage-name are exclusive"
  const BranchExclusive: string := "environment, heritage-name and branch-name are exclusive"
  const CommandRequired: string := "Command is required"

  /** What the checks before connecting decide: the error the action returns, or the heritage and
      parameters of the task; with the requests sent so far either way. */
  datatype Prepared =
    | Refused(error: CliError, calls: seq<Call>)
    | Ready(heritageName: string, params: OneoffParams, calls: seq<Call>)

  /** Where the checks before the variables leave the action: stopped with an error, or with the
      environment's variables and the heritage to run in; with the requests sent so far. */
  datatype Located =
    | Stopped(error: CliError, calls: seq<Call>)
    | Located(base: map<string, string>, heritageName: string, calls: seq<Call>)

  /** The action up to finding the heritage, in its order: the environment's variables, the
      exclusive flags, the branch's heritage (whose error is returned as is), the environment's
      heritage. */
  function Locate(flags: RunFlags, config: Result<map<string, Environment>>,
                  definition: Result<ReviewAppDefinition>, appsReply: Reply<seq<ReviewApp>>): Located
  {
    match BaseVars(config, flags.environment)
    case Err(e) => Stopped(ExitError(e, 1), [])
    case Ok(base) =>
      if flags.environment != "" && flags.heritageName != "" then Stopped(ExitError(EnvironmentHeritageExclusive, 1), [])
      else if flags.branch != "" && (flags.environment != "" || flags.heritageName != "") then
        Stopped(ExitError(BranchExclusive, 1), [])
      else
        var lookup := if flags.branch != "" then BranchLookup(flags.branch, definition, appsReply)
                      else Trace(Ok(flags.heritageName), [], []);
        match lookup.result
        case Err(e) => Stopped(PlainError(e), lookup.calls)
        case Ok(named) =>
          if named != "" then Located(base, named, lookup.calls)
          else match LoadEnvironment(config, flags.environment)
               case Err(e) => Stopped(ExitError(e, 1), lookup.calls)
               case Ok(env) => Located(base, env.name, lookup.calls)
  }

  /** The task's parameters once the heritage is known: the `--envvar` flags override the
      environment's variables, and a command is required. */
  function Payload(flags: RunFlags, base: map<string, string>): Result<OneoffParams> {
    var parsed := if |flags.envVars| > 0 then ParsedVars(flags.envVars) else Ok(map[]);
    match parsed
    case Err(e) => Err(e)
    case Ok(overrides) =>
      if |flags.args| == 0 then Err(CommandRequired)
      else
        Ok(OneoffParams(!flags.detach, Strings.Join(flags.args, " "), base + overrides,
                        if flags.memory > 0 then Some(flags.memory) else None,
                        if flags.user != "" then Some(flags.user) else None))
  }

  /** The action up to connecting. */
  function Prepare(flags: RunFlags, config: Result<map<string, Environment>>,
                   definition: Result<ReviewAppDefinition>, appsReply: Reply<seq<ReviewApp>>): Prepared
  {
    match Locate(flags, config, definition, appsReply)
    case Stopped(e, calls) => Refused(e, calls)
    case Located(base, heritageName, calls) =>
      match Payload(flags, base)
      case Err(e) => Refused(ExitError(e, 1), calls)
      case Ok(params) => Ready(heritageName, params, calls)
  }

  /** Two of the three ways to name the heritage are refused together, after the environment's
      variables loaded, and before any request. */
  lemma ExclusiveFlags(flags: RunFlags, config: Result<map<string, Environment>>,
                       definition: Result<ReviewAppDefinition>, appsReply: Reply<seq<ReviewApp>>)
    requires BaseVars(config, flags.environment).Ok?
    ensures flags.environment != "" && flags.heritageName != "" ==>
              Prepare(flags, config, definition, appsReply) == Refused(ExitError(EnvironmentHeritageExclusive, 1), [])
    ensures flags.branch != "" && (flags.environment != "") != (flags.heritageName != "") ==>
              Prepare(flags, config, definition, appsReply) == Refused(ExitError(BranchExclusive, 1), [])
    ensures Prepare(flags, config, definition, appsReply).Ready? ==>
              (flags.environment == "" || flags.heritageName == "")
              && (flags.branch == "" || (flags.environment == "" && flags.heritageName == ""))
  {
  }

  /** A task is only started with a command, the arguments joined by spaces; it is interactive
      unless detached; memory and user are sent only when given. */
  lemma ReadyParams(flags: RunFlags, config: Result<map<string, Environment>>,
                    definition: Result<ReviewAppDefinition>, appsReply: Reply<seq<ReviewApp>>)
    ensures var p := Prepare(flags, config, definition, appsReply);
            && (flags.args == [] ==> p.Refused?)
            && (p.Ready? ==>
                  && |flags.args| > 0
                  && p.params.command == Strings.Join(flags.args, " ")
                  && p.params.interactive == !flags.detach
                  && (p.params.memory.Some? <==> flags.memory > 0)
                  && (p.params.memory.Some? ==> p.params.memory.value == flags.memory)
                  && (p.params.user.Some? <==> flags.user != "")
                  && (p.params.user.Some? ==> p.params.user.value == flags.user))
  {
  }

  /** Where the task runs: the heritage named by the flag, the branch's review app, or else the
      environment; only the branch costs a request. */
  lemma ReadyTarget(flags: RunFlags, config: Result<map<string, Environment>>,
                    definition: Result<ReviewAppDefinition>, appsReply: Reply<seq<ReviewApp>>)
    requires Prepare(flags, config, definition, appsReply).Ready?
    ensures var p := Prepare(flags, config, definition, appsReply);
            && (flags.heritageName != "" ==> p.heritageName == flags.heritageName && p.calls == [])
            && (flags.branch != "" ==>
                  && definition.Ok? && appsReply.Decoded?
                  && p.calls == [Call("GET", ReviewAppsPath(definition.value.groupName), NoBody)]
                  && exists i :: 0 <= i < |appsReply.value| && appsReply.value[i].subject == flags.branch
                                 && appsReply.value[i].heritageName == p.heritageName)
            && (flags.heritageName == "" && flags.branch == "" ==>
                  && p.calls == []
                  && LoadEnvironment(config, flags.environment).Ok?
                  && p.heritageName == LoadEnvironment(config, flags.environment).value.name)
  {
    if flags.branch != "" {
      BranchLookupMeaning(flags.branch, definition.value, appsReply.value);
    }
  }

  /** The task's variables: the environment's own, overridden by the `--envvar` flags, where the
      last flag for a name wins. */
  lemma ReadyVars(flags: RunFlags, config: Result<map<string, Environment>>,
                  definition: Result<ReviewAppDefinition>, appsReply: Reply<seq<ReviewApp>>, i: nat)
    requires Prepare(flags, config, definition, appsReply).Ready?
    requires i < |flags.envVars|
    requires ParseEnvVar(flags.envVars[i]).Some?
    requires forall j :: i < j < |flags.envVars| && ParseEnvVar(flags.envVars[j]).Some? ==>
               NameOf(flags.envVars[j]) != NameOf(flags.envVars[i])
    ensures AllParse(flags.envVars)
    ensures var vars := Prepare(flags, config, definition, appsReply).params.envVars;
            var v := ParseEnvVar(flags.envVars[i]).value;
            v.name in vars && vars[v.name] == v.value
  {
    assert FirstInvalid(flags.envVars) == |flags.envVars|;
    AssignLast(flags.envVars, i);
  }

  /** The environment's variables are passed unless a flag names them. */
  lemma ReadyBaseVars(flags: RunFlags, config: Result<map<string, Environment>>,
                      definition: Result<ReviewAppDefinition>, appsReply: Reply<seq<ReviewApp>>, name: string)
    requires Prepare(flags, config, definition, appsReply).Ready?
    requires forall j :: 0 <= j < |flags.envVars| && ParseEnvVar(flags.envVars[j]).Some? ==>
               NameOf(flags.envVars[j]) != name
    ensures BaseVars(config, flags.environment).Ok?
    ensures var base := BaseVars(config, flags.environment).value;
            var vars := Prepare(flags, config, definition, appsReply).params.envVars;
            (name in vars <==> name in base) && (name in base ==> vars[name] == base[name])
  {
    if |flags.envVars| > 0 {
      assert FirstInvalid(flags.envVars) == |flags.envVars|;
      AssignKeys(flags.envVars, name);
    }
  }

  /** The action's checks up to finding the heritage. */
  method LocateHeritage(flags: RunFlags, config: Result<map<string, Environment>>,
                        definition: Result<ReviewAppDefinition>, appsReply: Reply<seq<ReviewApp>>)
    returns (l: Located)
    ensures l == Locate(flags, config, definition, appsReply)
  {
    var base := LoadEnvVars(config, flags.environment);
    if base.Err? {
      return Stopped(ExitError(base.error, 1), []);
    }
    if flags.environment != "" && flags.heritageName != "" {
      return Stopped(ExitError(EnvironmentHeritageExclusive, 1), []);
    }
    var heritageName := flags.heritageName;
    var calls := [];
    if flags.branch != "" {
      if flags.environment != "" || flags.heritageName != "" {
        return Stopped(ExitError(BranchExclusive, 1), []);
      }
      var name;
      name, calls := BranchHeritageName(flags.branch, definition, appsReply);
      if name.Err? {
        return Stopped(PlainError(name.error), calls);
      }
      heritageName := name.value;
    }
    if heritageName == "" {
      var env := LoadEnvironment(config, flags.environment);
      if env.Err? {
        return Stopped(ExitError(env.error, 1), calls);
      }
      heritageName := env.value.name;
    }
    l := Located(base.value, heritageName, calls);
  }

  /** The action's checks once the heritage is known. */
  method BuildParams(flags: RunFlags, base: map<string, string>) returns (r: Result<OneoffParams>)
    ensures r == Payload(flags, base)
  {
    var envVars := base;
    if |flags.envVars| > 0 {
      var varmap := CheckEnvVars(flags.envVars);
      if varmap.Err? {
        return Err(varmap.error);
      }
      envVars := MergeVars(envVars, varmap.value);
      assert envVars == base + varmap.value;
    } else {
      assert envVars == base + map[];
    }
    if |flags.args| == 0 {
      return Err(CommandRequired);
    }
    r := Ok(OneoffParams(!flags.detach, Strings.Join(flags.args, " "), envVars,
                         if flags.memory > 0 then Some(flags.memory) else None,
                         if flags.user != "" then Some(flags.user) else None));
  }

  /** The action up to connecting: LocateHeritage, then BuildParams. */
  method PrepareRun(flags: RunFlags, config: Result<map<string, Environment>>,
                    definition: Result<ReviewAppDefinition>, appsReply: Reply<seq<ReviewApp>>)
    returns (p: Prepared)
    ensures p == Prepare(flags, config, definition, appsReply)
  {
    var located := LocateHeritage(flags, config, definition, appsReply);
    if located.Stopped? {
      return Refused(located.error, located.calls);
    }
    var params := BuildParams(flags, located.base);
    if params.Err? {
      return Refused(ExitError(params.error, 1), located.calls);
    }
    p := Ready(located.heritageName, params.value, located.calls);
  }

  /** The action's last step: connecting to the prepared heritage with the prepared parameters,
      after the requests the preparation sent. `c` is how connecting ended. */
  method ConnectPrepared(p: Prepared, detach: bool, postReply: Reply<OneoffResponse>, polls: seq<Reply<OneoffResponse>>,
                         sshConfig: SshConfig, runner: CommandRunner, store: FileStore, console: Console)
    returns (f: Finish, calls: seq<Call>, sleeps: nat, c: Connection)
    requires p.Ready?
    modifies store`files, runner`invocations, console`out
    ensures p.calls <= calls
    ensures Connected(p.params, p.heritageName, detach, postReply, polls, sshConfig,
                      runner, store, console, c, calls[|p.calls|..], sleeps)
    ensures f == FinishOf(c)
  {
    var connectCalls;
    c, connectCalls, sleeps := ConnectToHeritage(p.params, p.heritageName, detach, postReply, polls,
                                                 sshConfig, runner, store, console);
    calls := p.calls + connectCalls;
    assert calls[|p.calls|..] == connectCalls;
    f := FinishOf(c);
  }

  /** RunCommand's action. A refused run sends only the preparation's requests and changes
      nothing; a ready one goes on as connectToHeritage does, `c` being how that ended. */
  method Action(flags: RunFlags, config: Result<map<string, Environment>>,
                definition: Result<ReviewAppDefinition>, appsReply: Reply<seq<ReviewApp>>,
                postReply: Reply<OneoffResponse>, polls: seq<Reply<OneoffResponse>>,
                sshConfig: SshConfig, runner: CommandRunner, store: FileStore, console: Console)
    returns (f: Finish, calls: seq<Call>, sleeps: nat, c: Option<Connection>)
    modifies store`files, runner`invocations, console`out
    ensures var p := Prepare(flags, config, definition, appsReply);
            && (p.Refused? ==> f == Done(p.error) && calls == p.calls && sleeps == 0 && c.None?
                               && OnlyPrinted(runner, store, console, []))
            && (p.Ready? ==>
                  && c.Some? && p.calls <= calls
                  && Connected(p.params, p.heritageName, flags.detach, postReply, polls, sshConfig,
                               runner, store, console, c.value, calls[|p.calls|..], sleeps)
                  && f == FinishOf(c.value))
  {
    var p := PrepareRun(flags, config, definition, appsReply);
    if p.Refused? {
      return Done(p.error), p.calls, 0, None;
    }
    var connection;
    f, calls, sleeps, connection := ConnectPrepared(p, flags.detach, postReply, polls, sshConfig, runner, store, console);
    c := Some(connection);
  }
}
