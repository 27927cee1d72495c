/** The login operation: logs in through GitHub or Vault, saves the login, and makes sure the
    user has an SSH key pair whose public key is registered with the API. Terminal input is a
    script of lines shared by every question asked; `ssh-keygen` runs through the command runner. */
module LoginOperation {
  import opened Wrappers
  import opened Operation
  import opened ApiTypes
  import opened Effects
  import opened Prompt
  import opened Strings
  import ApiClient

  /** LoginOperation: the API endpoint, the backend, and the tokens and Vault URL from the flags. */
  datatype LoginOperation = LoginOperation(
    endpoint: string,
    backend: string,
    ghToken: string,
    vaultToken: string,
    vaultUrl: string)

  /** The login configuration: the saved logins, the error writing it gives (if any), and the
      key pair's paths. */
  class LoginConfig {
    var saved: seq<ApiClient.Login>
    const writeFailure: Option<string>
    const publicKeyPath: string
    const privateKeyPath: string

    constructor (writeFailure: Option<string>, publicKeyPath: string, privateKeyPath: string)
      ensures saved == [] && this.writeFailure == writeFailure
      ensures this.publicKeyPath == publicKeyPath && this.privateKeyPath == privateKeyPath
    {
      saved := [];
      this.writeFailure := writeFailure;
      this.publicKeyPath := publicKeyPath;
      this.privateKeyPath := privateKeyPath;
    }

    /** WriteLogin: saves the login, or fails and saves nothing. */
    method WriteLogin(auth: string, token: string, endpoint: string) returns (o: Outcome)
      modifies this`saved
      ensures writeFailure.Some? ==> o == Fail(writeFailure.value) && saved == old(saved)
      ensures writeFailure.None? ==> o == Pass && saved == old(saved) + [ApiClient.Login(auth, token, endpoint)]
    {
      if writeFailure.Some? {
        return Fail(writeFailure.value);
      }
      saved := saved + [ApiClient.Login(auth, token, endpoint)];
      o := Pass;
    }
  }

  const TokenHint: string := "Create new GitHub access token with read:org permission here https://github.com/settings/tokens/new\n"
  const VaultUrlHint: string := "URL of vault server (e.g. https://vault.degica.com)\n"
  const GeneratingLine: string := "Generating your SSH key pair...\n"
  const RegisteringLine: string := "Registering your public key...\n"

  /** The value a flag gives or, when the flag is empty, the answer to the question. */
  function Given(flag: string, replies: seq<ReadReply>): (v: string)
    requires flag == "" ==> Answers(replies, true)
    ensures v != ""
    ensures flag != "" ==> v == flag
  {
    if flag != "" then flag else Answer(replies, true)
  }

  /** The input lines that obtaining the value consumes: none when the flag gives it. */
  function Consumed(flag: string, replies: seq<ReadReply>): (n: nat)
    requires flag == "" ==> Answers(replies, true)
    ensures n <= |replies|
  {
    if flag != "" then 0 else FirstAccepted(replies, true) + 1
  }

  /** What obtaining the value prints: nothing when the flag gives it, otherwise the hint and a
      prompt per line read. */
  function Asked(flag: string, hint: string, question: string, replies: seq<ReadReply>): seq<string>
    requires flag == "" ==> Answers(replies, true)
  {
    if flag != "" then [] else [hint] + Repeat(question + ": ", Consumed(flag, replies))
  }

  /** Takes the value from the flag, or asks for it (an answer is required) when the flag is empty. */
  method Obtain(flag: string, hint: string, question: string, secret: bool, replies: seq<ReadReply>)
    returns (v: string, used: nat, printed: seq<string>)
    requires flag == "" ==> Answers(replies, true)
    ensures v == Given(flag, replies) && used == Consumed(flag, replies)
    ensures printed == Asked(flag, hint, question, replies)
  {
    if |flag| > 0 {
      return flag, 0, [];
    }
    var asked;
    v, used, asked := Ask(question, true, secret, replies);
    printed := [hint] + asked;
  }

  /** The input a Vault login needs: a token answer when the flag has none, then a URL answer
      from the lines that follow when the flag has none. */
  predicate VaultAnswers(op: LoginOperation, replies: seq<ReadReply>) {
    && (op.vaultToken == "" ==> Answers(replies, true))
    && (op.vaultUrl == "" ==> Answers(replies[Consumed(op.vaultToken, replies)..], true))
  }

  /** The input `run` needs before it can return. */
  predicate LoginAnswers(op: LoginOperation, replies: seq<ReadReply>) {
    && (op.backend == "github" && op.ghToken == "" ==> Answers(replies, true))
    && (op.backend == "vault" ==> VaultAnswers(op, replies))
  }

  /** The result of a login step: the login's error, the error saving it, or ok. */
  function LoginStepResult(cfg: LoginConfig, login: Result<User>): (r: RunResult)
    ensures r.Result?
    ensures login.Err? ==> r == ErrorResult(login.error)
    ensures login.Ok? && cfg.writeFailure.Some? ==> r == ErrorResult(cfg.writeFailure.value)
    ensures login.Ok? && cfg.writeFailure.None? ==> r == OkResult()
  {
    if login.Err? then ErrorResult(login.error)
    else if cfg.writeFailure.Some? then ErrorResult(cfg.writeFailure.value)
    else OkResult()
  }

  /** The saved logins after a login step: the backend, the token the API returned and the
      endpoint, added only when the login succeeded and could be saved. */
  twostate predicate StoredLogin(cfg: LoginConfig, backend: string, new login: Result<User>, endpoint: string)
    reads cfg
  {
    cfg.saved == old(cfg.saved) +
      (if login.Ok? && cfg.writeFailure.None? then [ApiClient.Login(backend, login.value.token, endpoint)] else [])
  }

  /** githubLogin. `github` stands for LoginWithGithub(endpoint, token). */
  method GithubLogin(op: LoginOperation, github: (string, string) -> Result<User>, replies: seq<ReadReply>, cfg: LoginConfig)
    returns (r: RunResult, used: nat, out: seq<string>)
    requires op.ghToken == "" ==> Answers(replies, true)
    modifies cfg`saved
    ensures var login := github(op.endpoint, Given(op.ghToken, replies));
            r == LoginStepResult(cfg, login) && StoredLogin(cfg, op.backend, login, op.endpoint)
    ensures used == Consumed(op.ghToken, replies)
    ensures out == ["Logging in with Github\n"] + Asked(op.ghToken, TokenHint, "GitHub Token", replies)
  {
    var token, printed;
    token, used, printed := Obtain(op.ghToken, TokenHint, "GitHub Token", true, replies);
    out := ["Logging in with Github\n"] + printed;
    var login := github(op.endpoint, token);
    if login.Err? {
      return ErrorResult(login.error), used, out;
    }
    var written := cfg.WriteLogin(op.backend, login.value.token, op.endpoint);
    if written.Fail? {
      return ErrorResult(written.error), used, out;
    }
    r := OkResult();
  }

  /** vaultLogin. `vault` stands for LoginWithVault(endpoint, url, token). The token is asked
      first, then the URL from the lines after the token's answer. */
  method VaultLogin(op: LoginOperation, vault: (string, string, string) -> Result<User>, replies: seq<ReadReply>,
                    cfg: LoginConfig)
    returns (r: RunResult, used: nat, out: seq<string>)
    requires VaultAnswers(op, replies)
    modifies cfg`saved
    ensures var rest := replies[Consumed(op.vaultToken, replies)..];
            var login := vault(op.endpoint, Given(op.vaultUrl, rest), Given(op.vaultToken, replies));
            r == LoginStepResult(cfg, login) && StoredLogin(cfg, op.backend, login, op.endpoint)
    ensures var rest := replies[Consumed(op.vaultToken, replies)..];
            && used == Consumed(op.vaultToken, replies) + Consumed(op.vaultUrl, rest)
            && out == ["Logging in with Vault\n"] + Asked(op.vaultToken, TokenHint, "GitHub Token", replies)
                      + Asked(op.vaultUrl, VaultUrlHint, "Vault server URL", rest)
  {
    var token, usedToken, askedToken := Obtain(op.vaultToken, TokenHint, "GitHub Token", true, replies);
    var rest := replies[usedToken..];
    var url, usedUrl, askedUrl := Obtain(op.vaultUrl, VaultUrlHint, "Vault server URL", false, rest);
    used := usedToken + usedUrl;
    out := ["Logging in with Vault\n"] + askedToken + askedUrl;
    var login := vault(op.endpoint, url, token);
    if login.Err? {
      return ErrorResult(login.error), used, out;
    }
    var written := cfg.WriteLogin(op.backend, login.value.token, op.endpoint);
    if written.Fail? {
      return ErrorResult(written.error), used, out;
    }
    r := OkResult();
  }

  /** The number of spaces `s` ends with. */
  function TrailingBlanks(s: string): (k: nat)
    ensures k <= |s|
    ensures forall i :: |s| - k <= i < |s| ==> s[i] == ' '
    ensures k < |s| ==> s[|s| - 1 - k] != ' '
  {
    if |s| == 0 || s[|s| - 1] != ' ' then 0 else 1 + TrailingBlanks(s[..|s| - 1])
  }

  /** The public key as registered: the key file's text with the regular expression ` *\n$`
      replaced by nothing, so a final newline goes, together with the spaces right before it. */
  function TrimPublicKey(s: string): (r: string)
    ensures r <= s
    ensures (|s| == 0 || s[|s| - 1] != '\n') ==> r == s
    ensures |s| > 0 && s[|s| - 1] == '\n' ==>
              && |r| < |s|
              && (forall i :: |r| <= i < |s| - 1 ==> s[i] == ' ')
              && (r == [] || r[|r| - 1] != ' ')
  {
    if |s| > 0 && s[|s| - 1] == '\n' then
      var t := s[..|s| - 1];
      t[..|t| - TrailingBlanks(t)]
    else s
  }

  lemma {:induction false} TrailingBlanksPadded(k: string, n: nat)
    requires k == [] || k[|k| - 1] != ' '
    ensures TrailingBlanks(k + Repeat(' ', n)) == n
  {
    if n > 0 {
      var s := k + Repeat(' ', n);
      assert s[..|s| - 1] == k + Repeat(' ', n - 1);
      TrailingBlanksPadded(k, n - 1);
    }
  }

  /** A key that does not end in a space, followed by any number of spaces and a newline, is
      registered as the key alone. */
  lemma TrimPublicKeyPadded(k: string, n: nat)
    requires k == [] || k[|k| - 1] != ' '
    ensures TrimPublicKey(k + Repeat(' ', n) + "\n") == k
  {
    var s := k + Repeat(' ', n) + "\n";
    assert s[..|s| - 1] == k + Repeat(' ', n);
    TrailingBlanksPadded(k, n);
  }

  /** Only the last line ending goes: a key followed by two newlines keeps one of them. */
  lemma TrimPublicKeyOneNewline(k: string)
    ensures TrimPublicKey(k + "\n\n") == k + "\n"
  {
    var s := k + "\n\n";
    assert s[..|s| - 1] == k + "\n";
  }

  /** The arguments of the key generation. */
  function KeygenArgs(privateKeyPath: string): seq<string> {
    ["-t", "ecdsa", "-b", "521", "-f", privateKeyPath, "-C", ""]
  }

  /** What setUpKeys does. A missing public key file means a key pair is generated first, and a
      failed generation stops there. The public key is registered when it was missing or when
      the user has none: the key file is read, the client reloaded, and the trimmed key PATCHed
      to `/user`; each step's error is the result. A key file that exists and a user with a
      public key leave everything as it was. */
  twostate predicate KeysSetUp(cfg: LoginConfig, user: User, store: FileStore, runner: CommandRunner,
                               generatedKey: string, reload: Outcome, patchReply: Outcome,
                               r: RunResult, calls: seq<Call>, out: seq<string>)
    reads store, runner
  {
    var keyExists := cfg.publicKeyPath in old(store.files);
    var keygen := Invocation("ssh-keygen", KeygenArgs(cfg.privateKeyPath), old(store.files));
    if !keyExists && runner.exit.Fail? then
      && r == ErrorResult(runner.exit.error) && calls == [] && out == [GeneratingLine]
      && store.files == old(store.files)
      && runner.invocations == old(runner.invocations) + [keygen]
    else
      && store.files == (if keyExists then old(store.files) else old(store.files)[cfg.publicKeyPath := generatedKey])
      && runner.invocations == old(runner.invocations) + (if keyExists then [] else [keygen])
      && (keyExists && user.publicKey != "" ==> r == OkResult() && calls == [] && out == [])
      && (!keyExists || user.publicKey == "" ==>
            && out == (if keyExists then [] else [GeneratingLine]) + [RegisteringLine]
            && var contents := store.Contents(cfg.publicKeyPath);
               && (contents.Err? ==> r == ErrorResult(contents.error) && calls == [])
               && (contents.Ok? && reload.Fail? ==> r == ErrorResult(reload.error) && calls == [])
               && (contents.Ok? && reload.Pass? ==>
                     && calls == [Call("PATCH", "/user", PublicKeyBody(TrimPublicKey(contents.value)))]
                     && r == (if patchReply.Fail? then ErrorResult(patchReply.error) else OkResult())))
  }

  /** setUpKeys. `generatedKey` is the public key `ssh-keygen` writes; `reload` and `patchReply`
      are the client's answers to ReloadDefaultClient and the PATCH. */
  method SetUpKeys(cfg: LoginConfig, user: User, store: FileStore, runner: CommandRunner,
                   generatedKey: string, reload: Outcome, patchReply: Outcome)
    returns (r: RunResult, calls: seq<Call>, out: seq<string>)
    modifies store`files, runner`invocations
    ensures KeysSetUp(cfg, user, store, runner, generatedKey, reload, patchReply, r, calls, out)
  {
    calls := [];
    out := [];
    var keyExists := store.FileExists(cfg.publicKeyPath);
    if !keyExists {
      out := out + [GeneratingLine];
      var generated := runner.RunCommand("ssh-keygen", KeygenArgs(cfg.privateKeyPath), store);
      if generated.Fail? {
        return ErrorResult(generated.error), calls, out;
      }
      store.files := store.files[cfg.publicKeyPath := generatedKey];
    }
    if !keyExists || |user.publicKey| == 0 {
      out := out + [RegisteringLine];
      var pubKey := store.ReadFile(cfg.publicKeyPath);
      if pubKey.Err? {
        return ErrorResult(pubKey.error), calls, out;
      }
      if reload.Fail? {
        return ErrorResult(reload.error), calls, out;
      }
      calls := [Call("PATCH", "/user", PublicKeyBody(TrimPublicKey(pubKey.value)))];
      if patchReply.Fail? {
        return ErrorResult(patchReply.error), calls, out;
      }
    }
    r := OkResult();
  }

  /** The result of the login the backend performs. */
  function BackendLogin(op: LoginOperation, github: (string, string) -> Result<User>,
                        vault: (string, string, string) -> Result<User>, replies: seq<ReadReply>): Result<User>
    requires op.backend == "github" || op.backend == "vault"
    requires LoginAnswers(op, replies)
  {
    if op.backend == "github" then github(op.endpoint, Given(op.ghToken, replies))
    else
      var rest := replies[Consumed(op.vaultToken, replies)..];
      vault(op.endpoint, Given(op.vaultUrl, rest), Given(op.vaultToken, replies))
  }

  /** What the backend's login prints. */
  function BackendPrinted(op: LoginOperation, replies: seq<ReadReply>): seq<string>
    requires op.backend == "github" || op.backend == "vault"
    requires LoginAnswers(op, replies)
  {
    if op.backend == "github" then ["Logging in with Github\n"] + Asked(op.ghToken, TokenHint, "GitHub Token", replies)
    else
      var rest := replies[Consumed(op.vaultToken, replies)..];
      ["Logging in with Vault\n"] + Asked(op.vaultToken, TokenHint, "GitHub Token", replies)
        + Asked(op.vaultUrl, VaultUrlHint, "Vault server URL", rest)
  }

  /** LoginOperation.run. An empty endpoint and an unknown backend are refused with nothing
      done. Otherwise the backend logs in; a failed login or save stops there, and else the keys
      are set up for the user record `run` starts with, which has no public key, so the key is
      registered whenever it can be read. */
  method Run(op: LoginOperation, github: (string, string) -> Result<User>,
             vault: (string, string, string) -> Result<User>, replies: seq<ReadReply>,
             cfg: LoginConfig, store: FileStore, runner: CommandRunner,
             generatedKey: string, reload: Outcome, patchReply: Outcome)
    returns (r: RunResult, calls: seq<Call>, out: seq<string>)
    requires op.endpoint != "" ==> LoginAnswers(op, replies)
    modifies cfg`saved, store`files, runner`invocations
    ensures r.Result?
    ensures op.endpoint == "" ==> r == ErrorResult("endpoint is required")
    ensures op.endpoint != "" && op.backend != "github" && op.backend != "vault" ==>
              r == ErrorResult("Unrecognized auth backend")
    ensures (op.endpoint == "" || (op.backend != "github" && op.backend != "vault")) ==>
              && calls == [] && out == []
              && cfg.saved == old(cfg.saved) && store.files == old(store.files)
              && runner.invocations == old(runner.invocations)
    ensures op.endpoint != "" && (op.backend == "github" || op.backend == "vault") ==>
              var login := BackendLogin(op, github, vault, replies);
              var printed := BackendPrinted(op, replies);
              && StoredLogin(cfg, op.backend, login, op.endpoint)
              && |printed| <= |out| && out[..|printed|] == printed
              && (LoginStepResult(cfg, login).isError ==>
                    && r == LoginStepResult(cfg, login) && calls == [] && out == printed
                    && store.files == old(store.files) && runner.invocations == old(runner.invocations))
              && (!LoginStepResult(cfg, login).isError ==>
                    KeysSetUp(cfg, User("", "", ""), store, runner, generatedKey, reload, patchReply,
                              r, calls, out[|printed|..]))
  {
    if |op.endpoint| == 0 {
      return ErrorResult("endpoint is required"), [], [];
    }
    var user := User("", "", "");
    var printed;
    if op.backend == "github" {
      var result, used;
      result, used, printed := GithubLogin(op, github, replies, cfg);
      if result.isError {
        return result, [], printed;
      }
    } else if op.backend == "vault" {
      var result, used;
      result, used, printed := VaultLogin(op, vault, replies, cfg);
      if result.isError {
        return result, [], printed;
      }
    } else {
      return ErrorResult("Unrecognized auth backend"), [], [];
    }
    var keyOut;
    r, calls, keyOut := SetUpKeys(cfg, user, store, runner, generatedKey, reload, patchReply);
    out := printed + keyOut;
    assert out[|printed|..] == keyOut;
  }
}
