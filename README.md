# barcelona-cli core, modelled in Dafny

This project models the core of `bcn`, the command-line client of the Barcelona
container platform. The model covers:

- **The operations layer.** Each sub-command is an operation whose `run` yields a result
  record (`runResult`), turned into the process exit status by `Execute`. Modelled are the
  raw API call, the app delete and show, the endpoint CRUD, login with GitHub or Vault plus
  SSH key set-up, profile management, and `sshcmd`.
- **The prompt helpers.** `Ask` and `AreYouSure` are modelled over a scripted reader.
- **The API client.** This covers the URL with its `/v1` prefix, the auth headers, status
  handling, error text, the debug dump with token redaction, and default filling of heritage
  and service records.
- **The SSH helper.** It writes the certificate, builds the argument vector and runs `ssh`.
- **One-off tasks (the `run` command).** This covers checking and merging the environment
  variables, the mutually exclusive flags, heritage lookup by environment or review-app
  branch, and `connectToHeritage`. The latter creates the task, polls until it runs, finds
  its container instance and opens the session.
- **Review apps (`review deploy`, `delete`, `list`, `run`).** Their paths depend on the CI
  token when one is given.

Effects are explicit:

- State the program changes is held in classes whose fields the methods update:
  - `Effects.FileStore`: the files on disk;
  - `Effects.CommandRunner`: the commands run;
  - `Effects.Console`: standard output;
  - `LoginOperation.LoginConfig`: the saved logins;
  - `ApiClient.HttpRequest`: headers and query;
  - `ApiTypes.Service` / `ApiTypes.Heritage`: the records whose defaults are filled in.
- HTTP answers, user input and outside services are values given up front:
  - `Reply` for an API answer: failed, undecodable or decoded;
  - `ReadReply` for a line read from the terminal;
  - function parameters for GitHub/Vault login, JSON decoding and pretty printing.
- Operations return the requests they send as a list of `Call` values, along with what
  they print.

Module overview:

| module | file | models |
|---|---|---|
| `Wrappers` | wrappers.dfy | Option, Result, Outcome |
| `Strings` | strings.dfy | `strings.TrimSpace`, `strings.Join`, decimal formatting |
| `Effects` | effects.dfy | file store, command runner, console, API call trace |
| `Operation` | operation.dfy | operations/operation.go |
| `Prompt` | are_you_sure.dfy | utils/are_you_sure.go |
| `ApiTypes` | api_types.dfy | api/types.go |
| `ApiClient` | api_client.dfy | api/client.go |
| `SshSession` | ssh_command.dfy | utils/ssh_command.go |
| `ApiOperation`, `AppOperation`, `EndpointOperation`, `LoginOperation`, `ProfileOperation`, `SshcmdOperation` | *_operation.dfy | operations/*_operation.go |
| `Oneoff` | oneoff.dfy | connectToHeritage in cmd/run.go |
| `RunOneoff` | run_command.dfy | the `run` command in cmd/run.go and LoadEnvironment in cmd/util.go |
| `Review` | review.dfy | cmd/review.go |

Where the code and its documentation differ, the model follows the code. For example:

- The one-off poll path and the container lookup use the task record from the creating
  POST, not the polled one.
- A failing SSH session after a one-off starts is not reported (cmd/run.go:231 also tests
  an `err` that is nil there).
- A login always registers the public key, because the `User` that `setUpKeys` inspects is
  never filled in.
- `profile show NAME` prints an empty name and URL, and a saved profile is `{}`. Every field of
  `ProfileFile` is unexported, so JSON encoding ignores them.

## Model

| member | source | states |
|---|---|---|
| Operation.ErrorResult | operations/operation.go:30-35 | an error result carries exactly the given message and is marked as an error |
| Operation.OkResult | operations/operation.go:37-42 | an ok result is not an error and has an empty message |
| Operation.Execute | operations/operation.go:16-28 | no error when the operation declined (nil result) or succeeded; an exit error with the result's message and code 1 exactly when the result is an error |
| Prompt.FirstAccepted | utils/are_you_sure.go:51-64 | the index of the first reply the loop accepts: every earlier reply is a read error or, when an answer is required, blank |
| Prompt.Answer | utils/are_you_sure.go:54-66 | the answer is the trimmed text of the first accepted reply; non-empty when required; no leading or trailing white space |
| Prompt.Ask | utils/are_you_sure.go:48-67 | asks once per reply up to the accepted one, printing "s: " each time, and returns that reply trimmed |
| Prompt.ConfirmPrompts | utils/are_you_sure.go:41-46 | one "message [y/n]: " prompt per attempt, up to the accepted reply |
| Prompt.AreYouSure | utils/are_you_sure.go:41-46 | true exactly when the accepted reply trims to "y"; prompts as ConfirmPrompts says |
| Prompt.ConfirmingLine | utils/are_you_sure.go:44 | a line confirms exactly when it is a single 'y' surrounded only by white space |
| Prompt.ConfirmExamples | utils/are_you_sure.go:44 | "y\n" confirms and "n\n" does not |
| Prompt.LineAnswer | utils/are_you_sure.go:54-63 | a trimmed line read without error is the answer, whatever follows |
| Prompt.OnlyLowerYConfirms | utils/are_you_sure.go:44 | "Y", "yes" and the empty line do not confirm |
| Prompt.ReadErrorRetries | utils/are_you_sure.go:57-59 | a read error costs one more prompt and does not change the outcome |
| Prompt.BlankLine | utils/are_you_sure.go:60-63 | a blank line is refused when an answer is required and is the empty answer otherwise |
| ApiTypes.ErrorText | api/types.go:312-318 | the message alone outside debug mode; in debug mode the message followed by the debug message and the backtrace, one frame per line |
| ApiTypes.ErrorTextDebugEndsWithBacktrace | api/types.go:312-318 | in debug mode the text ends with the last backtrace frame and a newline |
| ApiTypes.ErrorTextExample | api/types_test.go:5-11 | an error without debug shows only its message |
| ApiTypes.FillDefaults | api/types.go:188-204 | memory 0 becomes 512, an empty service type becomes "default", missing hosts and listeners become empty lists; set values are kept |
| ApiTypes.FillDefaultsFixpoint | api/types.go:188-204 | filling defaults changes a record exactly when it lacks one; filling twice is filling once |
| ApiTypes.Service.FillinDefaults | api/types.go:188-204 | the service's own fields become FillDefaults of their old values |
| ApiTypes.Heritage.FillinDefaults | api/types.go:157-167 | missing scheduled tasks and services become empty lists; every service of the heritage has its defaults filled and nothing else changes |
| ApiClient.RequestUrl | api/client.go:104-105 | the URL is the endpoint, then "/v1", then the path |
| ApiClient.RequestUrlInjective | api/client.go:104-105 | different paths give different URLs for one login |
| ApiClient.AuthHeaders | api/client.go:111-118 | GitHub logins send X-Barcelona-Token only when the token is non-empty; Vault logins always send X-Vault-Token; other backends send none |
| ApiClient.StatusReply | api/client.go:86-101 | success exactly for a 2xx answer with a readable body; a non-2xx answer is an API error when its body decodes as one, otherwise the decoding error; transport and body read errors pass through |
| ApiClient.ReplyErrorText | api/client.go:91-101 | the error a caller sees is the API error's text (debug-aware) or the low-level error; none on success |
| ApiClient.AsReply | api/client.go:104-121 | a caller's view of a reply: failed exactly when the request failed, otherwise the decoded body or the decoding error |
| ApiClient.RawRequestOutputQuiet | api/client.go:64-102 | outside debug mode the only line printed is the notice that an error body could not be parsed; in debug mode the redacted request dump comes first |
| ApiClient.HttpRequest.AddHeader | api/client.go:65-66 | a header is appended and nothing else changes |
| ApiClient.Client.RawRequest | api/client.go:64-102 | adds the JSON content-type and accept headers, adds debug=true to the query in debug mode, prints the debug dump, and classifies the answer by StatusReply |
| ApiClient.Client.Request | api/client.go:104-121 | a verb and URL that http.NewRequest refuses give its error with nothing built, printed or sent; otherwise a fresh request for endpoint+/v1+path with the auth headers, sent as RawRequest says |
| ApiClient.Client.Get | api/client.go:123-125 | Request with verb GET, including its refusal of an unbuildable request |
| ApiClient.Client.Post | api/client.go:127-129 | Request with verb POST, including its refusal of an unbuildable request |
| ApiClient.Client.Patch | api/client.go:131-133 | Request with verb PATCH, including its refusal of an unbuildable request |
| ApiClient.Client.Put | api/client.go:135-137 | Request with verb PUT, including its refusal of an unbuildable request |
| ApiClient.Client.Delete | api/client.go:139-141 | Request with verb DELETE, including its refusal of an unbuildable request |
| ApiClient.AlnumRun | api/client.go:150 | the length of the leading run of `[a-zA-Z0-9]` characters |
| ApiClient.FirstMatch | api/client.go:150 | the first position where "Token: " followed by an alphanumeric starts |
| ApiClient.RedactCopies | api/client.go:150 | text before the first token match is copied unchanged |
| ApiClient.RedactUnchanged | api/client.go:150 | a dump without a token line is printed as is |
| ApiClient.RedactComplete | api/client.go:143-151 | no token survives redaction: the redacted dump contains no "Token: " followed by an alphanumeric |
| ApiClient.RedactToken | api/client.go:150 | a token header's value is replaced by "[filtered]" |
| ApiClient.DumpTokenHeader | api/client.go:143-151 | a header line ending in a token value is printed as "…Token: [filtered]" and a newline |
| ApiClient.DumpNotToken | api/client.go:143-151 | "String: abcdefg" is printed unchanged |
| ApiOperation.Run | operations/api_operation.go:31-47 | a missing method or path is reported before any request; otherwise exactly one request with the given verb, path and body, whose error is the result or whose answer is pretty-printed |
| ApiOperation.RunExitStatus | operations/api_operation.go:31-47 | the command exits cleanly exactly when method and path are given and the request succeeded; a request error becomes exit code 1 with its message |
| ApiOperation.ClientErrorExample | operations/api_operation.go:40-42 | a client error "some error msg" becomes the result's message |
| AppOperation.AppDelete | operations/app_operation.go:36-49 | announces the deletion, asks for confirmation unless it was skipped, sends the DELETE only when not declined, and reports "Deleted name" only on success |
| AppOperation.AppShow | operations/app_operation.go:51-67 | one GET of the heritage; its error, "No such heritage" for an absent heritage, or success |
| AppOperation.Run | operations/app_operation.go:69-83 | a name is required; only delete and show are known; a DELETE goes out exactly when the deletion was confirmed or confirmation was skipped; at most one request |
| AppOperation.DeleteWithoutConfirmation | operations/app_operation.go:36-49 | with confirmation skipped, the output is the announcement and "Deleted name" |
| AppOperation.DeleteAnswered | operations/app_operation.go:36-49 | after a prompt, a confirming answer deletes and a refusing one sends nothing |
| AppOperation.ShowWithoutHeritage | operations/app_operation.go:51-67 | showing an absent heritage exits with "No such heritage" and code 1 |
| EndpointOperation.EndpointUpdate | operations/endpoint_operation.go:117-140 | one PATCH of the endpoint's path carrying only the certificate ARN and SSL policy; a request or decoding error is the result; a decoded answer without an endpoint or its public flag panics in printEndpoint; otherwise ok |
| EndpointOperation.EndpointDelete | operations/endpoint_operation.go:142-153 | asks unless confirmation is skipped; a DELETE only when not declined; its failure is the result |
| EndpointOperation.Run | operations/endpoint_operation.go:44-58 | each known operation sends exactly its request unless declined; request failures and, except for delete, decoding errors are the result; an answer the printer cannot print (no endpoint or public flag, or a list row without district or public flag) panics; unknown operations fail without a request |
| EndpointOperation.EmptyResponse | operations/endpoint_operation.go:97-157 | an empty 2xx object makes show panic in printEndpoint and list print an empty table |
| EndpointOperation.RequestTargets | operations/endpoint_operation.go:60-153 | create and list address the district's endpoint collection, show, update and delete the named endpoint; only create and update send a body |
| EndpointOperation.EndpointPathInjective | operations/endpoint_operation.go:87-100 | different endpoint names have different paths |
| LoginOperation.LoginConfig.WriteLogin | operations/login_operation.go:66-69 | a successful write appends the login; a failing write changes nothing |
| LoginOperation.Given | operations/login_operation.go:55-59 | a flag value is used as is; a missing one is asked for and cannot be empty |
| LoginOperation.Consumed | operations/login_operation.go:55-59 | asking reads at most the replies available |
| LoginOperation.Obtain | operations/login_operation.go:55-59 | takes the flag or asks for it, printing the hint and the prompts |
| LoginOperation.LoginStepResult | operations/login_operation.go:61-71 | a login error, then a save error, is the result; otherwise success |
| LoginOperation.GithubLogin | operations/login_operation.go:53-72 | logs in with the given or asked token, stores the login only when it succeeded, and prints the banner and prompts |
| LoginOperation.VaultLogin | operations/login_operation.go:74-97 | asks for the token, then the Vault URL, in that order; logs in with both and stores the login as GithubLogin does |
| LoginOperation.TrailingBlanks | operations/login_operation.go:125-126 | the number of spaces at the end of a string |
| LoginOperation.TrimPublicKey | operations/login_operation.go:125-126 | a final newline is removed with the spaces before it; a key without a final newline is kept |
| LoginOperation.TrailingBlanksPadded | operations/login_operation.go:125-126 | n spaces appended are counted as n |
| LoginOperation.TrimPublicKeyPadded | operations/login_operation.go:125-126 | a key followed by spaces and a newline is trimmed back to the key |
| LoginOperation.TrimPublicKeyOneNewline | operations/login_operation.go:125-126 | only one trailing newline is removed |
| LoginOperation.SetUpKeys | operations/login_operation.go:99-142 | generates a key pair when there is no public key file, reloads the client, and registers the trimmed public key with PATCH /user; each failure stops with its own error |
| LoginOperation.Run | operations/login_operation.go:144-167 | an endpoint and a known backend are required before anything happens; a failed login or save stops; otherwise the keys are set up |
| ProfileOperation.JoinPath | operations/profile_operation.go:120-122 | joins a directory and a file name with one separator, or gives the name alone for no directory |
| ProfileOperation.ProfilePathInjective | operations/profile_operation.go:120-122 | different profile names have different files |
| ProfileOperation.ProfilePathExamples | operations/profile_operation_test.go:665-677 | the paths the tests expect for "/something", the empty directory and a nested directory |
| ProfileOperation.LoadProfile | operations/profile_operation.go:128-146 | a missing profile is "profile name does not exist" without a read; otherwise the profile's own file is read; its read or decoding error is returned, else the zero profile |
| ProfileOperation.SaveProfile | operations/profile_operation.go:148-159 | the profile's file becomes "{}" whatever the profile holds, or the write error is returned and nothing changes |
| ProfileOperation.ShowProfile | operations/profile_operation.go:70-110 | without a name: the current profile's name, or "default", with the login endpoint; with a name: "Profile does not exist" for a missing file, its read or decoding error, else an empty name and an empty URL; prints only on success |
| ProfileOperation.DecodeProfile | operations/profile_file.go:7-13 | decoding fails exactly with the unmarshal error; otherwise every field of the profile is zero |
| ProfileOperation.Run | operations/profile_operation.go:34-68 | create, delete and use require a name; show as ShowProfile; others are unknown |
| SshSession.SshArgs | utils/ssh_command.go:47-58 | twelve arguments: the fixed options, the proxy command through the bastion, the key, "ec2-user@ip" and the command |
| SshSession.SshArgsDetermined | utils/ssh_command.go:47-58 | the argument vector determines the address, bastion, key and command, and is determined by them |
| SshSession.SessionOutcome | utils/ssh_command.go:41-64 | a certificate write failure is the error; otherwise the outcome of running ssh |
| SshSession.SshCommand.Run | utils/ssh_command.go:41-64 | writes the certificate, stopping on failure; prints the debug line in debug mode; runs ssh with SshArgs on the store as written |
| SshcmdOperation.SignPath | operations/sshcmd_operation.go:45 | "/districts/" + district + "/sign_public_key" |
| SshcmdOperation.SignPathInjective | operations/sshcmd_operation.go:45 | different districts have different signing paths |
| SshcmdOperation.Run | operations/sshcmd_operation.go:37-68 | district and address are required before any request; one POST to the signing path; its error stops; otherwise a session with an empty command, and a failing session ends in the nil-error panic |
| Oneoff.PollPathInjective | cmd/run.go:188 | different task ids are polled at different paths |
| Oneoff.Settled | cmd/run.go:186-207 | the index of the first poll answer that is not PENDING |
| Oneoff.FirstInstance | cmd/run.go:211-217 | the index of the first container instance with the task's ARN |
| Oneoff.FindContainer | cmd/run.go:211-217 | the first matching instance, or none exactly when no instance matches |
| Oneoff.ConnectToHeritage | cmd/run.go:158-236 | POSTs the task; in detach mode stops there; otherwise one poll per answer up to the first that is not pending, sleeping after each pending one; errors for failed polls and other statuses; then the container lookup and the session |
| RunOneoff.NameLength | cmd/run.go:148 | the length of the leading run of `[A-Z_]` characters |
| RunOneoff.ParseMatches | cmd/run.go:148 | a flag parses exactly when it matches `^([A-Z_]+)=(.*)$`; then it is name "=" value with a valid name and a value without newline |
| RunOneoff.ParseFormatted | cmd/run.go:148 | a valid name and a value without newline, joined by "=", parse back to themselves |
| RunOneoff.FirstInvalid | cmd/run.go:147-152 | the index of the first flag that does not parse |
| RunOneoff.AssignKeys | cmd/run.go:153 | the resulting variables are exactly the names of the flags |
| RunOneoff.AssignLast | cmd/run.go:153 | the last flag for a name gives its value |
| RunOneoff.CheckEnvVars | cmd/run.go:145-156 | the first invalid flag is the error; otherwise the map of all flags |
| RunOneoff.TwoFlags | cmd/run.go:145-156 | two valid flags give a map of both |
| RunOneoff.LowerCaseRejected | cmd/run.go:148 | a lower-case letter before the first '=' makes a flag invalid |
| RunOneoff.RejectedExample | cmd/run.go:145-156 | "ABCd=def" is rejected |
| RunOneoff.LoadEnvironment | cmd/util.go:127-138 | a configuration error is returned; an unknown environment is "environment is invalid"; otherwise the environment's record |
| RunOneoff.LoadEnvVars | cmd/run.go:129-143 | no environment gives no variables; otherwise the environment's run variables, or its error |
| RunOneoff.MergeVars | cmd/run.go:90-98 | the keys of both maps; a flag overrides the environment's value; others are kept |
| RunOneoff.BranchLookupMeaning | cmd/run.go:238-264 | the lookup succeeds exactly when the first app for the branch has a heritage, and its name is the result; otherwise "No heritage found for branch" |
| RunOneoff.BranchHeritageName | cmd/run.go:238-273 | reads the group, GETs the group's apps and looks the branch up, as BranchLookup says |
| RunOneoff.ExclusiveFlags | cmd/run.go:65-80 | environment and heritage name exclude each other, and a branch excludes both; a run goes ahead only with compatible flags |
| RunOneoff.ReadyParams | cmd/run.go:100-118 | a command is required; the request carries the joined command, interactivity unless detached, memory only when positive and user only when given |
| RunOneoff.ReadyTarget | cmd/run.go:69-88 | the heritage is the flag's, the branch's review app's, or the environment's |
| RunOneoff.ReadyVars | cmd/run.go:90-98 | the last flag for a name sets that variable |
| RunOneoff.ReadyBaseVars | cmd/run.go:90-98 | a variable no flag names keeps the environment's value |
| RunOneoff.LocateHeritage | cmd/run.go:52-88 | the environment's variables, the flag checks and the heritage lookup, in the source's order |
| RunOneoff.BuildParams | cmd/run.go:90-118 | the checked flags, the command check and the request parameters |
| RunOneoff.Action | cmd/run.go:52-126 | a refused run fails without changes; a ready one connects as ConnectToHeritage says, after the branch lookup's request |
| Review.PathsByToken | cmd/review.go:29-33 | with a CI token the deploy and delete paths differ from the tokenless ones; all lie under the review group |
| Review.FirstSubject | cmd/review.go:230-240 | the index of the first app whose subject is the branch |
| Review.GetHeritageName | cmd/review.go:230-240 | the first matching app's heritage, or "" when none matches |
| Review.GetGroupName | cmd/review.go:241-248 | the definition's group name, or its error |
| Review.GetReviewApps | cmd/review.go:215-228 | the decoded apps list, or the request's error |
| Review.Retention | cmd/review.go:76-84 | an empty retention is 86400 seconds (24 hours); otherwise the parsed duration |
| Review.DeployExecute | cmd/review.go:22-47 | one POST to the deploy path; its error exits with code 1; success prints "Domain: " and the domain |
| Review.Deploy | cmd/review.go:69-102 | a bad retention or definition stops before any request; otherwise DeployExecute |
| Review.DeployDefaultRetention | cmd/review.go:76-84 | a deploy without retention requests 86400 seconds |
| Review.Delete | cmd/review.go:117-134 | one DELETE of the delete path; its error exits with code 1 |
| Review.List | cmd/review.go:144-164 | the group flag, else the definition's group; one GET of its apps; errors exit with code 1 |
| Review.RunParams | cmd/review.go:195-200 | an interactive task with the joined command and no variables |
| Review.Run | cmd/review.go:175-209 | the definition, then the apps GET, then the branch lookup ("heritage is not found"), then a non-detached connect with RunParams; each error exits with code 1 |
| Strings.TrimSpaceIdempotent | utils/are_you_sure.go:55 | trimming twice is trimming once |
| Strings.FormatIntRoundTrip | cmd/run.go:188 | the decimal form of a task id reads back as the id |

## Left out

- JSON and YAML encoding and decoding are the `decode` parameter of `ApiClient.AsReply`, the `unmarshalError` parameter of the profile operation, or left to the `Reply` values. `PrettyJSON` is the `pretty` parameter. `json.Marshal` errors cannot arise for the modelled records and are not modelled.
- The text printed for records and tables is not modelled: `PrintOneoff`, `PrintHeritage`, `renderApps`, `printEndpoint`, `printEndpoints`. Operations that print them are modelled up to the result they return. For `printEndpoint` and `printEndpoints`, the nil dereferences on a response without the printed fields are modelled as `EndpointOperation.NilDereference`.
- The HTTP transport and TLS are not modelled. An answer is an `Exchange` or a `Reply` value.
- URL parsing and verb validation in `http.NewRequest` are not modelled. Whether they fail, and with which error, is the `buildError` parameter of `ApiClient.Client.Request`. The operations, which take their answers as `Reply` values, fold this error into `Failed`.
- `time.Sleep` is counted (`sleeps`), not performed. `time.ParseDuration` and the truncation of `Seconds()` are the `parseSeconds` parameter.
- `filepath.Join` cleaning of `..` and duplicate separators is not modelled.
- ProfileOperation.JoinPath: assumes a clean directory without a trailing separator.
- LoginOperation.SetUpKeys: the key file that `ssh-keygen` writes is the `generatedKey` parameter.
- LoginOperation.SetUpKeys: reloading the default client is the `reload` outcome.
- Which texts `json.Unmarshal` rejects for a `ProfileFile` is the `unmarshalError` parameter. Because every field of `ProfileFile` is unexported, a text it accepts yields the zero profile, and a profile always encodes as `{}`.
- Prompt.Ask: requires (`Answers`) that the script of replies ends in an acceptable one. The Go loop does not terminate on a reader that never gives one.
- AppOperation.Run, AppOperation.AppDelete, EndpointOperation.Run and EndpointOperation.EndpointDelete: require the same `Answers` condition, and only when they prompt.
- LoginOperation.Run, LoginOperation.GithubLogin and LoginOperation.VaultLogin: same condition, for their prompts.
- The `secret` flag of `Ask` only hides the typed text and has no effect in the model.
- Oneoff.ConnectToHeritage: the poll loop is bounded by the script of poll answers. An exhausted script is `StillPolling`, standing for a task that never leaves PENDING.
- Oneoff.ConnectToHeritage: at cmd/run.go:220 `NewExitError` is called with one argument. The model treats it as an error with that message.
- Records are trimmed to the fields the core reads. Some pointers that the source dereferences without a nil check are modelled as always set, so the nil-pointer panic of a response that lacks them is not modelled:
  - `districtResp.District` (operations/sshcmd_operation.go:58);
  - `respOneoff.Oneoff` and `oneoff.District` (cmd/run.go:176-225);
  - each entry of `District.ContainerInstances` (cmd/run.go:212-213);
  - `rResp.ReviewApp` (cmd/review.go:44);
  - each entry of a `review_apps` list (cmd/review.go:232-233, cmd/run.go:251-252).
  - each entry of `Heritage.Services` (api/types.go:164-165, 189). `ApiTypes.Heritage.FillinDefaults` holds its services as objects and does not model the panic on a null entry of the `services` list.
- An environment's run variables are an `Option`. The endpoint responses keep their pointers as options, and their printing panics are modelled (`EndpointOperation.NilDereference`).
- `login_info_operation`, the `cmd` wiring of flags to operations, configuration loading (`config/`) and the other commands (`create`, `deploy`, `env`, `secret`, `notification`, `release`, `review_group`) are not part of this model.
- cmd/run.go and cmd/review.go both declare `getHeritageName` and `getGroupName` in package `cmd`. The model keeps them apart, as `RunOneoff.BranchHeritageName` and `Review.GetHeritageName`.
- RunOneoff.TwoFlags: a concrete example of accepted flags is stated generically for any two valid flags, not on literal strings.
