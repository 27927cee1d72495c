/** The profile operation: the profile sub-commands, the location of a profile's file in the
    configuration directory, and loading, saving and showing profiles through the file store. */
module ProfileOperation {
  import opened Wrappers
  import opened Operation
  import opened Effects
  import ApiClient

  /** ProfileOperation: the sub-command, the profile name, and what the file operations report
      as the configuration directory and the current login endpoint. */
  datatype ProfileOperation = ProfileOperation(opname: string, name: string, configDir: string, loginEndpoint: string)

  /** A saved profile. Every field is unexported, so `encoding/json` neither writes nor reads any
      of them: a profile encodes as the empty object, and decoding leaves every field zero. */
  datatype ProfileFile = ProfileFile(
    name: string,
    login: ApiClient.Login,
    privateKey: string,
    publicKey: string,
    cert: string)

  /** The profile `json.Unmarshal` yields whenever it succeeds: the zero value. */
  const ZeroProfile: ProfileFile := ProfileFile("", ApiClient.Login("", "", ""), "", "", "")

  /** What `json.Marshal` writes for any profile. */
  const EncodedProfile: string := "{}"

  /** json.Unmarshal into a `ProfileFile`: `unmarshalError` is the error it reports for a text
      that is not a JSON object (a syntax or type error), if any; otherwise the result is the
      zero profile, whatever keys the object holds. */
  function DecodeProfile(text: string, unmarshalError: string -> Option<string>): (r: Result<ProfileFile>)
    ensures r.Err? <==> unmarshalError(text).Some?
    ensures r.Err? ==> r.error == unmarshalError(text).value
    ensures r.Ok? ==> r.value == ZeroProfile
  {
    if unmarshalError(text).Some? then Err(unmarshalError(text).value) else Ok(ZeroProfile)
  }

  /** filepath.Join of a directory and a file name, for a clean directory without a trailing
      separator: the name alone when the directory is empty. */
  function JoinPath(dir: string, file: string): (p: string)
    ensures dir == "" ==> p == file
    ensures dir != "" ==> |p| == |dir| + 1 + |file| && p[..|dir|] == dir && p[|dir|] == '/'
    ensures p[|p| - |file|..] == file
  {
    if dir == "" then file else dir + "/" + file
  }

  /** profilePath: the file `profile_<name>` in the configuration directory. */
  function ProfilePath(configDir: string, name: string): string {
    JoinPath(configDir, "profile_" + name)
  }

  /** The file naming the current profile. */
  function CurrentProfileFile(configDir: string): string {
    JoinPath(configDir, "current_profile")
  }

  /** Different profile names live in different files of a directory. */
  lemma ProfilePathInjective(dir: string, a: string, b: string)
    ensures ProfilePath(dir, a) == ProfilePath(dir, b) <==> a == b
  {
    if ProfilePath(dir, a) == ProfilePath(dir, b) {
      var n := if dir == "" then 8 else |dir| + 9;
      assert a == ProfilePath(dir, a)[n..];
      assert b == ProfilePath(dir, b)[n..];
    }
  }

  /** The paths the profile tests expect. */
  lemma ProfilePathExamples()
    ensures ProfilePath("/something", "abc") == "/something/profile_abc"
    ensures ProfilePath("", "foobar") == "profile_foobar"
    ensures ProfilePath("/home/test/bcn/configdir", "hello2") == "/home/test/bcn/configdir/profile_hello2"
  {
  }

  /** profileExists. */
  predicate ProfileExists(configDir: string, name: string, store: FileStore)
    reads store
  {
    store.FileExists(ProfilePath(configDir, name))
  }

  /** loadProfile. A missing profile is reported without reading anything; otherwise exactly the
      profile's file is read and decoded, which gives the zero profile or the decoding error. */
  method LoadProfile(configDir: string, name: string, store: FileStore, unmarshalError: string -> Option<string>)
    returns (r: Result<ProfileFile>, read: seq<string>)
    ensures !ProfileExists(configDir, name, store) ==>
              r == Err("profile " + name + " does not exist") && read == []
    ensures ProfileExists(configDir, name, store) ==>
              && read == [ProfilePath(configDir, name)]
              && var contents := store.Contents(ProfilePath(configDir, name));
                 && (contents.Err? ==> r == Err(contents.error))
                 && (contents.Ok? && unmarshalError(contents.value).Some? ==> r == Err(unmarshalError(contents.value).value))
                 && (contents.Ok? && unmarshalError(contents.value).None? ==> r == Ok(ZeroProfile))
  {
    if !ProfileExists(configDir, name, store) {
      return Err("profile " + name + " does not exist"), [];
    }
    var path := ProfilePath(configDir, name);
    var contents := store.ReadFile(path);
    read := [path];
    if contents.Err? {
      return Err(contents.error), read;
    }
    r := DecodeProfile(contents.value, unmarshalError);
  }

  /** saveProfile: the encoded profile, which is always the empty object, replaces the profile's
      file, and a write error is returned as is. */
  method SaveProfile(configDir: string, name: string, profile: ProfileFile, store: FileStore)
    returns (o: Outcome)
    modifies store`files
    ensures var path := ProfilePath(configDir, name);
            if path in store.writeFailures then o == Fail(store.writeFailures[path]) && store.files == old(store.files)
            else o == Pass && store.files == old(store.files)[path := "{}"]
  {
    o := store.WriteFile(ProfilePath(configDir, name), EncodedProfile);
  }

  /** The two lines showProfile prints. */
  function ShowLines(profileName: string, url: string): seq<string> {
    ["Profile: " + profileName + "\n", "URL: " + url + "\n"]
  }

  /** What showProfile does. Without a name it shows the current profile, "default" when no
      current profile is recorded, with the login endpoint. With a name it shows the name and
      endpoint decoded from that profile's file, provided the file exists; since decoding fills
      in no field, both are empty. Only a success prints, and only the file consulted is read. */
  predicate Shows(op: ProfileOperation, store: FileStore, unmarshalError: string -> Option<string>,
                  r: RunResult, out: seq<string>, read: seq<string>)
    reads store
  {
    && r.Result?
    && (r.isError ==> out == [])
    && (op.name == "" && !store.FileExists(CurrentProfileFile(op.configDir)) ==>
          r == OkResult() && out == ShowLines("default", op.loginEndpoint) && read == [])
    && (op.name == "" && store.FileExists(CurrentProfileFile(op.configDir)) ==>
          && read == [CurrentProfileFile(op.configDir)]
          && var contents := store.Contents(CurrentProfileFile(op.configDir));
             && (contents.Err? ==> r == ErrorResult(contents.error))
             && (contents.Ok? ==> r == OkResult() && out == ShowLines(contents.value, op.loginEndpoint)))
    && (op.name != "" && !ProfileExists(op.configDir, op.name, store) ==>
          r == ErrorResult("Profile does not exist") && read == [])
    && (op.name != "" && ProfileExists(op.configDir, op.name, store) ==>
          && read == [ProfilePath(op.configDir, op.name)]
          && var contents := store.Contents(ProfilePath(op.configDir, op.name));
             && (contents.Err? ==> r == ErrorResult(contents.error))
             && (contents.Ok? && unmarshalError(contents.value).Some? ==>
                   r == ErrorResult(unmarshalError(contents.value).value))
             && (contents.Ok? && unmarshalError(contents.value).None? ==>
                   r == OkResult() && out == ShowLines("", "")))
  }

  /** showProfile. */
  method ShowProfile(op: ProfileOperation, store: FileStore, unmarshalError: string -> Option<string>)
    returns (r: RunResult, out: seq<string>, read: seq<string>)
    ensures Shows(op, store, unmarshalError, r, out, read)
  {
    var profileName := "default";
    var url := op.loginEndpoint;
    read := [];
    out := [];
    if op.name == "" {
      var current := CurrentProfileFile(op.configDir);
      if store.FileExists(current) {
        var contents := store.ReadFile(current);
        read := [current];
        if contents.Err? {
          return ErrorResult(contents.error), out, read;
        }
        profileName := contents.value;
      }
    } else {
      var profileFile := ProfilePath(op.configDir, op.name);
      if store.FileExists(profileFile) {
        var profileJson := store.ReadFile(profileFile);
        read := [profileFile];
        if profileJson.Err? {
          return ErrorResult(profileJson.error), out, read;
        }
        var profile := DecodeProfile(profileJson.value, unmarshalError);
        if profile.Err? {
          return ErrorResult(profile.error), out, read;
        }
        profileName := profile.value.name;
        url := profile.value.login.endpoint;
      } else {
        return ErrorResult("Profile does not exist"), out, read;
      }
    }
    out := ShowLines(profileName, url);
    r := OkResult();
  }

  /** ProfileOperation.run: create, delete and use only check that a name was given; show
      displays a profile; any other sub-command is unknown. */
  method Run(op: ProfileOperation, store: FileStore, unmarshalError: string -> Option<string>)
    returns (r: RunResult, out: seq<string>, read: seq<string>)
    ensures r.Result?
    ensures op.opname in {"create", "delete", "use"} ==>
              r == (if op.name == "" then ErrorResult("Please enter a name") else OkResult()) && out == [] && read == []
    ensures op.opname !in {"create", "delete", "use", "show"} ==>
              r == ErrorResult("Unknown command") && out == [] && read == []
    ensures op.opname == "show" ==> Shows(op, store, unmarshalError, r, out, read)
  {
    if op.opname == "create" || op.opname == "delete" || op.opname == "use" {
      r := if op.name == "" then ErrorResult("Please enter a name") else OkResult();
      return r, [], [];
    }
    if op.opname == "show" {
      r, out, read := ShowProfile(op, store, unmarshalError);
      return;
    }
    return ErrorResult("Unknown command"), [], [];
  }
}
