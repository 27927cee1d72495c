/** The collaborators the CLI's commands act through, as recorded state: the file system
    (`utils.FileOps`, `ioutil.WriteFile`), the external command runner (`utils.CommandRunner`)
    and standard output. Nothing here performs real I/O. */
module Effects {
  import opened Wrappers
  import ApiTypes

  /** One request sent through the API client. */
  datatype Call = Call(verb: string, path: string, body: ApiTypes.Body)

  /** What a command printed and which requests it sent, together with its result. */
  datatype Trace<R> = Trace(result: R, calls: seq<Call>, out: seq<string>)

  /** An HTTP exchange as the caller of the client sees it: the request failed with an error
      (`err.Error()` is `error`), the body did not decode into the expected record, or it did. */
  datatype Reply<+T> = Failed(error: string) | Undecodable(error: string) | Decoded(value: T)

  /** The error text of a reply that is not decoded. */
  function ReplyError<T>(r: Reply<T>): (e: Option<string>)
    ensures e.None? <==> r.Decoded?
    ensures r.Failed? ==> e == Some(r.error)
    ensures r.Undecodable? ==> e == Some(r.error)
  {
    match r
    case Failed(error) => Some(error)
    case Undecodable(error) => Some(error)
    case Decoded(_) => None
  }

  /** The text `os.ReadFile` reports for a path that does not exist. */
  function NotFound(path: string): string {
    "open " + path + ": no such file or directory"
  }

  /** The file system: the current contents of every existing file, plus the paths at which a
      write or a read fails with a given error (a read-only directory, a permission problem). */
  class FileStore {
    var files: map<string, string>
    const writeFailures: map<string, string>
    const readFailures: map<string, string>

    constructor (files: map<string, string>, writeFailures: map<string, string>, readFailures: map<string, string>)
      ensures this.files == files && this.writeFailures == writeFailures && this.readFailures == readFailures
    {
      this.files := files;
      this.writeFailures := writeFailures;
      this.readFailures := readFailures;
    }

    /** FileOps.FileExists: `os.Stat` succeeds. */
    predicate FileExists(path: string)
      reads this
    {
      path in files
    }

    /** The result of reading `path`, as a function of the current state. */
    function Contents(path: string): (r: Result<string>)
      reads this
      ensures r.Ok? <==> path in files && path !in readFailures
      ensures r.Ok? ==> r.value == files[path]
      ensures r.Err? && path in readFailures ==> r.error == readFailures[path]
      ensures r.Err? && path !in readFailures ==> r.error == NotFound(path)
    {
      if path in readFailures then Err(readFailures[path])
      else if path !in files then Err(NotFound(path))
      else Ok(files[path])
    }

    /** FileOps.ReadFile. */
    method ReadFile(path: string) returns (r: Result<string>)
      ensures r == Contents(path)
    {
      if path in readFailures {
        r := Err(readFailures[path]);
      } else if path in files {
        r := Ok(files[path]);
      } else {
        r := Err(NotFound(path));
      }
    }

    /** ioutil.WriteFile: creates or truncates `path` so that it holds exactly `data`,
        or fails and leaves every file as it was. */
    method WriteFile(path: string, data: string) returns (o: Outcome)
      modifies this`files
      ensures path in writeFailures ==> o == Fail(writeFailures[path]) && files == old(files)
      ensures path !in writeFailures ==> o == Pass && files == old(files)[path := data]
    {
      if path in writeFailures {
        o := Fail(writeFailures[path]);
      } else {
        files := files[path := data];
        o := Pass;
      }
    }
  }

  /** One execution of an external program, with the files that existed when it started. */
  datatype Invocation = Invocation(program: string, args: seq<string>, filesSeen: map<string, string>)

  /** The command runner: every run is logged and ends with the same exit result. */
  class CommandRunner {
    var invocations: seq<Invocation>
    const exit: Outcome

    constructor (exit: Outcome)
      ensures invocations == [] && this.exit == exit
    {
      invocations := [];
      this.exit := exit;
    }

    /** RunCommand(name, args...): runs the program once and returns its exit result. */
    method RunCommand(program: string, args: seq<string>, store: FileStore) returns (o: Outcome)
      modifies this`invocations
      ensures invocations == old(invocations) + [Invocation(program, args, store.files)]
      ensures o == exit
    {
      invocations := invocations + [Invocation(program, args, store.files)];
      o := exit;
    }
  }

  /** Standard output, one entry per `fmt.Print*` call. */
  class Console {
    var out: seq<string>

    constructor ()
      ensures out == []
    {
      out := [];
    }

    method Print(text: string)
      modifies this`out
      ensures out == old(out) + [text]
    {
      out := out + [text];
    }
  }
}
