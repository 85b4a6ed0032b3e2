/** The tool registry of agents/tofumatic/tools/tools.py over an abstract
    filesystem: a map from file paths to contents and a set of directory
    paths. Paths are compared as strings; parent directories, permissions
    and the working directory are not modelled. */
module TofuTools {
  import opened Wrappers
  import opened Json

  datatype FsState = FsState(files: map<string, string>, dirs: set<string>)

  /** `os.path.exists`. */
  predicate Exists(fs: FsState, path: string)
  {
    path in fs.files || path in fs.dirs
  }

  /** No path is both a file and a directory. */
  predicate WellFormed(fs: FsState)
  {
    fs.files.Keys !! fs.dirs
  }

  /** A tool's result and the filesystem after it. */
  datatype ToolRun = ToolRun(result: Outcome<string>, fs: FsState)

  function NoSuchFile(path: string): Error
  {
    Error(FileNotFoundError, "[Errno 2] No such file or directory: '" + path + "'")
  }

  function IsADirectory(path: string): Error
  {
    Error(IsADirectoryError, "[Errno 21] Is a directory: '" + path + "'")
  }

  function NotADirectory(path: string): Error
  {
    Error(NotADirectoryError, "[Errno 20] Not a directory: '" + path + "'")
  }

  /** `write_file`: `open(path, "w")` fails on a directory, otherwise the
      content replaces whatever the path held. */
  function Write(fs: FsState, path: string, content: string): ToolRun
  {
    if path in fs.dirs then ToolRun(Raise(IsADirectory(path)), fs)
    else ToolRun(Value("File written successfully."), fs.(files := fs.files[path := content]))
  }

  /** `read_file`. */
  function Read(fs: FsState, path: string): Outcome<string>
  {
    if path in fs.files then Value(fs.files[path])
    else if path in fs.dirs then Raise(IsADirectory(path))
    else Raise(NoSuchFile(path))
  }

  /** `delete_file`: `os.remove` fails on a directory and on a missing path. */
  function Delete(fs: FsState, path: string): ToolRun
  {
    if path in fs.files then ToolRun(Value("File deleted successfully."), fs.(files := fs.files - {path}))
    else if path in fs.dirs then ToolRun(Raise(IsADirectory(path)), fs)
    else ToolRun(Raise(NoSuchFile(path)), fs)
  }

  /** `create_directory`. */
  function MakeDir(fs: FsState, path: string): ToolRun
  {
    if !Exists(fs, path) then ToolRun(Value("Directory created successfully."), fs.(dirs := fs.dirs + {path}))
    else ToolRun(Value("Directory already exists."), fs)
  }

  /** `delete_directory`: `os.rmdir` on an existing file fails. */
  function RemoveDir(fs: FsState, path: string): ToolRun
  {
    if path in fs.dirs then ToolRun(Value("Directory deleted successfully."), fs.(dirs := fs.dirs - {path}))
    else if path in fs.files then ToolRun(Raise(NotADirectory(path)), fs)
    else ToolRun(Value("Directory does not exist."), fs)
  }

  /** A file-system state as the operating system keeps it: no path is both a
      file and a directory. */
  type SaneState = fs: FsState | WellFormed(fs) witness FsState(map[], {})

  /** What a shell command line leaves behind: its captured output and the
      file system after it ran, with whatever files it wrote or removed. */
  datatype ShellRun = ShellRun(output: string, after: SaneState)

  /** A shell command line run in a directory of a file system. */
  type Shell = (FsState, string, string) -> ShellRun

  /** The `opentofu` result rule: any output counts as success. */
  function TofuVerdict(output: string): (r: string)
    ensures r == "OpenTofu command executed successfully." <==> output != ""
    ensures r == "OpenTofu command executed failed." <==> output == ""
  {
    if output != "" then "OpenTofu command executed successfully." else "OpenTofu command executed failed."
  }

  /** `opentofu`: `os.chdir` fails unless the path is a directory; then the
      output of `tofu <command>` there is classified. */
  function RunTofu(fs: FsState, directory: string, command: string, shell: Shell): ToolRun
  {
    if directory in fs.dirs then
      var run := shell(fs, directory, "tofu " + command);
      ToolRun(Value(TofuVerdict(run.output)), run.after)
    else if directory in fs.files then ToolRun(Raise(NotADirectory(directory)), fs)
    else ToolRun(Raise(NoSuchFile(directory)), fs)
  }

  datatype ToolName =
    | WriteFileTool
    | ReadFileTool
    | DeleteFileTool
    | CreateDirectoryTool
    | DeleteDirectoryTool
    | OpenTofuTool

  /** The key of each tool in `tools_map`. */
  function Name(t: ToolName): string
  {
    match t
    case WriteFileTool => "write_file"
    case ReadFileTool => "read_file"
    case DeleteFileTool => "delete_file"
    case CreateDirectoryTool => "create_directory"
    case DeleteDirectoryTool => "delete_directory"
    case OpenTofuTool => "opentofu"
  }

  /** The fields of each tool's argument model, which are also its keyword parameters. */
  function Parameters(t: ToolName): seq<string>
  {
    match t
    case WriteFileTool => ["file_path", "content"]
    case ReadFileTool => ["file_path"]
    case DeleteFileTool => ["file_path"]
    case CreateDirectoryTool => ["directory_path"]
    case DeleteDirectoryTool => ["directory_path"]
    case OpenTofuTool => ["directory_path", "command"]
  }

  /** `tools_map`. */
  const ToolsMap: map<string, ToolName> := map[
    "write_file" := WriteFileTool,
    "read_file" := ReadFileTool,
    "delete_file" := DeleteFileTool,
    "create_directory" := CreateDirectoryTool,
    "delete_directory" := DeleteDirectoryTool,
    "opentofu" := OpenTofuTool
  ]

  /** One entry of `tool_definitions`: the function's name, description and parameter names. */
  datatype ToolDefinition = ToolDefinition(name: string, description: string, parameters: seq<string>)

  function Definition(t: ToolName): ToolDefinition
  {
    var description := match t
      case WriteFileTool => "Write to a file."
      case ReadFileTool => "Read a file."
      case DeleteFileTool => "Delete a file."
      case CreateDirectoryTool => "Create a directory."
      case DeleteDirectoryTool => "Delete a directory."
      case OpenTofuTool => "Execute an OpenTofu command.";
    ToolDefinition(Name(t), description, Parameters(t))
  }

  /** `tool_definitions`, in their listed order. */
  const ToolDefinitions: seq<ToolDefinition> := [
    Definition(WriteFileTool), Definition(ReadFileTool), Definition(DeleteFileTool),
    Definition(CreateDirectoryTool), Definition(DeleteDirectoryTool), Definition(OpenTofuTool)
  ]

  /** Every definition names a tool of the map, and looking that name up
      finds the tool the definition describes. */
  lemma DefinitionsInMap()
    ensures |ToolDefinitions| == 6
    ensures forall k :: 0 <= k < |ToolDefinitions| ==>
      ToolDefinitions[k].name in ToolsMap && ToolDefinitions[k] == Definition(ToolsMap[ToolDefinitions[k].name])
  {
  }

  /** The six tools in the order `tool_definitions` lists them. */
  const AllTools: seq<ToolName> :=
    [WriteFileTool, ReadFileTool, DeleteFileTool, CreateDirectoryTool, DeleteDirectoryTool, OpenTofuTool]

  /** Every key of the map is listed in the definitions. */
  lemma MapKeyDefined(name: string)
    requires name in ToolsMap
    ensures exists k :: 0 <= k < |ToolDefinitions| && ToolDefinitions[k].name == name
  {
    assert ToolsMap.Keys == {"write_file", "read_file", "delete_file", "create_directory", "delete_directory", "opentofu"};
    if name == "write_file" { assert ToolDefinitions[0].name == name; }
    else if name == "read_file" { assert ToolDefinitions[1].name == name; }
    else if name == "delete_file" { assert ToolDefinitions[2].name == name; }
    else if name == "create_directory" { assert ToolDefinitions[3].name == name; }
    else if name == "delete_directory" { assert ToolDefinitions[4].name == name; }
    else { assert ToolDefinitions[5].name == name; }
  }

  /** No tool is defined twice. */
  lemma DefinitionNamesDistinct()
    ensures forall i, j :: 0 <= i < j < |ToolDefinitions| ==> ToolDefinitions[i].name != ToolDefinitions[j].name
  {
    forall i, j | 0 <= i < j < |ToolDefinitions|
      ensures ToolDefinitions[i].name != ToolDefinitions[j].name
    {
      NameAt(i);
      NameAt(j);
      ToolsDistinct(i, j);
      LookupByName(AllTools[i]);
      LookupByName(AllTools[j]);
    }
  }

  lemma NameAt(k: nat)
    requires k < 6
    ensures ToolDefinitions[k].name == Name(AllTools[k])
  {
  }

  lemma ToolsDistinct(i: nat, j: nat)
    requires i < j < 6
    ensures AllTools[i] != AllTools[j]
  {
  }

  /** Looking a tool up by its name finds that tool. */
  lemma LookupByName(t: ToolName)
    ensures Name(t) in ToolsMap && ToolsMap[Name(t)] == t
  {
  }

  /** The string values of the parameters `ps`, in order, when each is present with a string value. */
  function ArgValues(ps: seq<string>, fields: map<string, JsonValue>): (r: Option<seq<string>>)
    ensures r.Some? ==> |r.value| == |ps|
  {
    if ps == [] then Some([])
    else if ps[0] in fields && fields[ps[0]].JString? then
      match ArgValues(ps[1..], fields)
      case None => None
      case Some(rest) => Some([fields[ps[0]].s] + rest)
    else None
  }

  /** Python's keyword binding of `tools_map[name](**args)`: a dict with no
      key other than the parameters and every parameter present. The
      parameter values, in order, are returned. Non-string values are
      refused here (see the README). */
  function Bind(t: ToolName, args: JsonValue): (r: Option<seq<string>>)
    ensures r.Some? ==> |r.value| == |Parameters(t)|
  {
    if args.JObject? && forall key :: key in args.fields ==> key in Parameters(t)
    then ArgValues(Parameters(t), args.fields)
    else None
  }

  function BindError(t: ToolName, args: JsonValue): Error
  {
    if !args.JObject? then Error(TypeError, Name(t) + "() argument after ** must be a mapping")
    else Error(TypeError, Name(t) + "() got unexpected, missing or non-string arguments")
  }

  /** `tools_map[name](**args)`. */
  function Invoke(fs: FsState, t: ToolName, args: JsonValue, shell: Shell): ToolRun
  {
    match Bind(t, args)
    case None => ToolRun(Raise(BindError(t, args)), fs)
    case Some(v) =>
      match t
      case WriteFileTool => Write(fs, v[0], v[1])
      case ReadFileTool => ToolRun(Read(fs, v[0]), fs)
      case DeleteFileTool => Delete(fs, v[0])
      case CreateDirectoryTool => MakeDir(fs, v[0])
      case DeleteDirectoryTool => RemoveDir(fs, v[0])
      case OpenTofuTool => RunTofu(fs, v[0], v[1], shell)
  }

  /** Every tool keeps files and directories apart, `read_file` changes
      nothing, and a tool that raises changes nothing. */
  lemma InvokeKeepsWellFormed(fs: FsState, t: ToolName, args: JsonValue, shell: Shell)
    requires WellFormed(fs)
    ensures WellFormed(Invoke(fs, t, args, shell).fs)
    ensures t == ReadFileTool ==> Invoke(fs, t, args, shell).fs == fs
    ensures Invoke(fs, t, args, shell).result.Raise? ==> Invoke(fs, t, args, shell).fs == fs
  {
  }

  /** What `write_file` wrote, `read_file` reads back. */
  lemma WriteThenRead(fs: FsState, path: string, content: string)
    requires path !in fs.dirs
    ensures Write(fs, path, content).result == Value("File written successfully.")
    ensures Read(Write(fs, path, content).fs, path) == Value(content)
  {
  }

  /** Writing to a directory path is an error and changes nothing. */
  lemma WriteToDirectory(fs: FsState, path: string, content: string)
    requires path in fs.dirs
    ensures Write(fs, path, content) == ToolRun(Raise(IsADirectory(path)), fs)
  {
  }

  /** `delete_file` succeeds exactly on files, and removes only that path;
      a missing path raises FileNotFoundError. */
  lemma DeleteFileCases(fs: FsState, path: string)
    ensures Delete(fs, path).result == Value("File deleted successfully.") <==> path in fs.files
    ensures path in fs.files ==> Delete(fs, path).fs == fs.(files := fs.files - {path})
    ensures path !in fs.files ==> Delete(fs, path).result.Raise? && Delete(fs, path).fs == fs
    ensures !Exists(fs, path) ==> Delete(fs, path) == ToolRun(Raise(NoSuchFile(path)), fs)
    ensures forall p :: p != path && p in fs.files ==> p in Delete(fs, path).fs.files
  {
  }

  /** `create_directory` creates an absent path and leaves any existing path,
      file or directory, as it was; so a second call of the same path always
      reports that it exists. */
  lemma CreateDirectoryTwice(fs: FsState, path: string)
    ensures !Exists(fs, path) ==>
      MakeDir(fs, path) == ToolRun(Value("Directory created successfully."), fs.(dirs := fs.dirs + {path}))
    ensures Exists(fs, path) ==> MakeDir(fs, path) == ToolRun(Value("Directory already exists."), fs)
    ensures var first := MakeDir(fs, path);
      && (first.result == Value("Directory created successfully.") <==> !Exists(fs, path))
      && Exists(first.fs, path)
      && MakeDir(first.fs, path) == ToolRun(Value("Directory already exists."), first.fs)
  {
  }

  /** `opentofu` raises, changing nothing, unless its path is a directory;
      there it reports success exactly when the command printed something,
      and the file system is whatever the command left. */
  lemma OpenTofuCases(fs: FsState, directory: string, command: string, shell: Shell)
    ensures !Exists(fs, directory) ==>
      RunTofu(fs, directory, command, shell) == ToolRun(Raise(NoSuchFile(directory)), fs)
    ensures directory in fs.files && directory !in fs.dirs ==>
      RunTofu(fs, directory, command, shell) == ToolRun(Raise(NotADirectory(directory)), fs)
    ensures directory in fs.dirs ==>
      var run := shell(fs, directory, "tofu " + command);
      && RunTofu(fs, directory, command, shell).fs == run.after
      && (RunTofu(fs, directory, command, shell).result == Value("OpenTofu command executed successfully.")
          <==> run.output != "")
  {
  }

  /** `delete_directory` removes an existing directory and leaves an absent path alone. */
  lemma DeleteDirectoryCases(fs: FsState, path: string)
    ensures path in fs.dirs ==>
      RemoveDir(fs, path) == ToolRun(Value("Directory deleted successfully."), fs.(dirs := fs.dirs - {path}))
    ensures !Exists(fs, path) ==> RemoveDir(fs, path) == ToolRun(Value("Directory does not exist."), fs)
    ensures path in fs.files && path !in fs.dirs ==> RemoveDir(fs, path) == ToolRun(Raise(NotADirectory(path)), fs)
  {
  }

  /** The filesystem the tools of tools.py act on. */
  class FileSystem {
    var files: map<string, string>
    var dirs: set<string>

    function State(): FsState
      reads this
    {
      FsState(files, dirs)
    }

    constructor (initial: FsState)
      ensures State() == initial
    {
      files := initial.files;
      dirs := initial.dirs;
    }

    method WriteFile(filePath: string, content: string) returns (r: Outcome<string>)
      modifies this
      ensures ToolRun(r, State()) == Write(old(State()), filePath, content)
    {
      if filePath in dirs {
        r := Raise(IsADirectory(filePath));
      } else {
        files := files[filePath := content];
        r := Value("File written successfully.");
      }
    }

    method ReadFile(filePath: string) returns (r: Outcome<string>)
      ensures r == Read(State(), filePath)
    {
      if filePath in files {
        r := Value(files[filePath]);
      } else if filePath in dirs {
        r := Raise(IsADirectory(filePath));
      } else {
        r := Raise(NoSuchFile(filePath));
      }
    }

    method DeleteFile(filePath: string) returns (r: Outcome<string>)
      modifies this
      ensures ToolRun(r, State()) == Delete(old(State()), filePath)
    {
      if filePath in files {
        files := files - {filePath};
        r := Value("File deleted successfully.");
      } else if filePath in dirs {
        r := Raise(IsADirectory(filePath));
      } else {
        r := Raise(NoSuchFile(filePath));
      }
    }

    method CreateDirectory(directoryPath: string) returns (r: Outcome<string>)
      modifies this
      ensures ToolRun(r, State()) == MakeDir(old(State()), directoryPath)
    {
      if !(directoryPath in files || directoryPath in dirs) {
        dirs := dirs + {directoryPath};
        r := Value("Directory created successfully.");
      } else {
        r := Value("Directory already exists.");
      }
    }

    method DeleteDirectory(directoryPath: string) returns (r: Outcome<string>)
      modifies this
      ensures ToolRun(r, State()) == RemoveDir(old(State()), directoryPath)
    {
      if directoryPath in dirs {
        dirs := dirs - {directoryPath};
        r := Value("Directory deleted successfully.");
      } else if directoryPath in files {
        r := Raise(NotADirectory(directoryPath));
      } else {
        r := Value("Directory does not exist.");
      }
    }

    method OpenTofu(directoryPath: string, command: string, shell: Shell) returns (r: Outcome<string>)
      modifies this
      ensures ToolRun(r, State()) == RunTofu(old(State()), directoryPath, command, shell)
    {
      if directoryPath in dirs {
        var run := shell(State(), directoryPath, "tofu " + command);
        files := run.after.files;
        dirs := run.after.dirs;
        r := Value(TofuVerdict(run.output));
      } else if directoryPath in files {
        r := Raise(NotADirectory(directoryPath));
      } else {
        r := Raise(NoSuchFile(directoryPath));
      }
    }

    /** `tools_map[name](**args)` on this filesystem. */
    method Call(t: ToolName, args: JsonValue, shell: Shell) returns (r: Outcome<string>)
      modifies this
      ensures ToolRun(r, State()) == Invoke(old(State()), t, args, shell)
    {
      var bound := Bind(t, args);
      if bound.None? {
        return Raise(BindError(t, args));
      }
      var v := bound.value;
      match t
      case WriteFileTool => r := WriteFile(v[0], v[1]);
      case ReadFileTool => r := ReadFile(v[0]);
      case DeleteFileTool => r := DeleteFile(v[0]);
      case CreateDirectoryTool => r := CreateDirectory(v[0]);
      case DeleteDirectoryTool => r := DeleteDirectory(v[0]);
      case OpenTofuTool => r := OpenTofu(v[0], v[1], shell);
    }
  }
}
