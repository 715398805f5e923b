/** The action dispatcher of the Azure SQL deployment action: it picks one
    of three branches from the action type, renders the command line of
    SqlPackage (a compiled dacpac) or sqlcmd (one script, or every `.sql`
    entry of a folder) and runs it, awaiting each process in turn.

    The outside world is abstract: the tool paths and the folder listing are
    values of an `Environment`, and running a process is an oracle from the
    command line to its exit code. */
module AzureSql {
  import opened NumberText

  datatype Option<T> = None | Some(value: T)

  datatype Result<T, E> = Ok(value: T) | Err(error: E)

  // ---------------------------------------------------------------------
  // Enumerations. TypeScript enums are numbers at run time, so the inputs
  // carry the numeric code and the dispatcher decodes it.
  // ---------------------------------------------------------------------

  datatype ActionType = DacpacAction | SqlAction | FolderAction

  function ActionTypeCode(t: ActionType): int {
    match t
    case DacpacAction => 0
    case SqlAction => 1
    case FolderAction => 2
  }

  /** The member of ActionType whose numeric value is `code`, if any. */
  function ActionTypeOf(code: int): (t: Option<ActionType>)
    ensures t.Some? <==> 0 <= code <= 2
    ensures t.Some? ==> ActionTypeCode(t.value) == code
  {
    if code == 0 then Some(DacpacAction)
    else if code == 1 then Some(SqlAction)
    else if code == 2 then Some(FolderAction)
    else None
  }

  /** Only Publish is implemented; the others are recognised and refused. */
  datatype SqlPackageAction = Publish | Extract | Export | Import | DriftReport | DeployReport | Script

  function PackageActionCode(a: SqlPackageAction): int {
    match a
    case Publish => 0
    case Extract => 1
    case Export => 2
    case Import => 3
    case DriftReport => 4
    case DeployReport => 5
    case Script => 6
  }

  /** The member of SqlPackageAction whose numeric value is `code`, if any. */
  function PackageActionOf(code: int): (a: Option<SqlPackageAction>)
    ensures a.Some? <==> 0 <= code <= 6
    ensures a.Some? ==> PackageActionCode(a.value) == code
  {
    if code == 0 then Some(Publish)
    else if code == 1 then Some(Extract)
    else if code == 2 then Some(Export)
    else if code == 3 then Some(Import)
    else if code == 4 then Some(DriftReport)
    else if code == 5 then Some(DeployReport)
    else if code == 6 then Some(Script)
    else None
  }

  function PackageActionName(a: SqlPackageAction): string {
    match a
    case Publish => "Publish"
    case Extract => "Extract"
    case Export => "Export"
    case Import => "Import"
    case DriftReport => "DriftReport"
    case DeployReport => "DeployReport"
    case Script => "Script"
  }

  /** The reverse lookup `SqlPackageAction[code]` inside a template literal:
      the member's name, or the text `undefined` for a code outside the enum. */
  function PackageActionLookup(code: int): string {
    match PackageActionOf(code)
    case Some(a) => PackageActionName(a)
    case None => "undefined"
  }

  // ---------------------------------------------------------------------
  // Inputs
  // ---------------------------------------------------------------------

  /** The four fields of the parsed connection string that the dispatcher reads. */
  datatype SqlConnectionStringBuilder = SqlConnectionStringBuilder(
    connectionString: string,
    database: string,
    userId: string,
    password: string)

  /** The branch-specific part of the inputs: IDacpacActionInputs,
      ISqlActionInputs, IFolderActionInputs, or the bare IActionInputs. */
  datatype Payload =
    | DacpacPayload(dacpacPackage: string, sqlpackageAction: int)
    | SqlPayload(sqlFile: string)
    | FolderPayload(sqlFolder: string)
    | NoPayload

  datatype ActionInputs = ActionInputs(
    serverName: string,
    actionType: int,
    connectionString: SqlConnectionStringBuilder,
    additionalArguments: Option<string>,
    payload: Payload)

  /** The dispatcher casts the inputs to the interface of the branch it
      selects; callers supply inputs of that interface. */
  predicate PayloadMatches(inputs: ActionInputs) {
    && (inputs.actionType == ActionTypeCode(DacpacAction) ==> inputs.payload.DacpacPayload?)
    && (inputs.actionType == ActionTypeCode(SqlAction) ==> inputs.payload.SqlPayload?)
    && (inputs.actionType == ActionTypeCode(FolderAction) ==> inputs.payload.FolderPayload?)
  }

  type WellTypedInputs = inputs: ActionInputs | PayloadMatches(inputs)
    witness ActionInputs("", 3, SqlConnectionStringBuilder("", "", "", ""), None, NoPayload)

  /** What the dispatcher obtains from its collaborators: the resolved tool
      paths, the names listed in the script folder, in listing order, and the
      exit code of each command line it runs. */
  datatype Environment = Environment(
    sqlPackagePath: string,
    sqlCmdPath: string,
    listing: seq<string>,
    exitCode: string -> int)

  datatype Error =
    | InvalidAction(message: string)
    | NotSupported(message: string)
    | ProcessFailed(command: string, exitCode: int)

  /** The command lines run, in order, and either the confirmation line
      written on success or the error raised. */
  datatype Run = Run(issued: seq<string>, outcome: Result<string, Error>)

  // ---------------------------------------------------------------------
  // JavaScript string semantics of the optional `additionalArguments`
  // ---------------------------------------------------------------------

  /** `!!x` for an optional string: present and not empty. */
  predicate Truthy(x: Option<string>) {
    x.Some? && x.value != ""
  }

  /** The text `${x}` inserts for an optional string. */
  function Interpolated(x: Option<string>): string {
    match x
    case Some(s) => s
    case None => "undefined"
  }

  // ---------------------------------------------------------------------
  // Messages
  // ---------------------------------------------------------------------

  function InvalidActionMessage(actionType: int): string {
    "Invalid AzureSqlAction '" + IntToString(actionType) + "'."
  }

  function NotSupportedMessage(sqlpackageAction: int): string {
    "Not supported SqlPackage action: '" + PackageActionLookup(sqlpackageAction) + "'"
  }

  function DacpacSuccessMessage(sqlpackageAction: int): string {
    "Successfully executed action " + PackageActionLookup(sqlpackageAction) + " on target database."
  }

  const SqlFileSuccessMessage := "Successfully executed Sql file on target database."

  const FolderSuccessMessage := "Successfully executed scripts in sql folder on target database."

  // ---------------------------------------------------------------------
  // Command lines
  // ---------------------------------------------------------------------

  /** The Publish arguments of SqlPackage; connection string and package
      path are wrapped in double quotes. */
  function PublishArguments(connectionString: string, dacpacPackage: string): string {
    "/Action:Publish /TargetConnectionString:\"" + connectionString + "\" /SourceFile:\"" + dacpacPackage + "\""
  }

  /** The argument string of SqlPackage: Publish only, followed by the
      additional arguments after one space when they are truthy. */
  function PackageArguments(inputs: ActionInputs): (r: Result<string, Error>)
    requires inputs.payload.DacpacPayload?
    ensures r.Ok? <==> PackageActionOf(inputs.payload.sqlpackageAction) == Some(Publish)
    ensures r.Err? ==> r.error == NotSupported(NotSupportedMessage(inputs.payload.sqlpackageAction))
    ensures r.Ok? ==> PublishArguments(inputs.connectionString.connectionString, inputs.payload.dacpacPackage) <= r.value
    ensures r.Ok? && !Truthy(inputs.additionalArguments) ==>
      r.value == PublishArguments(inputs.connectionString.connectionString, inputs.payload.dacpacPackage)
    ensures r.Ok? && Truthy(inputs.additionalArguments) ==>
      r.value[|PublishArguments(inputs.connectionString.connectionString, inputs.payload.dacpacPackage)|..]
        == " " + inputs.additionalArguments.value
  {
    if inputs.payload.sqlpackageAction != PackageActionCode(Publish) then
      Err(NotSupported(NotSupportedMessage(inputs.payload.sqlpackageAction)))
    else
      var publish := PublishArguments(inputs.connectionString.connectionString, inputs.payload.dacpacPackage);
      if Truthy(inputs.additionalArguments) then Ok(publish + " " + inputs.additionalArguments.value)
      else Ok(publish)
  }

  /** `"<sqlPackagePath>" <args>`. */
  function DacpacCommand(sqlPackagePath: string, args: string): string {
    "\"" + sqlPackagePath + "\" " + args
  }

  /** The sqlcmd template shared by the single-file and folder branches:
      server and database bare, user and password quoted, the `-i` argument
      as given, and the additional arguments interpolated unconditionally. */
  function SqlCmdCommand(sqlCmdPath: string, inputs: ActionInputs, inputFile: string): string {
    "\"" + sqlCmdPath + "\" -S " + inputs.serverName
      + " -d " + inputs.connectionString.database
      + " -U \"" + inputs.connectionString.userId
      + "\" -P \"" + inputs.connectionString.password
      + "\" -i " + inputFile
      + " " + Interpolated(inputs.additionalArguments)
  }

  /** The single-file command: the script path is quoted. */
  function SqlFileCommand(sqlCmdPath: string, inputs: ActionInputs): string
    requires inputs.payload.SqlPayload?
  {
    SqlCmdCommand(sqlCmdPath, inputs, "\"" + inputs.payload.sqlFile + "\"")
  }

  /** The folder command for one script: the path is not quoted. */
  function FolderFileCommand(sqlCmdPath: string, inputs: ActionInputs, filePath: string): string {
    SqlCmdCommand(sqlCmdPath, inputs, filePath)
  }

  // ---------------------------------------------------------------------
  // The folder filter
  // ---------------------------------------------------------------------

  function FilePath(folder: string, name: string): string {
    folder + "/" + name
  }

  /** Longer than four characters and ending in exactly `.sql`. */
  predicate IsSqlPath(path: string) {
    |path| > 4 && path[|path| - 4..] == ".sql"
  }

  /** The paths of the listed entries that the folder branch runs, in
      listing order. */
  function SqlPaths(folder: string, names: seq<string>): (paths: seq<string>)
    ensures |paths| <= |names|
    ensures forall k :: 0 <= k < |paths| ==> IsSqlPath(paths[k])
  {
    if names == [] then []
    else
      var path := FilePath(folder, names[|names| - 1]);
      SqlPaths(folder, names[..|names| - 1]) + (if IsSqlPath(path) then [path] else [])
  }

  /** One sqlcmd command per path, in the same order. */
  function FolderCommands(sqlCmdPath: string, inputs: ActionInputs, paths: seq<string>): seq<string> {
    seq(|paths|, k requires 0 <= k < |paths| => FolderFileCommand(sqlCmdPath, inputs, paths[k]))
  }

  lemma {:induction false} SqlPathsAppend(folder: string, a: seq<string>, b: seq<string>)
    ensures SqlPaths(folder, a + b) == SqlPaths(folder, a) + SqlPaths(folder, b)
    decreases |b|
  {
    if b == [] {
      assert a + b == a;
    } else {
      var init := b[..|b| - 1];
      assert (a + b)[..|a + b| - 1] == a + init;
      assert (a + b)[|a + b| - 1] == b[|b| - 1];
      SqlPathsAppend(folder, a, init);
    }
  }

  lemma FolderCommandsAppend(sqlCmdPath: string, inputs: ActionInputs, a: seq<string>, b: seq<string>)
    ensures FolderCommands(sqlCmdPath, inputs, a + b)
         == FolderCommands(sqlCmdPath, inputs, a) + FolderCommands(sqlCmdPath, inputs, b)
  {
    var left := FolderCommands(sqlCmdPath, inputs, a + b);
    var right := FolderCommands(sqlCmdPath, inputs, a) + FolderCommands(sqlCmdPath, inputs, b);
    assert |left| == |right|;
    forall k | 0 <= k < |left| ensures left[k] == right[k] {
      if k < |a| {
        assert (a + b)[k] == a[k];
      } else {
        assert (a + b)[k] == b[k - |a|];
      }
    }
  }

  /** Entry i adds its command to those of the entries before it exactly
      when its path matches. */
  lemma FolderStep(sqlCmdPath: string, inputs: ActionInputs, folder: string, names: seq<string>, i: int)
    requires 0 <= i < |names|
    ensures
      var path := FilePath(folder, names[i]);
      var before := FolderCommands(sqlCmdPath, inputs, SqlPaths(folder, names[..i]));
      FolderCommands(sqlCmdPath, inputs, SqlPaths(folder, names[..i + 1]))
        == if IsSqlPath(path) then before + [FolderFileCommand(sqlCmdPath, inputs, path)] else before
  {
    var path := FilePath(folder, names[i]);
    assert names[..i + 1][..i] == names[..i];
    assert SqlPaths(folder, names[..i + 1])
        == SqlPaths(folder, names[..i]) + (if IsSqlPath(path) then [path] else []);
    FolderCommandsAppend(sqlCmdPath, inputs, SqlPaths(folder, names[..i]), if IsSqlPath(path) then [path] else []);
  }

  // ---------------------------------------------------------------------
  // Awaited process execution
  // ---------------------------------------------------------------------

  /** Runs the commands one after another, each awaited; a non-zero exit
      code makes the exec call reject, which ends the run with that failure.
      A run that completes ends with the confirmation line `success`. */
  function SequentialRun(commands: seq<string>, exitCode: string -> int, success: string): Run
    decreases |commands|
  {
    if commands == [] then Run([], Ok(success))
    else
      var before := SequentialRun(commands[..|commands| - 1], exitCode, success);
      var last := commands[|commands| - 1];
      if before.outcome.Err? then before
      else if exitCode(last) == 0 then Run(before.issued + [last], Ok(success))
      else Run(before.issued + [last], Err(ProcessFailed(last, exitCode(last))))
  }

  /** A single awaited command. */
  lemma SequentialRunSingle(command: string, exitCode: string -> int, success: string)
    ensures SequentialRun([command], exitCode, success)
         == if exitCode(command) == 0 then Run([command], Ok(success))
            else Run([command], Err(ProcessFailed(command, exitCode(command))))
  {
    assert [command][..0] == [];
    assert [] + [command] == [command];
  }

  /** One more awaited command after a run that has not failed. */
  lemma SequentialRunStep(issued: seq<string>, command: string, exitCode: string -> int, success: string)
    requires SequentialRun(issued, exitCode, success) == Run(issued, Ok(success))
    ensures SequentialRun(issued + [command], exitCode, success)
         == if exitCode(command) == 0 then Run(issued + [command], Ok(success))
            else Run(issued + [command], Err(ProcessFailed(command, exitCode(command))))
  {
    assert (issued + [command])[..|issued|] == issued;
  }

  /** Once a run has failed, later commands change nothing. */
  lemma {:induction false} SequentialRunFailureAbsorbs(a: seq<string>, b: seq<string>, exitCode: string -> int, success: string)
    requires SequentialRun(a, exitCode, success).outcome.Err?
    ensures SequentialRun(a + b, exitCode, success) == SequentialRun(a, exitCode, success)
    decreases |b|
  {
    if b == [] {
      assert a + b == a;
    } else {
      var init := b[..|b| - 1];
      assert (a + b)[..|a + b| - 1] == a + init;
      SequentialRunFailureAbsorbs(a, init, exitCode, success);
    }
  }

  /** A failure among the commands of the first `i` entries is the outcome
      of the whole folder. */
  lemma FolderFailureIsFinal(sqlCmdPath: string, inputs: ActionInputs, folder: string, files: seq<string>, i: int,
                             exitCode: string -> int, success: string)
    requires 0 <= i <= |files|
    requires SequentialRun(FolderCommands(sqlCmdPath, inputs, SqlPaths(folder, files[..i])), exitCode, success).outcome.Err?
    ensures SequentialRun(FolderCommands(sqlCmdPath, inputs, SqlPaths(folder, files)), exitCode, success)
         == SequentialRun(FolderCommands(sqlCmdPath, inputs, SqlPaths(folder, files[..i])), exitCode, success)
  {
    assert files[..i] + files[i..] == files;
    SqlPathsAppend(folder, files[..i], files[i..]);
    FolderCommandsAppend(sqlCmdPath, inputs, SqlPaths(folder, files[..i]), SqlPaths(folder, files[i..]));
    SequentialRunFailureAbsorbs(FolderCommands(sqlCmdPath, inputs, SqlPaths(folder, files[..i])),
                                FolderCommands(sqlCmdPath, inputs, SqlPaths(folder, files[i..])), exitCode, success);
  }

  // ---------------------------------------------------------------------
  // The three branches and the dispatch
  // ---------------------------------------------------------------------

  function DacpacRun(inputs: ActionInputs, env: Environment): Run
    requires inputs.payload.DacpacPayload?
  {
    match PackageArguments(inputs)
    case Err(e) => Run([], Err(e))
    case Ok(args) =>
      SequentialRun([DacpacCommand(env.sqlPackagePath, args)], env.exitCode,
                    DacpacSuccessMessage(inputs.payload.sqlpackageAction))
  }

  function SqlFileRun(inputs: ActionInputs, env: Environment): Run
    requires inputs.payload.SqlPayload?
  {
    SequentialRun([SqlFileCommand(env.sqlCmdPath, inputs)], env.exitCode, SqlFileSuccessMessage)
  }

  function FolderRun(inputs: ActionInputs, env: Environment): Run
    requires inputs.payload.FolderPayload?
  {
    var paths := SqlPaths(inputs.payload.sqlFolder, env.listing);
    SequentialRun(FolderCommands(env.sqlCmdPath, inputs, paths), env.exitCode, FolderSuccessMessage)
  }

  /** The whole `execute` call. */
  function Execution(inputs: WellTypedInputs, env: Environment): Run {
    match ActionTypeOf(inputs.actionType)
    case None => Run([], Err(InvalidAction(InvalidActionMessage(inputs.actionType))))
    case Some(DacpacAction) => DacpacRun(inputs, env)
    case Some(SqlAction) => SqlFileRun(inputs, env)
    case Some(FolderAction) => FolderRun(inputs, env)
  }

  // ---------------------------------------------------------------------
  // The action object
  // ---------------------------------------------------------------------

  /** The action object. Its `execute` is the dispatch `Execution`; the two
      members that work step by step, the folder loop and the argument
      builder, are methods proved against `FolderRun` and `PackageArguments`. */
  class AzureSqlAction {
    const inputs: WellTypedInputs

    constructor (inputs: WellTypedInputs)
      ensures this.inputs == inputs
    {
      this.inputs := inputs;
    }

    /** Walks the listing in order and awaits one sqlcmd command per
        matching entry, returning at the first non-zero exit code. */
    method ExecuteFolderAction(folderInputs: ActionInputs, env: Environment) returns (run: Run)
      requires folderInputs.payload.FolderPayload?
      ensures run == FolderRun(folderInputs, env)
    {
      var folder := folderInputs.payload.sqlFolder;
      var files := env.listing;
      var issued: seq<string> := [];
      for i := 0 to |files|
        invariant issued == FolderCommands(env.sqlCmdPath, folderInputs, SqlPaths(folder, files[..i]))
        invariant SequentialRun(issued, env.exitCode, FolderSuccessMessage) == Run(issued, Ok(FolderSuccessMessage))
      {
        var filePath := FilePath(folder, files[i]);
        FolderStep(env.sqlCmdPath, folderInputs, folder, files, i);
        if IsSqlPath(filePath) {
          var command := FolderFileCommand(env.sqlCmdPath, folderInputs, filePath);
          SequentialRunStep(issued, command, env.exitCode, FolderSuccessMessage);
          issued := issued + [command];
          var code := env.exitCode(command);
          if code != 0 {
            run := Run(issued, Err(ProcessFailed(command, code)));
            FolderFailureIsFinal(env.sqlCmdPath, folderInputs, folder, files, i + 1, env.exitCode, FolderSuccessMessage);
            return;
          }
        }
      }
      assert files[..|files|] == files;
      run := Run(issued, Ok(FolderSuccessMessage));
    }

    /** Builds the SqlPackage arguments by appending to a string, as the
        source does. */
    method GetSqlPackageArguments(dacpacInputs: ActionInputs) returns (r: Result<string, Error>)
      requires dacpacInputs.payload.DacpacPayload?
      ensures r == PackageArguments(dacpacInputs)
    {
      var args := "";
      if dacpacInputs.payload.sqlpackageAction == PackageActionCode(Publish) {
        var publish := PublishArguments(dacpacInputs.connectionString.connectionString, dacpacInputs.payload.dacpacPackage);
        assert args + publish == publish;  // appending to the empty string
        args := args + publish;
      } else {
        return Err(NotSupported(NotSupportedMessage(dacpacInputs.payload.sqlpackageAction)));
      }
      if dacpacInputs.additionalArguments.Some? && dacpacInputs.additionalArguments.value != "" {
        args := args + " " + dacpacInputs.additionalArguments.value;
      }
      r := Ok(args);
    }
  }
}
