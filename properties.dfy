/** Properties of the dispatcher model: which folder entries are run and in
    what order, the stop-at-first-failure behaviour of awaited commands, the
    exact command lines of each branch, and the error paths that run
    nothing. */
module SqlActionProperties {
  import opened NumberText
  import opened AzureSql

  // ---------------------------------------------------------------------
  // The folder filter
  // ---------------------------------------------------------------------

  /** The path test on `folder + '/' + name` is a test on the name alone:
      the name ends in `.sql` (case-sensitive). A name that is exactly
      `.sql` matches; a shorter name cannot, because the `/` would fall
      inside the last four characters. */
  lemma SqlPathIffSqlName(folder: string, name: string)
    ensures IsSqlPath(FilePath(folder, name)) <==> |name| >= 4 && name[|name| - 4..] == ".sql"
  {
    var path := FilePath(folder, name);
    if |name| >= 4 {
      assert path[|path| - 4..] == name[|name| - 4..];
    } else if |path| > 4 {
      var j := 3 - |name|;
      assert path[|path| - 4..][j] == path[|folder|] == '/';
      assert ".sql"[j] != '/';
    }
  }

  /** An entry's path is run exactly when it comes from some listed name and
      passes the test. */
  lemma {:induction false} SqlPathsMembership(folder: string, names: seq<string>, path: string)
    ensures path in SqlPaths(folder, names)
        <==> exists i :: 0 <= i < |names| && path == FilePath(folder, names[i]) && IsSqlPath(path)
    decreases |names|
  {
    if names != [] {
      var init := names[..|names| - 1];
      SqlPathsMembership(folder, init, path);
      if path in SqlPaths(folder, init) {
        var i :| 0 <= i < |init| && path == FilePath(folder, init[i]) && IsSqlPath(path);
        assert names[i] == init[i];
      }
      if exists i :: 0 <= i < |names| && path == FilePath(folder, names[i]) && IsSqlPath(path) {
        var i :| 0 <= i < |names| && path == FilePath(folder, names[i]) && IsSqlPath(path);
        if i < |init| {
          assert names[i] == init[i];
        }
      }
    }
  }

  /** The listing positions of the entries that match, in increasing order. */
  ghost function MatchIndices(folder: string, names: seq<string>): seq<nat>
    decreases |names|
  {
    if names == [] then []
    else
      var n := |names| - 1;
      MatchIndices(folder, names[..n]) + (if IsSqlPath(FilePath(folder, names[n])) then [n] else [])
  }

  /** The matching positions are strictly increasing positions of the listing. */
  lemma {:induction false} MatchIndicesIncreasing(folder: string, names: seq<string>)
    ensures forall k :: 0 <= k < |MatchIndices(folder, names)| ==> MatchIndices(folder, names)[k] < |names|
    ensures forall k, l :: 0 <= k < l < |MatchIndices(folder, names)| ==>
      MatchIndices(folder, names)[k] < MatchIndices(folder, names)[l]
    decreases |names|
  {
    if names != [] {
      var n := |names| - 1;
      MatchIndicesIncreasing(folder, names[..n]);
      var idx0 := MatchIndices(folder, names[..n]);
      var idx := MatchIndices(folder, names);
      assert |names[..n]| == n;
      assert forall k :: 0 <= k < |idx0| ==> idx[k] == idx0[k] && idx0[k] < n;
      assert |idx| > |idx0| ==> |idx| == |idx0| + 1 && idx[|idx0|] == n;
    }
  }

  /** A position is among the matching ones exactly when its entry matches. */
  lemma {:induction false} MatchIndicesExactlyMatching(folder: string, names: seq<string>)
    ensures forall i :: 0 <= i < |names| ==>
      (i in MatchIndices(folder, names) <==> IsSqlPath(FilePath(folder, names[i])))
    decreases |names|
  {
    if names != [] {
      var n := |names| - 1;
      var init := names[..n];
      MatchIndicesExactlyMatching(folder, init);
      MatchIndicesIncreasing(folder, init);
      var idx0 := MatchIndices(folder, init);
      assert forall k :: 0 <= k < |idx0| ==> idx0[k] < n;
      assert n !in idx0;
      forall i | 0 <= i < |names|
        ensures i in MatchIndices(folder, names) <==> IsSqlPath(FilePath(folder, names[i]))
      {
        if i < n {
          assert names[i] == init[i];
        }
      }
    }
  }

  /** The paths run correspond one-to-one, in listing order, to the entries
      that match: the k-th path comes from the entry at position idx[k], the
      positions are strictly increasing, and a position appears exactly when
      its entry matches. */
  lemma {:induction false} SqlPathsInListingOrder(folder: string, names: seq<string>)
    ensures
      var idx, paths := MatchIndices(folder, names), SqlPaths(folder, names);
      && |idx| == |paths|
      && (forall k :: 0 <= k < |idx| ==> idx[k] < |names| && paths[k] == FilePath(folder, names[idx[k]]))
      && (forall k, l :: 0 <= k < l < |idx| ==> idx[k] < idx[l])
      && (forall i :: 0 <= i < |names| ==> (i in idx <==> IsSqlPath(FilePath(folder, names[i]))))
    decreases |names|
  {
    MatchIndicesIncreasing(folder, names);
    MatchIndicesExactlyMatching(folder, names);
    if names != [] {
      var n := |names| - 1;
      var init := names[..n];
      SqlPathsInListingOrder(folder, init);
      MatchIndicesIncreasing(folder, init);
      var idx0 := MatchIndices(folder, init);
      forall k | 0 <= k < |idx0| ensures names[idx0[k]] == init[idx0[k]] {
      }
    }
  }

  /** A listing with mixed entries: only the two lowercase
      `.sql` entries are run, in listing order. */
  lemma SqlPathsExample()
    ensures SqlPaths("scripts", ["a.sql", "b.txt", "c.SQL", "d.sql"]) == ["scripts/a.sql", "scripts/d.sql"]
  {
    var names := ["a.sql", "b.txt", "c.SQL", "d.sql"];
    var a, b, c, d := FilePath("scripts", "a.sql"), FilePath("scripts", "b.txt"),
                      FilePath("scripts", "c.SQL"), FilePath("scripts", "d.sql");
    assert a == "scripts/a.sql" && d == "scripts/d.sql";
    assert a[|a| - 4..] == ".sql" && d[|d| - 4..] == ".sql";
    assert b[|b| - 4..] == ".txt" && c[|c| - 4..] == ".SQL";
    assert names[..0] == [];
    assert names[..1][..0] == [];
    assert SqlPaths("scripts", names[..1]) == [a];
    assert names[..2][..1] == names[..1];
    assert SqlPaths("scripts", names[..2]) == [a];
    assert names[..3][..2] == names[..2];
    assert SqlPaths("scripts", names[..3]) == [a];
    assert names[..3] == names[..|names| - 1];
  }

  // ---------------------------------------------------------------------
  // Awaited commands
  // ---------------------------------------------------------------------

  /** Every command of the sequence exits with 0. */
  ghost predicate AllSucceed(commands: seq<string>, exitCode: string -> int) {
    forall j :: 0 <= j < |commands| ==> exitCode(commands[j]) == 0
  }

  /** Running commands one after another, each awaited, succeeds exactly
      when every command exits with 0; it has then run all of them, in
      order, and ends with the confirmation line. */
  lemma {:induction false} SequentialRunSucceedsIffAllSucceed(commands: seq<string>, exitCode: string -> int, success: string)
    ensures
      var run := SequentialRun(commands, exitCode, success);
      && (run.outcome.Ok? <==> AllSucceed(commands, exitCode))
      && (run.outcome.Ok? ==> run.issued == commands && run.outcome.value == success)
    decreases |commands|
  {
    if commands != [] {
      var n := |commands| - 1;
      var init := commands[..n];
      SequentialRunSucceedsIffAllSucceed(init, exitCode, success);
      var last := commands[n];
      assert commands == init + [last];
      if AllSucceed(init, exitCode) {
        if exitCode(last) == 0 {
          forall j | 0 <= j < |commands| ensures exitCode(commands[j]) == 0 {
            if j < n {
              assert commands[j] == init[j];
            }
          }
        } else {
          assert !AllSucceed(commands, exitCode) by {
            assert exitCode(commands[n]) != 0;
          }
        }
      } else {
        var j :| 0 <= j < n && exitCode(init[j]) != 0;
        assert !AllSucceed(commands, exitCode) by {
          assert commands[j] == init[j];
        }
      }
    }
  }

  /** A failed run stopped at the first failing command: what ran is a
      prefix of the commands, every command before the last exited with 0,
      and the last one's non-zero exit code is the error. */
  lemma {:induction false} SequentialRunFailsAtFirstFailure(commands: seq<string>, exitCode: string -> int, success: string)
    ensures
      var run := SequentialRun(commands, exitCode, success);
      run.outcome.Err? ==>
        && run.issued != []
        && run.issued <= commands
        && AllSucceed(run.issued[..|run.issued| - 1], exitCode)
        && var last := run.issued[|run.issued| - 1];
           exitCode(last) != 0 && run.outcome.error == ProcessFailed(last, exitCode(last))
    decreases |commands|
  {
    if commands != [] {
      var n := |commands| - 1;
      var init := commands[..n];
      var before := SequentialRun(init, exitCode, success);
      SequentialRunFailsAtFirstFailure(init, exitCode, success);
      if before.outcome.Err? {
        assert init[..|before.issued|] == commands[..|before.issued|];
      } else {
        SequentialRunSucceedsIffAllSucceed(init, exitCode, success);
        assert commands == init + [commands[n]];
        assert (init + [commands[n]])[..n] == init;
      }
    }
  }

  /** If the k-th command fails, nothing after it is run, and the run fails. */
  lemma FailureStopsLaterCommands(commands: seq<string>, exitCode: string -> int, success: string, k: int)
    requires 0 <= k < |commands| && exitCode(commands[k]) != 0
    ensures
      var run := SequentialRun(commands, exitCode, success);
      run.outcome.Err? && |run.issued| <= k + 1 && run.issued == commands[..|run.issued|]
  {
    SequentialRunSucceedsIffAllSucceed(commands, exitCode, success);
    SequentialRunFailsAtFirstFailure(commands, exitCode, success);
  }

  // ---------------------------------------------------------------------
  // The folder branch
  // ---------------------------------------------------------------------

  /** One command per matching path, in order, until the first failure. If
      the command of the k-th matching entry fails, no later entry is run and
      the confirmation line is not written. */
  lemma FolderRunStopsAtFirstFailure(inputs: ActionInputs, env: Environment, k: int)
    requires inputs.payload.FolderPayload?
    requires
      var cmds := FolderCommands(env.sqlCmdPath, inputs, SqlPaths(inputs.payload.sqlFolder, env.listing));
      0 <= k < |cmds| && env.exitCode(cmds[k]) != 0
    ensures
      var paths := SqlPaths(inputs.payload.sqlFolder, env.listing);
      var run := FolderRun(inputs, env);
      && run.outcome.Err?
      && |run.issued| <= k + 1
      && forall j :: 0 <= j < |run.issued| ==> run.issued[j] == FolderFileCommand(env.sqlCmdPath, inputs, paths[j])
  {
    var paths := SqlPaths(inputs.payload.sqlFolder, env.listing);
    FailureStopsLaterCommands(FolderCommands(env.sqlCmdPath, inputs, paths), env.exitCode, FolderSuccessMessage, k);
  }

  /** The folder commands follow the listing: the k-th command runs the
      path of the k-th matching entry, and there is one per matching entry. */
  lemma FolderCommandsFollowListing(inputs: ActionInputs, env: Environment)
    requires inputs.payload.FolderPayload?
    ensures
      var folder := inputs.payload.sqlFolder;
      var idx := MatchIndices(folder, env.listing);
      var cmds := FolderCommands(env.sqlCmdPath, inputs, SqlPaths(folder, env.listing));
      && |cmds| == |idx|
      && forall k :: 0 <= k < |idx| ==>
           idx[k] < |env.listing| && cmds[k] == FolderFileCommand(env.sqlCmdPath, inputs, FilePath(folder, env.listing[idx[k]]))
  {
    SqlPathsInListingOrder(inputs.payload.sqlFolder, env.listing);
  }

  /** The folder branch succeeds exactly when every matching script exits
      with 0; it then has run one command per matching path, in order. */
  lemma FolderRunSucceeds(inputs: ActionInputs, env: Environment)
    requires inputs.payload.FolderPayload?
    ensures
      var paths := SqlPaths(inputs.payload.sqlFolder, env.listing);
      var cmds := FolderCommands(env.sqlCmdPath, inputs, paths);
      var run := FolderRun(inputs, env);
      && (run.outcome.Ok? <==> AllSucceed(cmds, env.exitCode))
      && (run.outcome.Ok? ==>
            && run.outcome.value == FolderSuccessMessage
            && |run.issued| == |paths|
            && forall j :: 0 <= j < |paths| ==> run.issued[j] == FolderFileCommand(env.sqlCmdPath, inputs, paths[j]))
  {
    var paths := SqlPaths(inputs.payload.sqlFolder, env.listing);
    SequentialRunSucceedsIffAllSucceed(FolderCommands(env.sqlCmdPath, inputs, paths), env.exitCode, FolderSuccessMessage);
  }

  // ---------------------------------------------------------------------
  // Command lines
  // ---------------------------------------------------------------------

  /** In both sqlcmd branches the additional arguments close the command
      after one space, verbatim when present and as `undefined` when absent. */
  lemma SqlCmdEndsWithAdditionalArguments(sqlCmdPath: string, inputs: ActionInputs, inputFile: string)
    ensures
      var command, extra := SqlCmdCommand(sqlCmdPath, inputs, inputFile), Interpolated(inputs.additionalArguments);
      && |command| > |extra|
      && command[|command| - |extra| - 1..] == " " + extra
      && (inputs.additionalArguments.None? ==> command[|command| - 10..] == " undefined")
  {
    var command, extra := SqlCmdCommand(sqlCmdPath, inputs, inputFile), Interpolated(inputs.additionalArguments);
    var head := "\"" + sqlCmdPath + "\" -S " + inputs.serverName
      + " -d " + inputs.connectionString.database
      + " -U \"" + inputs.connectionString.userId
      + "\" -P \"" + inputs.connectionString.password
      + "\" -i " + inputFile;
    assert command == head + (" " + extra);
    assert command[|command| - |extra| - 1..] == " " + extra;
  }

  /** The Publish arguments without additional arguments, written out. */
  lemma PublishArgumentsExact(inputs: ActionInputs)
    requires inputs.payload.DacpacPayload? && inputs.payload.sqlpackageAction == 0
    requires !Truthy(inputs.additionalArguments)
    ensures PackageArguments(inputs)
         == Ok("/Action:Publish /TargetConnectionString:\"" + inputs.connectionString.connectionString
               + "\" /SourceFile:\"" + inputs.payload.dacpacPackage + "\"")
  {
  }

  /** Non-empty additional arguments follow the Publish arguments after one
      space, verbatim; absent or empty ones add nothing. */
  lemma PublishAdditionalArguments(inputs: ActionInputs)
    requires inputs.payload.DacpacPayload? && inputs.payload.sqlpackageAction == 0
    ensures
      var publish := PublishArguments(inputs.connectionString.connectionString, inputs.payload.dacpacPackage);
      PackageArguments(inputs)
        == Ok(if Truthy(inputs.additionalArguments) then publish + " " + inputs.additionalArguments.value else publish)
  {
  }

  /** The refusal names the action: its member name for the six recognised
      actions other than Publish, `undefined` for a number outside the enum. */
  lemma NotSupportedMessageNamesAction(code: int)
    requires code != PackageActionCode(Publish)
    ensures 1 <= code <= 6 ==>
      NotSupportedMessage(code) == "Not supported SqlPackage action: '" + PackageActionName(PackageActionOf(code).value) + "'"
    ensures !(0 <= code <= 6) ==> NotSupportedMessage(code) == "Not supported SqlPackage action: 'undefined'"
  {
  }

  /** The value named by the invalid-action message reads back as the
      action type that was given. */
  lemma InvalidActionMessageNamesValue(actionType: int)
    ensures
      var t := IntToString(actionType);
      InvalidActionMessage(actionType) == "Invalid AzureSqlAction '" + t + "'." && ParseInt(t) == actionType
  {
    ParseIntToString(actionType);
  }

  // ---------------------------------------------------------------------
  // The dispatch
  // ---------------------------------------------------------------------

  /** An action type outside the three raises the invalid-action error
      before anything is run. */
  lemma InvalidActionTypeRunsNothing(inputs: WellTypedInputs, env: Environment)
    requires !(0 <= inputs.actionType <= 2)
    ensures Execution(inputs, env) == Run([], Err(InvalidAction(InvalidActionMessage(inputs.actionType))))
  {
  }

  /** A SqlPackage action other than Publish raises the not-supported error
      before SqlPackage is run. */
  lemma UnsupportedPackageActionRunsNothing(inputs: WellTypedInputs, env: Environment)
    requires inputs.actionType == ActionTypeCode(DacpacAction)
    requires inputs.payload.DacpacPayload? && inputs.payload.sqlpackageAction != PackageActionCode(Publish)
    ensures Execution(inputs, env) == Run([], Err(NotSupported(NotSupportedMessage(inputs.payload.sqlpackageAction))))
  {
  }

  /** Publish runs exactly one SqlPackage command: the quoted tool path, one
      space, the arguments. */
  lemma DacpacRunsOneCommand(inputs: WellTypedInputs, env: Environment)
    requires inputs.actionType == ActionTypeCode(DacpacAction)
    requires inputs.payload.DacpacPayload? && inputs.payload.sqlpackageAction == PackageActionCode(Publish)
    ensures
      var args := PackageArguments(inputs).value;
      var command := "\"" + env.sqlPackagePath + "\" " + args;
      var run := Execution(inputs, env);
      && run.issued == [command]
      && run.outcome == if env.exitCode(command) == 0
                        then Ok("Successfully executed action Publish on target database.")
                        else Err(ProcessFailed(command, env.exitCode(command)))
  {
    var args := PackageArguments(inputs).value;
    assert DacpacSuccessMessage(inputs.payload.sqlpackageAction) == "Successfully executed action Publish on target database.";
    SequentialRunSingle(DacpacCommand(env.sqlPackagePath, args), env.exitCode,
                        DacpacSuccessMessage(inputs.payload.sqlpackageAction));
  }

  /** The single-file branch runs exactly one sqlcmd command, with the
      script path quoted and server and database bare. */
  lemma SqlFileRunsOneCommand(inputs: WellTypedInputs, env: Environment)
    requires inputs.actionType == ActionTypeCode(SqlAction)
    ensures
      var conn := inputs.connectionString;
      var command := "\"" + env.sqlCmdPath + "\" -S " + inputs.serverName + " -d " + conn.database
        + " -U \"" + conn.userId + "\" -P \"" + conn.password + "\" -i \"" + inputs.payload.sqlFile + "\" "
        + Interpolated(inputs.additionalArguments);
      var run := Execution(inputs, env);
      && run.issued == [command]
      && run.outcome == if env.exitCode(command) == 0
                        then Ok(SqlFileSuccessMessage)
                        else Err(ProcessFailed(command, env.exitCode(command)))
  {
    var command := SqlFileCommand(env.sqlCmdPath, inputs);
    SequentialRunSingle(command, env.exitCode, SqlFileSuccessMessage);
    SqlFileCommandText(env.sqlCmdPath, inputs);
  }

  /** The single-file template with the quoted `-i` argument written inline. */
  lemma SqlFileCommandText(sqlCmdPath: string, inputs: ActionInputs)
    requires inputs.payload.SqlPayload?
    ensures
      var conn := inputs.connectionString;
      SqlFileCommand(sqlCmdPath, inputs)
        == "\"" + sqlCmdPath + "\" -S " + inputs.serverName + " -d " + conn.database
           + " -U \"" + conn.userId + "\" -P \"" + conn.password + "\" -i \"" + inputs.payload.sqlFile + "\" "
           + Interpolated(inputs.additionalArguments)
  {
    var conn := inputs.connectionString;
    var q, p, x := "\"", inputs.payload.sqlFile, Interpolated(inputs.additionalArguments);
    var head := "\"" + sqlCmdPath + "\" -S " + inputs.serverName + " -d " + conn.database
      + " -U \"" + conn.userId + "\" -P \"" + conn.password;
    assert "\" -i " + (q + p + q) + " " + x == "\" -i \"" + p + "\" " + x by {
      assert "\" -i " + q == "\" -i \"";
      assert q + " " == "\" ";
    }
    assert SqlFileCommand(sqlCmdPath, inputs) == head + ("\" -i " + (q + p + q) + " " + x);
  }

  /** The folder action type runs the folder branch. */
  lemma FolderActionRunsFolder(inputs: WellTypedInputs, env: Environment)
    requires inputs.actionType == ActionTypeCode(FolderAction)
    ensures inputs.payload.FolderPayload? && Execution(inputs, env) == FolderRun(inputs, env)
  {
  }
}
