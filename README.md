# Azure SQL action dispatcher — a Dafny model

This project models the core of the Azure SQL deployment action: the class
`AzureSqlAction` in `src/AzureSqlAction.ts`. Given the action inputs, `execute`
picks one of three branches from the numeric `ActionType`:

- **Dacpac action.** Builds the SqlPackage arguments. Only `Publish` is
  supported; every other `SqlPackageAction` is refused before anything runs.
  Then it runs `"<sqlpackage>" <args>`.
- **Sql action.** Runs sqlcmd once on a single script.
- **Folder action.** Walks the folder listing in order and runs sqlcmd once
  for every entry whose path `folder + '/' + name` is longer than four
  characters and ends in exactly `.sql`.

Any other action type is refused before anything runs. Every process is
awaited, and a non-zero exit code makes the call fail. In the folder action,
the first failing script therefore ends the whole action: later scripts do not
run, and the confirmation line is not written.

The outside world is abstract:
- An `Environment` supplies the resolved tool paths and the names that the
  folder listing returns, in listing order.
- Running a command line is an oracle `exitCode: string -> int`.
- A `Run` records the command lines issued, in order, and the outcome. The
  outcome is either the confirmation line the source writes on success, or the
  error it raises: `InvalidAction`, `NotSupported`, or `ProcessFailed(command,
  exitCode)`.

Files:

- `number_text.dfy` (module `NumberText`): the decimal text of an integer, as
  a template literal renders a number of magnitude below 2^53. It is used in
  the "Invalid AzureSqlAction" message. It comes with its reading back.
- `azure_sql_action.dfy` (module `AzureSql`): the enumerations as numeric
  codes with decoders and the inputs. It also holds the JavaScript meaning of
  `!!x` and `${x}` for the optional additional arguments, the messages and the
  command templates. Then come the folder filter and the awaited sequential
  run, as specification functions, the dispatch `Execution`, and the class
  `AzureSqlAction`. The class holds the inputs. Its two methods are the parts
  of the source that work step by step, each proved against its function.
  `GetSqlPackageArguments` builds the arguments by appending to a string.
  `ExecuteFolderAction` is the loop over the listing.
- `command_tokens.dfy` (module `CommandTokens`): an independent, token-level
  reference for each command line. Each template is proved to be the
  space-separated rendering of an explicit list of bare and quoted tokens, so
  which argument is quoted can be read off the list.
- `properties.dfy` (module `SqlActionProperties`): the filter
  characterisation, one-to-one correspondence in listing order,
  stop-at-first-failure, the exact command lines, and the error paths that run
  nothing.

Behaviour of the source that the model keeps on purpose:

- Server name and database are never quoted. User id and password are quoted.
- The single-file `-i` argument is quoted. The folder `-i` path is not.
- In both sqlcmd branches, `additionalArguments` is interpolated without a
  guard. An absent value becomes the text `undefined`, and an empty one leaves
  a trailing space. The SqlPackage branch appends it only when it is truthy.
- The folder filter tests the whole path. This is shown to be the same test
  as "the name ends in `.sql`" (`SqlPathIffSqlName`). So an entry named
  exactly `.sql` matches. A sub-directory whose name ends in `.sql` also
  matches, because entry kinds are never looked at.
- A SqlPackage action number outside the enum is refused with the name
  `undefined`, because the reverse lookup `SqlPackageAction[n]` gives that.

## Model

| member | source | states |
|---|---|---|
| `AzureSql.ActionTypeOf` | src/AzureSqlAction.ts:8-12 | decodes exactly the three numeric values 0, 1, 2 of `ActionType`, and the decoded member has that numeric value |
| `AzureSql.PackageActionOf` | src/AzureSqlAction.ts:34-43 | decodes exactly the seven numeric values of `SqlPackageAction`, and the decoded member has that numeric value |
| `AzureSql.PackageArguments` | src/AzureSqlAction.ts:97-115 | succeeds exactly for `Publish`; any other action fails with `NotSupported` naming it; on success the Publish text is a prefix of the result; with falsy additional arguments the result is the Publish text alone, otherwise it is followed by one space and the additional arguments verbatim |
| `AzureSql.SqlPaths` | src/AzureSqlAction.ts:87-89 | the folder filter (`FilePath` builds `folder + '/' + name`, `IsSqlPath` is the length and `.sql` test): keeps at most as many paths as there are listed names, and every kept path passes the test |
| `AzureSql.SqlPathsAppend` | src/AzureSqlAction.ts:87-92 | the filter distributes over concatenation of listings, so it preserves listing order |
| `AzureSql.SequentialRunFailureAbsorbs` | src/AzureSqlAction.ts:87-92 | `SequentialRun` is the chain of awaited `exec` calls, each rejecting on a non-zero exit code: once one has failed, later commands change neither what was issued nor the outcome |
| `AzureSql.AzureSqlAction.constructor` | src/AzureSqlAction.ts:46-48 | the action object holds the inputs it was given |
| `AzureSql.AzureSqlAction.ExecuteFolderAction` | src/AzureSqlAction.ts:82-95 | the loop over the listing equals `FolderRun`: it issues the folder commands (`FolderCommands`, one `FolderFileCommand` per path) of the matching paths in order, awaiting each, and returns at the first non-zero exit code |
| `AzureSql.AzureSqlAction.GetSqlPackageArguments` | src/AzureSqlAction.ts:97-115 | the string built by appending to `''` equals `PackageArguments`, including its refusal of every action but Publish and its `Truthy` guard on the additional arguments |
| `NumberText.NatToString` | src/AzureSqlAction.ts:61 | the decimal text of a natural number is a non-empty string of digits with no leading zero, one digit exactly for values below ten |
| `NumberText.ParseIntToString` | src/AzureSqlAction.ts:61 | the text `IntToString` gives an integer (minus sign for negatives) reads back as that integer, so the message determines the value |
| `CommandTokens.PublishArgumentsAreTokens` | src/AzureSqlAction.ts:102 | `PublishArguments` is the tokens `/Action:Publish`, `/TargetConnectionString:"C"`, `/SourceFile:"P"` joined by single spaces |
| `CommandTokens.PackageArgumentsAreTokens` | src/AzureSqlAction.ts:101-112 | for Publish, the arguments are the Publish tokens plus one bare token for the additional arguments exactly when they are truthy |
| `CommandTokens.RenderAppend` | src/AzureSqlAction.ts:111 | appending a token to a command line appends one space and its text |
| `CommandTokens.DacpacCommandIsTokens` | src/AzureSqlAction.ts:70 | `DacpacCommand` is the quoted tool path and the bare argument string, separated by one space |
| `CommandTokens.SqlCmdCommandIsTokens` | src/AzureSqlAction.ts:77 | `SqlCmdCommand`, the template shared by both sqlcmd branches, is the rendering of: quoted tool; `-S` bare server; `-d` bare database; `-U` quoted user; `-P` quoted password; `-i` and the input-file token; the additional arguments as `Interpolated` gives them (`undefined` when absent) |
| `CommandTokens.SqlFileCommandIsTokens` | src/AzureSqlAction.ts:77 | in `SqlFileCommand` the `-i` script path is a quoted token |
| `CommandTokens.FolderFileCommandIsTokens` | src/AzureSqlAction.ts:90 | in `FolderFileCommand` the `-i` path is a bare token |
| `SqlActionProperties.SqlPathIffSqlName` | src/AzureSqlAction.ts:88-89 | the path test on `folder + '/' + name` holds exactly when the name itself ends in `.sql`, case-sensitively |
| `SqlActionProperties.SqlPathsMembership` | src/AzureSqlAction.ts:87-92 | a path is run exactly when it is `folder + '/' + name` for some listed name and passes the test |
| `SqlActionProperties.MatchIndicesIncreasing` | src/AzureSqlAction.ts:87 | the listing positions of matching entries are strictly increasing positions within the listing |
| `SqlActionProperties.MatchIndicesExactlyMatching` | src/AzureSqlAction.ts:89 | a listing position is among the matching ones exactly when its entry passes the test |
| `SqlActionProperties.SqlPathsInListingOrder` | src/AzureSqlAction.ts:87-92 | the paths run correspond one-to-one and in listing order to the matching entries; non-matching entries contribute nothing |
| `SqlActionProperties.SqlPathsExample` | src/AzureSqlAction.ts:87-91 | for the listing `a.sql`, `b.txt`, `c.SQL`, `d.sql`, exactly `a.sql` and `d.sql` are run, in that order |
| `SqlActionProperties.SequentialRunSucceedsIffAllSucceed` | src/AzureSqlAction.ts:87-94 | `SequentialRun` succeeds exactly when every awaited command exits with 0; all of them then ran, in order, and the confirmation line is the result |
| `SqlActionProperties.SequentialRunFailsAtFirstFailure` | src/AzureSqlAction.ts:87-92 | a failed run issued a non-empty prefix of the commands, all but the last exited with 0, and the last one's non-zero exit code is the error |
| `SqlActionProperties.FailureStopsLaterCommands` | src/AzureSqlAction.ts:87-94 | if the k-th command fails, the run fails and no command after the k-th is issued |
| `SqlActionProperties.FolderRunStopsAtFirstFailure` | src/AzureSqlAction.ts:87-94 | `FolderRun`: if the command of the k-th matching entry fails, no later entry is run, the folder action fails without its confirmation line, and what ran are the commands of the first matching paths, in order |
| `SqlActionProperties.FolderRunSucceeds` | src/AzureSqlAction.ts:87-94 | `FolderRun` succeeds exactly when every matching script exits with 0, and then ran one command per matching path in order, ending with `FolderSuccessMessage` (line 94) |
| `SqlActionProperties.FolderCommandsFollowListing` | src/AzureSqlAction.ts:87-91 | there is one folder command per matching listing entry, and the k-th command runs `folder + '/' + name` of the k-th matching entry, so the commands follow the listing order |
| `SqlActionProperties.SqlCmdEndsWithAdditionalArguments` | src/AzureSqlAction.ts:77 | both sqlcmd commands end with one space and the interpolated additional arguments, and with ` undefined` when they are absent |
| `SqlActionProperties.PublishArgumentsExact` | src/AzureSqlAction.ts:101-103 | Publish with absent or empty additional arguments gives exactly `/Action:Publish /TargetConnectionString:"C" /SourceFile:"P"` |
| `SqlActionProperties.PublishAdditionalArguments` | src/AzureSqlAction.ts:110-112 | non-empty additional arguments (`Truthy`, the `!!` test) follow the Publish text after one space, verbatim; absent or empty ones add nothing |
| `SqlActionProperties.NotSupportedMessageNamesAction` | src/AzureSqlAction.ts:105-107 | `NotSupportedMessage` names the recognised action by its member name, and says `undefined` for a number outside the enum, as the reverse lookup `PackageActionLookup` (`SqlPackageAction[n]`) gives it |
| `SqlActionProperties.InvalidActionMessageNamesValue` | src/AzureSqlAction.ts:61 | `InvalidActionMessage` embeds the decimal text of the action type, which reads back as that value |
| `SqlActionProperties.InvalidActionTypeRunsNothing` | src/AzureSqlAction.ts:50-62 | `Execution`, the dispatch of `execute`: an action type outside the three fails with the invalid-action error and issues no command |
| `SqlActionProperties.UnsupportedPackageActionRunsNothing` | src/AzureSqlAction.ts:65-70 | `Execution` through `DacpacRun`: a dacpac action other than Publish fails with the not-supported error and issues no command |
| `SqlActionProperties.DacpacRunsOneCommand` | src/AzureSqlAction.ts:65-73 | `Execution` through `DacpacRun` for Publish issues exactly `"<tool>" <args>` and succeeds with `Successfully executed action Publish on target database.` (`DacpacSuccessMessage`) exactly when it exits with 0 |
| `SqlActionProperties.SqlFileRunsOneCommand` | src/AzureSqlAction.ts:75-80 | `Execution` through `SqlFileRun` issues exactly `"<tool>" -S <server> -d <db> -U "<user>" -P "<pw>" -i "<file>" <extra>` and succeeds with `SqlFileSuccessMessage` exactly when it exits with 0 |
| `SqlActionProperties.SqlFileCommandText` | src/AzureSqlAction.ts:77 | the single-file command with its quoted `-i` argument written inline |
| `SqlActionProperties.FolderActionRunsFolder` | src/AzureSqlAction.ts:57-58 | `Execution`: the folder action type carries a folder payload and runs `FolderRun` |

## Left out

- Process spawning by `@actions/exec` is an exit-code oracle on the command line. A rejection is `ProcessFailed(command, exitCode)`. Neither the library's own error text, nor the processes' output, nor a process that cannot be started (treated as a non-zero exit) is modelled.
- `fs.readdirSync` is the input sequence of names. Entry kinds are not modelled, which matches the source, since it never checks them. The error raised for a missing or unreadable folder is not modelled.
- `AzureSqlActionHelper.getSqlPackagePath` and `getSqlCmdPath` are input strings. Their source is not part of this model, and so are their failures.
- `SqlConnectionStringBuilder` is only a record of the four string fields read here. Its parsing is not part of this model.
- `core.debug` output is left out. The `console.log` confirmation line is the success value of the run.
- The `async`/`await` machinery is left out. Every call is awaited in sequence, so there is no concurrency.
- Inputs whose payload does not match their action type are excluded by the subset type `WellTypedInputs`. The source casts to the branch's interface and relies on its callers for this. In JavaScript such inputs would interpolate `undefined` or fail inside the listing call.
- Enum codes are integers. Fractional numbers, `NaN` or non-numeric values in the `actionType` or `sqlpackageAction` field, which JavaScript would allow, are not modelled.
- NumberText.NatToString: the invalid-action text matches JavaScript only for integers of magnitude at most 2^53 - 1. Beyond that JavaScript prints rounded digits, and from 10^21 on it uses exponent form (`1e+21`); the model prints the exact decimal digits. Such action types are far outside any value the enum can take.
- The property that the user id, password, database and server each occur exactly once in a command line is not stated. It is false when one value contains another. The model states the exact templates instead (`SqlFileRunsOneCommand`, `SqlCmdCommandIsTokens`).
