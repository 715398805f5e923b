/** A token-level reference for the command lines the dispatcher renders:
    each argument is either written bare or wrapped in double quotes (or is
    a `/Name:"value"` switch of SqlPackage), and arguments are separated by
    single spaces. Each lemma states that a string template of the
    dispatcher is the rendering of one explicit token list, so that which
    argument is quoted can be read off the list. */
module CommandTokens {
  import opened AzureSql

  datatype Token =
    | Bare(text: string)
    | Quoted(text: string)
    | QuotedSwitch(name: string, value: string)

  function TokenText(t: Token): string {
    match t
    case Bare(s) => s
    case Quoted(s) => "\"" + s + "\""
    case QuotedSwitch(name, value) => name + ":\"" + value + "\""
  }

  /** The tokens joined by single spaces. */
  function Render(tokens: seq<Token>): string
    decreases |tokens|
  {
    if tokens == [] then ""
    else if |tokens| == 1 then TokenText(tokens[0])
    else TokenText(tokens[0]) + " " + Render(tokens[1..])
  }

  function PublishTokens(connectionString: string, dacpacPackage: string): seq<Token> {
    [Bare("/Action:Publish"),
     QuotedSwitch("/TargetConnectionString", connectionString),
     QuotedSwitch("/SourceFile", dacpacPackage)]
  }

  /** sqlcmd: tool quoted; server and database bare; user and password
      quoted; the `-i` argument as the branch gives it; then the
      interpolated additional arguments. */
  function SqlCmdTokens(sqlCmdPath: string, inputs: ActionInputs, inputFile: Token): seq<Token> {
    [Quoted(sqlCmdPath),
     Bare("-S"), Bare(inputs.serverName),
     Bare("-d"), Bare(inputs.connectionString.database),
     Bare("-U"), Quoted(inputs.connectionString.userId),
     Bare("-P"), Quoted(inputs.connectionString.password),
     Bare("-i"), inputFile,
     Bare(Interpolated(inputs.additionalArguments))]
  }

  lemma RenderCons(t: Token, rest: seq<Token>)
    requires rest != []
    ensures Render([t] + rest) == TokenText(t) + " " + Render(rest)
  {
    assert ([t] + rest)[1..] == rest;
  }

  lemma PublishArgumentsAreTokens(connectionString: string, dacpacPackage: string)
    ensures PublishArguments(connectionString, dacpacPackage) == Render(PublishTokens(connectionString, dacpacPackage))
  {
    var a, b, c := Bare("/Action:Publish"), QuotedSwitch("/TargetConnectionString", connectionString),
                   QuotedSwitch("/SourceFile", dacpacPackage);
    RenderCons(b, [c]);
    RenderCons(a, [b, c]);
    assert [a] + [b, c] == PublishTokens(connectionString, dacpacPackage);
    PublishArgumentsSplit(connectionString, dacpacPackage);
  }

  /** The Publish template cut at the token boundaries. */
  lemma PublishArgumentsSplit(connectionString: string, dacpacPackage: string)
    ensures PublishArguments(connectionString, dacpacPackage)
         == "/Action:Publish" + " " + ("/TargetConnectionString" + ":\"" + connectionString + "\"")
            + " " + ("/SourceFile" + ":\"" + dacpacPackage + "\"")
  {
    var head, middle := "/Action:Publish /TargetConnectionString:\"", "\" /SourceFile:\"";
    assert head == "/Action:Publish" + " " + "/TargetConnectionString" + ":\"";
    assert middle == "\"" + " " + "/SourceFile" + ":\"";
    PublishShape(head, middle, "/Action:Publish", "/TargetConnectionString", ":\"", "\"", "/SourceFile",
                 connectionString, dacpacPackage);
  }

  lemma PublishShape(head: string, middle: string, action: string, target: string, colon: string, quote: string,
                     source: string, c: string, p: string)
    requires head == action + " " + target + colon && middle == quote + " " + source + colon
    ensures head + c + middle + p + quote
         == action + " " + (target + colon + c + quote) + " " + (source + colon + p + quote)
  {
  }

  /** The SqlPackage arguments: the Publish tokens, then the additional
      arguments as one more bare token exactly when they are truthy. */
  lemma PackageArgumentsAreTokens(inputs: ActionInputs)
    requires inputs.payload.DacpacPayload?
    requires PackageActionOf(inputs.payload.sqlpackageAction) == Some(Publish)
    ensures
      var ts := PublishTokens(inputs.connectionString.connectionString, inputs.payload.dacpacPackage);
      PackageArguments(inputs)
        == Ok(Render(if Truthy(inputs.additionalArguments) then ts + [Bare(inputs.additionalArguments.value)] else ts))
  {
    var c, p := inputs.connectionString.connectionString, inputs.payload.dacpacPackage;
    var ts := PublishTokens(c, p);
    PublishArgumentsAreTokens(c, p);
    if Truthy(inputs.additionalArguments) {
      var x := Bare(inputs.additionalArguments.value);
      RenderAppend(ts, x);
    }
  }

  /** Appending one token appends a space and its text. */
  lemma {:induction false} RenderAppend(ts: seq<Token>, t: Token)
    requires ts != []
    ensures Render(ts + [t]) == Render(ts) + " " + TokenText(t)
    decreases |ts|
  {
    if |ts| == 1 {
      assert ts + [t] == [ts[0]] + [t];
      RenderCons(ts[0], [t]);
    } else {
      assert ts + [t] == [ts[0]] + (ts[1..] + [t]);
      RenderCons(ts[0], ts[1..] + [t]);
      RenderAppend(ts[1..], t);
      RenderCons(ts[0], ts[1..]);
      assert [ts[0]] + ts[1..] == ts;
    }
  }

  lemma DacpacCommandIsTokens(sqlPackagePath: string, args: string)
    ensures DacpacCommand(sqlPackagePath, args) == Render([Quoted(sqlPackagePath), Bare(args)])
  {
    RenderCons(Quoted(sqlPackagePath), [Bare(args)]);
  }

  lemma SqlCmdCommandIsTokens(sqlCmdPath: string, inputs: ActionInputs, inputFile: Token)
    ensures SqlCmdCommand(sqlCmdPath, inputs, TokenText(inputFile)) == Render(SqlCmdTokens(sqlCmdPath, inputs, inputFile))
  {
    var conn := inputs.connectionString;
    var extra := Interpolated(inputs.additionalArguments);
    var s11 := [Bare(extra)];
    var s10 := [inputFile] + s11;
    var s9 := [Bare("-i")] + s10;
    var s8 := [Quoted(conn.password)] + s9;
    var s7 := [Bare("-P")] + s8;
    var s6 := [Quoted(conn.userId)] + s7;
    var s5 := [Bare("-U")] + s6;
    var s4 := [Bare(conn.database)] + s5;
    var s3 := [Bare("-d")] + s4;
    var s2 := [Bare(inputs.serverName)] + s3;
    var s1 := [Bare("-S")] + s2;
    var s0 := [Quoted(sqlCmdPath)] + s1;
    assert s0 == SqlCmdTokens(sqlCmdPath, inputs, inputFile);
    RenderCons(inputFile, s11);
    RenderCons(Bare("-i"), s10);
    RenderCons(Quoted(conn.password), s9);
    RenderCons(Bare("-P"), s8);
    RenderCons(Quoted(conn.userId), s7);
    RenderCons(Bare("-U"), s6);
    RenderCons(Bare(conn.database), s5);
    RenderCons(Bare("-d"), s4);
    RenderCons(Bare(inputs.serverName), s3);
    RenderCons(Bare("-S"), s2);
    RenderCons(Quoted(sqlCmdPath), s1);
    SqlCmdCommandSplit(sqlCmdPath, inputs, TokenText(inputFile));
  }

  /** The sqlcmd template cut at the token boundaries. */
  lemma SqlCmdCommandSplit(sqlCmdPath: string, inputs: ActionInputs, inputFile: string)
    ensures
      var conn, q := inputs.connectionString, "\"";
      SqlCmdCommand(sqlCmdPath, inputs, inputFile)
        == (q + sqlCmdPath + q) + " " + ("-S" + " " + (inputs.serverName + " " + ("-d" + " " + (conn.database + " "
           + ("-U" + " " + ((q + conn.userId + q) + " " + ("-P" + " " + ((q + conn.password + q) + " "
           + ("-i" + " " + (inputFile + " " + Interpolated(inputs.additionalArguments)))))))))))
  {
    var q := "\"";
    var server, database, user, password := "\" -S ", " -d ", " -U \"", "\" -P \"";
    var input := "\" -i ";
    assert server == q + " " + "-S" + " ";
    assert database == " " + "-d" + " ";
    assert user == " " + "-U" + " " + q;
    assert password == q + " " + "-P" + " " + q;
    assert input == q + " " + "-i" + " ";
    SqlCmdShape(q, server, database, user, password, input, sqlCmdPath, inputs.serverName,
                inputs.connectionString.database, inputs.connectionString.userId, inputs.connectionString.password,
                inputFile, Interpolated(inputs.additionalArguments));
  }

  lemma SqlCmdShape(q: string, server: string, database: string, user: string, password: string, input: string,
                    tool: string, s: string, d: string, u: string, p: string, i: string, x: string)
    requires server == q + " " + "-S" + " "
    requires database == " " + "-d" + " "
    requires user == " " + "-U" + " " + q
    requires password == q + " " + "-P" + " " + q
    requires input == q + " " + "-i" + " "
    ensures q + tool + server + s + database + d + user + u + password + p + input + i + " " + x
         == (q + tool + q) + " " + ("-S" + " " + (s + " " + ("-d" + " " + (d + " "
            + ("-U" + " " + ((q + u + q) + " " + ("-P" + " " + ((q + p + q) + " "
            + ("-i" + " " + (i + " " + x))))))))))
  {
  }

  /** Single-file branch: the script path is a quoted token. */
  lemma SqlFileCommandIsTokens(sqlCmdPath: string, inputs: ActionInputs)
    requires inputs.payload.SqlPayload?
    ensures SqlFileCommand(sqlCmdPath, inputs) == Render(SqlCmdTokens(sqlCmdPath, inputs, Quoted(inputs.payload.sqlFile)))
  {
    SqlCmdCommandIsTokens(sqlCmdPath, inputs, Quoted(inputs.payload.sqlFile));
  }

  /** Folder branch: the script path is a bare token. */
  lemma FolderFileCommandIsTokens(sqlCmdPath: string, inputs: ActionInputs, filePath: string)
    ensures FolderFileCommand(sqlCmdPath, inputs, filePath) == Render(SqlCmdTokens(sqlCmdPath, inputs, Bare(filePath)))
  {
    SqlCmdCommandIsTokens(sqlCmdPath, inputs, Bare(filePath));
  }
}
