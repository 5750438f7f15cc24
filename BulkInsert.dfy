/**
 * SqlBulkTools.BulkInsert<T>: the fluent setters that configure an insert, the step
 * sequence that Commit and CommitAsync issue against the connection, and the catch
 * block that turns identity-related SqlExceptions into IdentityException.
 *
 * The helpers Commit calls (BulkOperationsHelper, AbstractOperation) are not part of
 * this model. What they compute and what the server answers are the fields of an
 * Environment; each call that reaches the connection, and each helper call the step
 * order depends on, is recorded as a Step in the log of the object that commits.
 */
module BulkInsert {
  import opened Wrappers

  // ---------------------------------------------------------------------------------
  // Configuration and exceptions

  /** SqlBulkTools.Enumeration.ColumnDirectionType. */
  datatype ColumnDirectionType = Input | InputOutput

  /** The strategy GetBulkInsertStrategyType picks for the row table. */
  datatype BulkInsertStrategyType = BulkCopy | MultiValueInsert

  /** One entry of SqlException.Errors. */
  datatype SqlError = SqlError(number: int, message: string)

  /** The exceptions Commit can let escape. */
  datatype Exception =
    | SqlException(errors: seq<SqlError>)
    | IdentityException(message: string)
    /** Any other exception type, known by its name; the catch block does not catch it. */
    | OtherException(typeName: string)

  // ---------------------------------------------------------------------------------
  // Reclassification of a SqlException

  /** Error 8102 (cannot update identity column) and 544 (explicit value for identity column). */
  predicate IsIdentityError(e: SqlError) {
    e.number == 8102 || e.number == 544
  }

  /** The index of the first identity error, scanning in index order; None if there is none. */
  function FirstIdentityError(errs: seq<SqlError>): (r: Option<nat>)
    ensures r.Some? ==> r.value < |errs| && IsIdentityError(errs[r.value])
    ensures r.Some? ==> forall j :: 0 <= j < r.value ==> !IsIdentityError(errs[j])
    ensures r.None? <==> forall j :: 0 <= j < |errs| ==> !IsIdentityError(errs[j])
  {
    if |errs| == 0 then None
    else if IsIdentityError(errs[0]) then Some(0)
    else
      match FirstIdentityError(errs[1..])
      case None => None
      case Some(i) => Some(i + 1)
  }

  /**
   * What escapes the catch block when e is thrown inside the try block: a SqlException
   * with an identity error becomes an IdentityException carrying the message of the
   * first such error; every other exception is rethrown unchanged.
   */
  function Reclassify(e: Exception): (r: Exception)
    ensures r.IdentityException? && r != e <==>
      e.SqlException? && exists i :: 0 <= i < |e.errors| && IsIdentityError(e.errors[i])
    ensures e.SqlException? && r != e ==>
      exists i :: 0 <= i < |e.errors| && IsIdentityError(e.errors[i]) && r == IdentityException(e.errors[i].message)
        && forall j :: 0 <= j < i ==> !IsIdentityError(e.errors[j])
    ensures !e.SqlException? ==> r == e
  {
    match e
    case SqlException(errs) =>
      (match FirstIdentityError(errs)
       case Some(i) => IdentityException(errs[i].message)
       case None => e)
    case _ => e
  }

  /**
   * The catch clause for a SqlException carrying errs: scans errs by index and throws at
   * the first identity error, or rethrows the original exception.
   */
  method CatchSqlException(errs: seq<SqlError>) returns (thrown: Exception)
    ensures thrown == Reclassify(SqlException(errs))
  {
    var i := 0;
    while i < |errs|
      invariant 0 <= i <= |errs|
      invariant forall j :: 0 <= j < i ==> !IsIdentityError(errs[j])
    {
      if errs[i].number == 8102 || errs[i].number == 544 {
        return IdentityException(errs[i].message);
      }
      i := i + 1;
    }
    return SqlException(errs);
  }

  // ---------------------------------------------------------------------------------
  // Steps and their environment

  datatype IndexAction = Disable | Rebuild

  /** The table an insert query built by BuildInsertQueryFromDataTable writes to. */
  datatype InsertTarget =
    | TempTable(keepIdentity: bool, keepInternalId: bool)
    | DestinationTable

  /** A parameter of a generated insert query. */
  datatype SqlParameter = SqlParameter(name: string, value: string)

  /** The result of BuildInsertQueryFromDataTable: a query and its parameters. */
  datatype InsertSetup = InsertSetup(insertQuery: string, parameters: seq<SqlParameter>)

  /** What a command executed on the connection is for; the command itself only has text. */
  datatype Purpose =
    | IndexManagement(action: IndexAction)
    | CreateTempTable
    | InsertRows(target: InsertTarget)
    | InsertIntoStagingTable

  datatype Step =
    | CreateDataTable
    | ConvertListToDataTable
    | DoColumnMappings
    | OpenConnection
    | ValidateMsSqlVersion
    | GetDatabaseSchema
    /** SqlCommand.ExecuteNonQuery with the command's text and parameters at that point. */
    | ExecuteNonQuery(purpose: Purpose, commandText: string, parameters: seq<SqlParameter>)
    | InsertToTmpTableWithBulkCopy
    /** SqlBulkCopy.WriteToServer into the destination table. */
    | BulkCopyToDestination
    | LoadFromTmpOutputTable

  /** The step that throws, and what it throws. */
  datatype Fault = Fault(step: Step, exception: Exception)

  /**
   * Everything Commit learns from the connection and from the helpers not modelled here.
   * `fault`, when present, names the step that throws the first time it is attempted.
   */
  datatype Environment = Environment(
    connectionClosed: bool,
    schemaFound: bool,
    strategy: BulkInsertStrategyType,
    rowCount: nat,
    indexManagementCmd: IndexAction -> string,
    setIdentityCmd: bool -> string,
    createTableQuery: string,
    insertSetup: InsertTarget -> InsertSetup,
    insertIntoStagingTableCmd: string,
    fault: Option<Fault>)

  /** The three ways the rows can reach the destination. */
  datatype DataPath = StagingTable | MultiValueToDestination | BulkCopyToDestinationTable

  // ---------------------------------------------------------------------------------
  // The plan: the steps of a run in which nothing throws

  function Preamble(env: Environment): seq<Step> {
    [CreateDataTable, ConvertListToDataTable, DoColumnMappings]
    + (if env.connectionClosed then [OpenConnection] else [])
    + [ValidateMsSqlVersion, GetDatabaseSchema]
  }

  function IndexStep(disable: bool, action: IndexAction, env: Environment): seq<Step> {
    if disable then [ExecuteNonQuery(IndexManagement(action), env.indexManagementCmd(action), [])] else []
  }

  function ChosenPath(outputIdentity: ColumnDirectionType, env: Environment): DataPath {
    if outputIdentity == InputOutput && env.schemaFound then StagingTable
    else if env.strategy == MultiValueInsert then MultiValueToDestination
    else BulkCopyToDestinationTable
  }

  /** The query inserting the rows into the temp table, keeping identity and internal id. */
  function TempTableInsert(env: Environment): InsertSetup {
    env.insertSetup(TempTable(keepIdentity := true, keepInternalId := true))
  }

  /** The single command of the multi-value insert into the destination table. */
  function DestinationInsertText(env: Environment): string {
    env.setIdentityCmd(true) + env.insertSetup(DestinationTable).insertQuery + " " + env.setIdentityCmd(false)
  }

  function DataSteps(path: DataPath, env: Environment): seq<Step> {
    match path
    case StagingTable =>
      [ExecuteNonQuery(CreateTempTable, env.createTableQuery, [])]
      + (if env.strategy == MultiValueInsert
         then [ExecuteNonQuery(InsertRows(TempTable(true, true)), TempTableInsert(env).insertQuery, TempTableInsert(env).parameters)]
         else [InsertToTmpTableWithBulkCopy])
      + [ExecuteNonQuery(InsertIntoStagingTable, env.insertIntoStagingTableCmd, []), LoadFromTmpOutputTable]
    case MultiValueToDestination =>
      [ExecuteNonQuery(InsertRows(DestinationTable), DestinationInsertText(env), env.insertSetup(DestinationTable).parameters)]
    case BulkCopyToDestinationTable =>
      [BulkCopyToDestination]
  }

  function Plan(listEmpty: bool, disable: bool, outputIdentity: ColumnDirectionType, env: Environment): seq<Step> {
    if listEmpty then []
    else
      Preamble(env) + (IndexStep(disable, Disable, env) + (DataSteps(ChosenPath(outputIdentity, env), env)
      + IndexStep(disable, Rebuild, env)))
  }

  // ---------------------------------------------------------------------------------
  // Running a plan when a step may throw

  predicate Throws(f: Option<Fault>, s: Step) {
    f.Some? && f.value.step == s
  }

  /** The steps attempted: the plan up to and including the first step that throws. */
  function Issued(plan: seq<Step>, f: Option<Fault>): seq<Step> {
    if |plan| == 0 then []
    else if Throws(f, plan[0]) then [plan[0]]
    else [plan[0]] + Issued(plan[1..], f)
  }

  /** The exception escaping from the try block, if some step of the plan throws. */
  function Thrown(plan: seq<Step>, f: Option<Fault>): Option<Exception> {
    if |plan| == 0 then None
    else if Throws(f, plan[0]) then Some(f.value.exception)
    else Thrown(plan[1..], f)
  }

  datatype CommitResult = Returned(affectedRows: nat) | Threw(exception: Exception)

  /** What Commit returns or throws. */
  function Outcome(listEmpty: bool, disable: bool, outputIdentity: ColumnDirectionType, env: Environment): CommitResult {
    if listEmpty then Returned(0)
    else
      match Thrown(Plan(listEmpty, disable, outputIdentity, env), env.fault)
      case Some(e) => Threw(Reclassify(e))
      case None => Returned(env.rowCount)
  }

  // ---------------------------------------------------------------------------------
  // The command object

  /** The SqlCommand Commit creates from the connection; only its text and parameters matter. */
  class SqlCommand {
    var commandText: string
    var parameters: seq<SqlParameter>

    constructor ()
      ensures commandText == [] && parameters == []
    {
      commandText := [];
      parameters := [];
    }

    method SetText(text: string)
      modifies this
      ensures commandText == text && parameters == old(parameters)
    {
      commandText := text;
    }

    /** `CommandText += text`. */
    method AppendText(text: string)
      modifies this
      ensures commandText == old(commandText) + text && parameters == old(parameters)
    {
      commandText := commandText + text;
    }

    /** `Parameters.AddRange(ps)`. */
    method AddRange(ps: seq<SqlParameter>)
      modifies this
      ensures parameters == old(parameters) + ps && commandText == old(commandText)
    {
      parameters := parameters + ps;
    }

    /** `Parameters.Clear()`. */
    method Clear()
      modifies this
      ensures parameters == [] && commandText == old(commandText)
    {
      parameters := [];
    }
  }

  // ---------------------------------------------------------------------------------
  // The operation

  class BulkInsert<T> {
    /** The rows to insert (`_list`). */
    const list: seq<T>
    /** `_disableAllIndexes`. */
    var disableAllIndexes: bool
    /** `_outputIdentity`. */
    var outputIdentity: ColumnDirectionType
    /** `_identityColumn`, recorded by SetIdentityColumn. */
    var identityColumn: Option<string>
    /** The steps issued so far by Commit and CommitAsync, oldest first. */
    var log: seq<Step>

    constructor (list: seq<T>)
      ensures this.list == list && !disableAllIndexes && outputIdentity == Input
      ensures identityColumn == None && log == []
    {
      this.list := list;
      disableAllIndexes := false;
      outputIdentity := Input;
      identityColumn := None;
      log := [];
    }

    /** Sets the identity column; its direction stays as it was. */
    method SetIdentityColumn(columnName: string) returns (r: BulkInsert<T>)
      modifies this
      ensures r == this && identityColumn == Some(columnName)
      ensures disableAllIndexes == old(disableAllIndexes) && outputIdentity == old(outputIdentity) && log == old(log)
    {
      identityColumn := Some(columnName);
      r := this;
    }

    /** Sets the identity column and its direction. */
    method SetIdentityColumnWithDirection(columnName: string, direction: ColumnDirectionType) returns (r: BulkInsert<T>)
      modifies this
      ensures r == this && identityColumn == Some(columnName) && outputIdentity == direction
      ensures disableAllIndexes == old(disableAllIndexes) && log == old(log)
    {
      identityColumn := Some(columnName);
      outputIdentity := direction;
      r := this;
    }

    /** Asks Commit to disable the non-clustered indexes around the insert. */
    method TmpDisableAllNonClusteredIndexes() returns (r: BulkInsert<T>)
      modifies this
      ensures r == this && disableAllIndexes
      ensures outputIdentity == old(outputIdentity) && identityColumn == old(identityColumn) && log == old(log)
    {
      disableAllIndexes := true;
      r := this;
    }

    /**
     * Attempts s, the first step of what remains of a plan: records it and reports whether
     * it threw. Whatever the plan still has to add to the log is then the rest of it, or
     * nothing.
     */
    method Perform(s: Step, ghost rest: seq<Step>, f: Option<Fault>) returns (thrown: Option<Exception>)
      requires |rest| > 0 && rest[0] == s
      modifies this`log
      ensures log == old(log) + [s]
      ensures thrown.Some? ==> old(log) + Issued(rest, f) == log && Thrown(rest, f) == thrown
      ensures thrown.None? ==> old(log) + Issued(rest, f) == log + Issued(rest[1..], f)
      ensures thrown.None? ==> Thrown(rest, f) == Thrown(rest[1..], f)
      ensures thrown.None? && |rest| == 1 ==> old(log) + Issued(rest, f) == log && Thrown(rest, f) == None
    {
      log := log + [s];
      if f.Some? && f.value.step == s {
        thrown := Some(f.value.exception);
      } else {
        thrown := None;
        assert old(log) + ([s] + Issued(rest[1..], f)) == log + Issued(rest[1..], f);
        if |rest| == 1 {
          assert rest[1..] == [];
        }
      }
    }

    /** Executes the command as it stands. */
    method Execute(command: SqlCommand, purpose: Purpose, ghost rest: seq<Step>, f: Option<Fault>) returns (thrown: Option<Exception>)
      requires |rest| > 0 && rest[0] == ExecuteNonQuery(purpose, command.commandText, command.parameters)
      modifies this`log
      ensures log == old(log) + [rest[0]]
      ensures thrown.Some? ==> old(log) + Issued(rest, f) == log && Thrown(rest, f) == thrown
      ensures thrown.None? ==> old(log) + Issued(rest, f) == log + Issued(rest[1..], f)
      ensures thrown.None? ==> Thrown(rest, f) == Thrown(rest[1..], f)
      ensures thrown.None? && |rest| == 1 ==> old(log) + Issued(rest, f) == log && Thrown(rest, f) == None
    {
      thrown := Perform(ExecuteNonQuery(purpose, command.commandText, command.parameters), rest, f);
    }

    /** Materialises the rows, maps the columns, opens the connection and fetches the schema. */
    method RunPreamble(env: Environment) returns (thrown: Option<Exception>)
      modifies this`log
      ensures log == old(log) + Issued(Preamble(env), env.fault)
      ensures thrown == Thrown(Preamble(env), env.fault)
    {
      ghost var rest := Preamble(env);
      thrown := Perform(CreateDataTable, rest, env.fault);
      if thrown.Some? { return; }
      rest := rest[1..];
      thrown := Perform(ConvertListToDataTable, rest, env.fault);
      if thrown.Some? { return; }
      rest := rest[1..];
      thrown := Perform(DoColumnMappings, rest, env.fault);
      if thrown.Some? { return; }
      rest := rest[1..];
      if env.connectionClosed {
        thrown := Perform(OpenConnection, rest, env.fault);
        if thrown.Some? { return; }
        rest := rest[1..];
      }
      thrown := Perform(ValidateMsSqlVersion, rest, env.fault);
      if thrown.Some? { return; }
      rest := rest[1..];
      thrown := Perform(GetDatabaseSchema, rest, env.fault);
    }

    /** Disables or rebuilds the indexes if asked to; the command has no parameters then. */
    method RunIndexStep(command: SqlCommand, action: IndexAction, env: Environment) returns (thrown: Option<Exception>)
      requires command.parameters == []
      modifies this`log, command
      ensures log == old(log) + Issued(IndexStep(disableAllIndexes, action, env), env.fault)
      ensures thrown == Thrown(IndexStep(disableAllIndexes, action, env), env.fault)
      ensures command.parameters == []
    {
      thrown := None;
      if disableAllIndexes {
        command.SetText(env.indexManagementCmd(action));
        thrown := Execute(command, IndexManagement(action), IndexStep(disableAllIndexes, action, env), env.fault);
      }
    }

    /** The output-identity path through the temp table. */
    method RunStagingPath(command: SqlCommand, env: Environment) returns (thrown: Option<Exception>)
      requires command.parameters == []
      modifies this`log, command
      ensures log == old(log) + Issued(DataSteps(StagingTable, env), env.fault)
      ensures thrown == Thrown(DataSteps(StagingTable, env), env.fault)
      ensures thrown.None? ==> command.parameters == []
    {
      ghost var rest := DataSteps(StagingTable, env);
      command.SetText(env.createTableQuery);
      thrown := Execute(command, CreateTempTable, rest, env.fault);
      if thrown.Some? { return; }
      rest := rest[1..];
      if env.strategy == MultiValueInsert {
        var tempTableSetup := env.insertSetup(TempTable(keepIdentity := true, keepInternalId := true));
        command.SetText(tempTableSetup.insertQuery);
        command.AddRange(tempTableSetup.parameters);
        thrown := Execute(command, InsertRows(TempTable(true, true)), rest, env.fault);
        if thrown.Some? { return; }
        command.Clear();
      } else {
        thrown := Perform(InsertToTmpTableWithBulkCopy, rest, env.fault);
        if thrown.Some? { return; }
      }
      rest := rest[1..];
      command.SetText(env.insertIntoStagingTableCmd);
      thrown := Execute(command, InsertIntoStagingTable, rest, env.fault);
      if thrown.Some? { return; }
      rest := rest[1..];
      thrown := Perform(LoadFromTmpOutputTable, rest, env.fault);
    }

    /** The multi-value insert straight into the destination, bracketed by SET IDENTITY_INSERT. */
    method RunDestinationInsert(command: SqlCommand, env: Environment) returns (thrown: Option<Exception>)
      requires command.parameters == []
      modifies this`log, command
      ensures log == old(log) + Issued(DataSteps(MultiValueToDestination, env), env.fault)
      ensures thrown == Thrown(DataSteps(MultiValueToDestination, env), env.fault)
      ensures thrown.None? ==> command.parameters == []
    {
      var tableSetup := env.insertSetup(DestinationTable);
      command.SetText(env.setIdentityCmd(true));
      command.AppendText(tableSetup.insertQuery);
      command.AppendText(" " + env.setIdentityCmd(false));
      command.AddRange(tableSetup.parameters);
      assert command.commandText == DestinationInsertText(env);
      thrown := Execute(command, InsertRows(DestinationTable), DataSteps(MultiValueToDestination, env), env.fault);
      if thrown.None? {
        command.Clear();
      }
    }

    /** The bulk copy straight into the destination. */
    method RunBulkCopy(env: Environment) returns (thrown: Option<Exception>)
      modifies this`log
      ensures log == old(log) + Issued(DataSteps(BulkCopyToDestinationTable, env), env.fault)
      ensures thrown == Thrown(DataSteps(BulkCopyToDestinationTable, env), env.fault)
    {
      thrown := Perform(BulkCopyToDestination, DataSteps(BulkCopyToDestinationTable, env), env.fault);
    }

    /** Exactly one of the three data paths, chosen by the identity direction, the schema and the strategy. */
    method RunDataPath(command: SqlCommand, env: Environment) returns (thrown: Option<Exception>)
      requires command.parameters == []
      modifies this`log, command
      ensures log == old(log) + Issued(DataSteps(ChosenPath(outputIdentity, env), env), env.fault)
      ensures thrown == Thrown(DataSteps(ChosenPath(outputIdentity, env), env), env.fault)
      ensures thrown.None? ==> command.parameters == []
    {
      if outputIdentity == InputOutput && env.schemaFound {
        thrown := RunStagingPath(command, env);
      } else if env.strategy == MultiValueInsert {
        thrown := RunDestinationInsert(command, env);
      } else {
        thrown := RunBulkCopy(env);
      }
    }

    /** The try block of Commit for a non-empty list: the steps of the plan until one throws. */
    method RunSteps(env: Environment) returns (thrown: Option<Exception>)
      modifies this`log
      ensures log == old(log) + Issued(Plan(false, disableAllIndexes, outputIdentity, env), env.fault)
      ensures thrown == Thrown(Plan(false, disableAllIndexes, outputIdentity, env), env.fault)
    {
      ghost var f := env.fault;
      ghost var preamble := Preamble(env);
      ghost var disable := IndexStep(disableAllIndexes, Disable, env);
      ghost var data := DataSteps(ChosenPath(outputIdentity, env), env);
      ghost var rebuild := IndexStep(disableAllIndexes, Rebuild, env);

      // Each segment runs only if the previous one did not throw.
      ghost var before := log;
      thrown := RunPreamble(env);
      Advance(before, log, preamble, disable + (data + rebuild), f);
      if thrown.None? {
        var command := new SqlCommand();
        before := log;
        thrown := RunIndexStep(command, Disable, env);
        Advance(before, log, disable, data + rebuild, f);
        if thrown.None? {
          before := log;
          thrown := RunDataPath(command, env);
          Advance(before, log, data, rebuild, f);
          if thrown.None? {
            before := log;
            thrown := RunIndexStep(command, Rebuild, env);
            Advance(before, log, rebuild, [], f);
            assert rebuild + [] == rebuild;
            assert log + Issued([], f) == log;
          }
        }
      }
    }

    /**
     * Commit: returns 0 at once for an empty list; otherwise issues the steps of Plan in
     * order until one throws, and then returns the row count or throws what the catch
     * block makes of the exception.
     */
    method Commit(env: Environment) returns (r: CommitResult)
      modifies this`log
      ensures log == old(log) + Issued(Plan(|list| == 0, disableAllIndexes, outputIdentity, env), env.fault)
      ensures r == Outcome(|list| == 0, disableAllIndexes, outputIdentity, env)
    {
      if |list| == 0 {
        assert log + Issued([], env.fault) == log;
        return Returned(0);
      }
      var thrown := RunSteps(env);
      if thrown.Some? {
        r := Catch(thrown.value);
      } else {
        r := Returned(env.rowCount);
      }
    }

    /** CommitAsync: the same steps as Commit; the awaits change nothing in the order. */
    method CommitAsync(env: Environment) returns (r: CommitResult)
      modifies this`log
      ensures log == old(log) + Issued(Plan(|list| == 0, disableAllIndexes, outputIdentity, env), env.fault)
      ensures r == Outcome(|list| == 0, disableAllIndexes, outputIdentity, env)
    {
      r := Commit(env);
    }
  }

  /** The catch clause: only a SqlException is caught and inspected. */
  method Catch(e: Exception) returns (thrown: CommitResult)
    ensures thrown == Threw(Reclassify(e))
  {
    if e.SqlException? {
      var reclassified := CatchSqlException(e.errors);
      return Threw(reclassified);
    }
    return Threw(e);
  }

  // ---------------------------------------------------------------------------------
  // How Issued and Thrown split over a plan

  /** Running a + b runs a, and then b if nothing in a threw. */
  lemma {:induction false} IssuedAppend(a: seq<Step>, b: seq<Step>, f: Option<Fault>)
    ensures Thrown(a, f).Some? ==> Issued(a + b, f) == Issued(a, f) && Thrown(a + b, f) == Thrown(a, f)
    ensures Thrown(a, f).None? ==> Issued(a + b, f) == a + Issued(b, f) && Thrown(a + b, f) == Thrown(b, f)
    decreases |a|
  {
    if |a| > 0 {
      assert (a + b)[0] == a[0];
      assert (a + b)[1..] == a[1..] + b;
      IssuedAppend(a[1..], b, f);
    } else {
      assert a + b == b;
    }
  }

  /** When nothing in a throws, it is issued whole. */
  lemma {:induction false} IssuedWhole(a: seq<Step>, f: Option<Fault>)
    ensures Thrown(a, f).None? ==> Issued(a, f) == a
    decreases |a|
  {
    if |a| > 0 {
      IssuedWhole(a[1..], f);
      assert [a[0]] + a[1..] == a;
    }
  }

  /**
   * A segment issued from log `before` up to log `after`, followed by `more`: what the
   * whole still adds to the log after the segment is what `more` adds, or nothing if the
   * segment threw.
   */
  lemma Advance(before: seq<Step>, after: seq<Step>, seg: seq<Step>, more: seq<Step>, f: Option<Fault>)
    requires after == before + Issued(seg, f)
    ensures Thrown(seg, f).Some? ==> before + Issued(seg + more, f) == after && Thrown(seg + more, f) == Thrown(seg, f)
    ensures Thrown(seg, f).None? ==>
      before + Issued(seg + more, f) == after + Issued(more, f) && Thrown(seg + more, f) == Thrown(more, f)
  {
    IssuedAppend(seg, more, f);
    IssuedWhole(seg, f);
    if Thrown(seg, f).None? {
      assert before + (seg + Issued(more, f)) == (before + seg) + Issued(more, f);
    }
  }
}
