/**
 * What the step sequence of BulkInsert.Commit guarantees: what an empty list does,
 * which data path runs, the order of the steps (also when a step throws), the index
 * bracketing, the parameters of the commands and the value returned.
 */
module BulkInsertProperties {
  import opened Wrappers
  import opened BulkInsert

  // ---------------------------------------------------------------------------------
  // Classifying steps

  /** The data path a step belongs to; None for the preamble and the index commands. */
  function PathOf(s: Step): Option<DataPath> {
    match s
    case ExecuteNonQuery(purpose, _, _) =>
      (match purpose
       case CreateTempTable => Some(StagingTable)
       case InsertRows(TempTable(_, _)) => Some(StagingTable)
       case InsertRows(DestinationTable) => Some(MultiValueToDestination)
       case InsertIntoStagingTable => Some(StagingTable)
       case IndexManagement(_) => None)
    case InsertToTmpTableWithBulkCopy => Some(StagingTable)
    case LoadFromTmpOutputTable => Some(StagingTable)
    case BulkCopyToDestination => Some(BulkCopyToDestinationTable)
    case _ => None
  }

  predicate IsDataStep(s: Step) {
    PathOf(s).Some?
  }

  predicate IsIndexStep(s: Step) {
    s.ExecuteNonQuery? && s.purpose.IndexManagement?
  }

  predicate IsDisable(s: Step) {
    s.ExecuteNonQuery? && s.purpose == IndexManagement(Disable)
  }

  predicate IsRebuild(s: Step) {
    s.ExecuteNonQuery? && s.purpose == IndexManagement(Rebuild)
  }

  predicate IsConversion(s: Step) {
    s == ConvertListToDataTable
  }

  predicate IsColumnMapping(s: Step) {
    s == DoColumnMappings
  }

  predicate IsVersionCheck(s: Step) {
    s == ValidateMsSqlVersion
  }

  predicate IsSchemaFetch(s: Step) {
    s == GetDatabaseSchema
  }

  /** The steps of t that satisfy keep, in their order in t. */
  function Only(t: seq<Step>, keep: Step -> bool): (r: seq<Step>)
    ensures forall s :: s in r ==> s in t && keep(s)
  {
    if |t| == 0 then []
    else (if keep(t[0]) then [t[0]] else []) + Only(t[1..], keep)
  }

  /** Every step satisfying p comes before every step satisfying q. */
  ghost predicate AllBefore(t: seq<Step>, p: Step -> bool, q: Step -> bool) {
    forall i, j :: 0 <= i < |t| && 0 <= j < |t| && p(t[i]) && q(t[j]) ==> i < j
  }

  // ---------------------------------------------------------------------------------
  // General facts about Only, AllBefore and Issued

  lemma {:induction false} OnlyAppend(a: seq<Step>, b: seq<Step>, keep: Step -> bool)
    ensures Only(a + b, keep) == Only(a, keep) + Only(b, keep)
    decreases |a|
  {
    if |a| == 0 {
      assert a + b == b;
    } else {
      assert (a + b)[0] == a[0];
      assert (a + b)[1..] == a[1..] + b;
      OnlyAppend(a[1..], b, keep);
    }
  }

  lemma {:induction false} OnlyNone(t: seq<Step>, keep: Step -> bool)
    requires forall i :: 0 <= i < |t| ==> !keep(t[i])
    ensures Only(t, keep) == []
    decreases |t|
  {
    if |t| > 0 {
      OnlyNone(t[1..], keep);
    }
  }

  lemma {:induction false} OnlyAll(t: seq<Step>, keep: Step -> bool)
    requires forall i :: 0 <= i < |t| ==> keep(t[i])
    ensures Only(t, keep) == t
    decreases |t|
  {
    if |t| > 0 {
      OnlyAll(t[1..], keep);
      assert [t[0]] + t[1..] == t;
    }
  }

  /** If all p-steps lie in a and all q-steps in b, every p-step of a + b precedes every q-step. */
  lemma AllBeforeAppend(a: seq<Step>, b: seq<Step>, p: Step -> bool, q: Step -> bool)
    requires forall i :: 0 <= i < |a| ==> !q(a[i])
    requires forall j :: 0 <= j < |b| ==> !p(b[j])
    ensures AllBefore(a + b, p, q)
  {
  }

  lemma AllBeforePrefix(t: seq<Step>, k: nat, p: Step -> bool, q: Step -> bool)
    requires k <= |t| && AllBefore(t, p, q)
    ensures AllBefore(t[..k], p, q)
  {
    forall i, j | 0 <= i < k && 0 <= j < k && p(t[..k][i]) && q(t[..k][j])
      ensures i < j
    {
      assert t[..k][i] == t[i] && t[..k][j] == t[j];
    }
  }

  /** The steps issued when a step throws are a prefix of the plan, ending at that step. */
  lemma {:induction false} IssuedIsPrefix(plan: seq<Step>, f: Option<Fault>)
    ensures |Issued(plan, f)| <= |plan| && Issued(plan, f) == plan[..|Issued(plan, f)|]
    ensures Thrown(plan, f).None? ==> Issued(plan, f) == plan
    ensures Thrown(plan, f).Some? ==>
      |Issued(plan, f)| > 0 && Throws(f, Issued(plan, f)[|Issued(plan, f)| - 1])
      && forall i :: 0 <= i < |Issued(plan, f)| - 1 ==> !Throws(f, plan[i])
    decreases |plan|
  {
    if |plan| > 0 {
      IssuedIsPrefix(plan[1..], f);
      if !Throws(f, plan[0]) {
        var rest := Issued(plan[1..], f);
        assert Issued(plan, f) == [plan[0]] + rest;
        assert plan == [plan[0]] + plan[1..];
        if Thrown(plan, f).Some? {
          forall i | 0 <= i < |Issued(plan, f)| - 1
            ensures !Throws(f, plan[i])
          {
            if i > 0 {
              assert plan[i] == plan[1..][i - 1];
            }
          }
        }
      }
    }
  }

  // ---------------------------------------------------------------------------------
  // The segments of the plan

  lemma PreambleHasNoDataOrIndexStep(env: Environment)
    ensures forall i :: 0 <= i < |Preamble(env)| ==> !IsDataStep(Preamble(env)[i]) && !IsIndexStep(Preamble(env)[i])
  {
  }

  lemma DataStepsAreData(path: DataPath, env: Environment)
    ensures |DataSteps(path, env)| > 0
    ensures forall i :: 0 <= i < |DataSteps(path, env)| ==> PathOf(DataSteps(path, env)[i]) == Some(path)
    ensures forall i :: 0 <= i < |DataSteps(path, env)| ==> !IsIndexStep(DataSteps(path, env)[i])
  {
  }

  lemma IndexStepIsIndex(disable: bool, action: IndexAction, env: Environment)
    ensures forall i :: 0 <= i < |IndexStep(disable, action, env)| ==>
      !IsDataStep(IndexStep(disable, action, env)[i]) && IsIndexStep(IndexStep(disable, action, env)[i])
  {
  }

  // ---------------------------------------------------------------------------------
  // Properties of Commit

  /** An empty list: nothing is issued, the connection is not even opened, and 0 is returned. */
  lemma EmptyListDoesNothing(disable: bool, outputIdentity: ColumnDirectionType, env: Environment)
    ensures Issued(Plan(true, disable, outputIdentity, env), env.fault) == []
    ensures Outcome(true, disable, outputIdentity, env) == Returned(0)
  {
  }

  /**
   * The data steps of the plan are exactly those of the chosen path, in order: the
   * other two paths issue nothing.
   */
  lemma {:induction false} DataStepsOfPlan(disable: bool, outputIdentity: ColumnDirectionType, env: Environment)
    ensures Only(Plan(false, disable, outputIdentity, env), IsDataStep) == DataSteps(ChosenPath(outputIdentity, env), env)
  {
    var data := DataSteps(ChosenPath(outputIdentity, env), env);
    PreambleHasNoDataOrIndexStep(env);
    IndexStepIsIndex(disable, Disable, env);
    IndexStepIsIndex(disable, Rebuild, env);
    DataStepsAreData(ChosenPath(outputIdentity, env), env);
    OnlyNone(Preamble(env), IsDataStep);
    OnlyNone(IndexStep(disable, Disable, env), IsDataStep);
    OnlyNone(IndexStep(disable, Rebuild, env), IsDataStep);
    OnlyAll(data, IsDataStep);
    OnlyAppend(data, IndexStep(disable, Rebuild, env), IsDataStep);
    OnlyAppend(IndexStep(disable, Disable, env), data + IndexStep(disable, Rebuild, env), IsDataStep);
    OnlyAppend(Preamble(env), IndexStep(disable, Disable, env) + (data + IndexStep(disable, Rebuild, env)), IsDataStep);
  }

  /**
   * Exactly one data path runs: the staging path iff the identity is InputOutput and the
   * schema was found, otherwise the multi-value insert iff that is the strategy,
   * otherwise the bulk copy to the destination.
   */
  lemma ExactlyOneDataPath(disable: bool, outputIdentity: ColumnDirectionType, env: Environment, path: DataPath)
    ensures (exists i :: 0 <= i < |Plan(false, disable, outputIdentity, env)|
                && PathOf(Plan(false, disable, outputIdentity, env)[i]) == Some(path))
      <==> match path
           case StagingTable => outputIdentity == InputOutput && env.schemaFound
           case MultiValueToDestination =>
             !(outputIdentity == InputOutput && env.schemaFound) && env.strategy == MultiValueInsert
           case BulkCopyToDestinationTable =>
             !(outputIdentity == InputOutput && env.schemaFound) && env.strategy == BulkCopy
  {
    var plan := Plan(false, disable, outputIdentity, env);
    var chosen := ChosenPath(outputIdentity, env);
    DataStepsOfPlan(disable, outputIdentity, env);
    DataStepsAreData(chosen, env);
    var data := Only(plan, IsDataStep);
    if exists i :: 0 <= i < |plan| && PathOf(plan[i]) == Some(path) {
      var i :| 0 <= i < |plan| && PathOf(plan[i]) == Some(path);
      OnlyContains(plan, IsDataStep, i);
      var k :| 0 <= k < |data| && data[k] == plan[i];
      assert path == chosen;
    } else {
      assert data[0] in plan;
      var i :| 0 <= i < |plan| && plan[i] == data[0];
      assert path != chosen;
    }
  }

  lemma {:induction false} OnlyContains(t: seq<Step>, keep: Step -> bool, i: nat)
    requires i < |t| && keep(t[i])
    ensures exists k :: 0 <= k < |Only(t, keep)| && Only(t, keep)[k] == t[i]
    decreases |t|
  {
    if i == 0 {
      assert Only(t, keep)[0] == t[0];
    } else {
      OnlyContains(t[1..], keep, i - 1);
      var k :| 0 <= k < |Only(t[1..], keep)| && Only(t[1..], keep)[k] == t[1..][i - 1];
      var head := if keep(t[0]) then [t[0]] else [];
      assert Only(t, keep)[|head| + k] == t[i];
    }
  }

  /**
   * The staging path creates the temp table, fills it (by a multi-value insert that keeps
   * identity and internal id, or by a bulk copy), inserts into the destination with
   * output, and writes the identities back, in this order.
   */
  lemma StagingPathOrder(disable: bool, outputIdentity: ColumnDirectionType, env: Environment)
    requires outputIdentity == InputOutput && env.schemaFound
    ensures Only(Plan(false, disable, outputIdentity, env), IsDataStep) ==
      [ ExecuteNonQuery(CreateTempTable, env.createTableQuery, []),
        if env.strategy == MultiValueInsert
        then ExecuteNonQuery(InsertRows(TempTable(keepIdentity := true, keepInternalId := true)),
                             env.insertSetup(TempTable(true, true)).insertQuery,
                             env.insertSetup(TempTable(true, true)).parameters)
        else InsertToTmpTableWithBulkCopy,
        ExecuteNonQuery(InsertIntoStagingTable, env.insertIntoStagingTableCmd, []),
        LoadFromTmpOutputTable ]
  {
    DataStepsOfPlan(disable, outputIdentity, env);
  }

  /**
   * The multi-value insert into the destination is one command: SET IDENTITY_INSERT ON,
   * the insert query, a space and SET IDENTITY_INSERT OFF, with the query's parameters.
   */
  lemma DestinationInsertCommand(disable: bool, outputIdentity: ColumnDirectionType, env: Environment)
    requires !(outputIdentity == InputOutput && env.schemaFound) && env.strategy == MultiValueInsert
    ensures Only(Plan(false, disable, outputIdentity, env), IsDataStep) ==
      [ExecuteNonQuery(InsertRows(DestinationTable),
                       env.setIdentityCmd(true) + env.insertSetup(DestinationTable).insertQuery + " " + env.setIdentityCmd(false),
                       env.insertSetup(DestinationTable).parameters)]
  {
    DataStepsOfPlan(disable, outputIdentity, env);
  }

  /** Parameters are cleared after each insert: every other command runs without any. */
  lemma ParametersOnlyOnInserts(disable: bool, outputIdentity: ColumnDirectionType, env: Environment)
    ensures forall s :: s in Plan(false, disable, outputIdentity, env) && s.ExecuteNonQuery? && !s.purpose.InsertRows? ==>
      s.parameters == []
  {
  }

  /** With the flag set, one Disable and one Rebuild run; without it, neither. */
  lemma {:induction false} IndexSuspension(disable: bool, outputIdentity: ColumnDirectionType, env: Environment)
    ensures Only(Plan(false, disable, outputIdentity, env), IsIndexStep) ==
      if disable then [ExecuteNonQuery(IndexManagement(Disable), env.indexManagementCmd(Disable), []),
                       ExecuteNonQuery(IndexManagement(Rebuild), env.indexManagementCmd(Rebuild), [])]
      else []
  {
    var pre := Preamble(env);
    var dis := IndexStep(disable, Disable, env);
    var data := DataSteps(ChosenPath(outputIdentity, env), env);
    var reb := IndexStep(disable, Rebuild, env);
    PreambleHasNoDataOrIndexStep(env);
    IndexStepIsIndex(disable, Disable, env);
    IndexStepIsIndex(disable, Rebuild, env);
    DataStepsAreData(ChosenPath(outputIdentity, env), env);
    OnlyNone(pre, IsIndexStep);
    OnlyNone(data, IsIndexStep);
    OnlyAll(dis, IsIndexStep);
    OnlyAll(reb, IsIndexStep);
    OnlyAppend(data, reb, IsIndexStep);
    OnlyAppend(dis, data + reb, IsIndexStep);
    OnlyAppend(pre, dis + (data + reb), IsIndexStep);
  }

  /** The schema fetch precedes Disable, which precedes every data step. */
  lemma DisableFollowsSchemaFetch(disable: bool, outputIdentity: ColumnDirectionType, env: Environment)
    ensures AllBefore(Plan(false, disable, outputIdentity, env), IsSchemaFetch, IsDisable)
    ensures AllBefore(Plan(false, disable, outputIdentity, env), IsDisable, IsDataStep)
  {
    var pre := Preamble(env);
    var dis := IndexStep(disable, Disable, env);
    var data := DataSteps(ChosenPath(outputIdentity, env), env);
    var reb := IndexStep(disable, Rebuild, env);
    IndexStepIsIndex(disable, Disable, env);
    IndexStepIsIndex(disable, Rebuild, env);
    DataStepsAreData(ChosenPath(outputIdentity, env), env);
    AllBeforeAppend(pre, dis + (data + reb), IsSchemaFetch, IsDisable);
    AllBeforeAppend(pre + dis, data + reb, IsDisable, IsDataStep);
    assert pre + (dis + (data + reb)) == (pre + dis) + (data + reb);
  }

  /** Every data step precedes Rebuild. */
  lemma RebuildFollowsData(disable: bool, outputIdentity: ColumnDirectionType, env: Environment)
    ensures AllBefore(Plan(false, disable, outputIdentity, env), IsDataStep, IsRebuild)
  {
    var pre := Preamble(env);
    var dis := IndexStep(disable, Disable, env);
    var data := DataSteps(ChosenPath(outputIdentity, env), env);
    var reb := IndexStep(disable, Rebuild, env);
    IndexStepIsIndex(disable, Rebuild, env);
    AllBeforeAppend((pre + dis) + data, reb, IsDataStep, IsRebuild);
    assert pre + (dis + (data + reb)) == ((pre + dis) + data) + reb;
  }

  /** Rows are materialised before the column mappings are applied. */
  lemma MappingFollowsConversion(disable: bool, outputIdentity: ColumnDirectionType, env: Environment)
    ensures AllBefore(Plan(false, disable, outputIdentity, env), IsConversion, IsColumnMapping)
  {
    var rest := IndexStep(disable, Disable, env) + (DataSteps(ChosenPath(outputIdentity, env), env) + IndexStep(disable, Rebuild, env));
    var head := [CreateDataTable, ConvertListToDataTable];
    var tail := [DoColumnMappings] + (if env.connectionClosed then [OpenConnection] else []) + [ValidateMsSqlVersion, GetDatabaseSchema];
    IndexStepIsIndex(disable, Disable, env);
    IndexStepIsIndex(disable, Rebuild, env);
    DataStepsAreData(ChosenPath(outputIdentity, env), env);
    assert Preamble(env) == head + tail;
    AllBeforeAppend(head, tail + rest, IsConversion, IsColumnMapping);
    assert Preamble(env) + rest == head + (tail + rest);
  }

  /** The version check and the schema fetch precede every data step. */
  lemma PreambleOrder(disable: bool, outputIdentity: ColumnDirectionType, env: Environment)
    ensures AllBefore(Plan(false, disable, outputIdentity, env), IsVersionCheck, IsDataStep)
    ensures AllBefore(Plan(false, disable, outputIdentity, env), IsSchemaFetch, IsDataStep)
  {
    var rest := IndexStep(disable, Disable, env) + (DataSteps(ChosenPath(outputIdentity, env), env) + IndexStep(disable, Rebuild, env));
    PreambleHasNoDataOrIndexStep(env);
    IndexStepIsIndex(disable, Disable, env);
    IndexStepIsIndex(disable, Rebuild, env);
    DataStepsAreData(ChosenPath(outputIdentity, env), env);
    AllBeforeAppend(Preamble(env), rest, IsVersionCheck, IsDataStep);
    AllBeforeAppend(Preamble(env), rest, IsSchemaFetch, IsDataStep);
  }

  /** The orders above also hold for the steps issued when some step throws. */
  lemma OrderUnderFaults(disable: bool, outputIdentity: ColumnDirectionType, env: Environment)
    ensures AllBefore(Issued(Plan(false, disable, outputIdentity, env), env.fault), IsConversion, IsColumnMapping)
    ensures AllBefore(Issued(Plan(false, disable, outputIdentity, env), env.fault), IsVersionCheck, IsDataStep)
    ensures AllBefore(Issued(Plan(false, disable, outputIdentity, env), env.fault), IsSchemaFetch, IsDataStep)
    ensures AllBefore(Issued(Plan(false, disable, outputIdentity, env), env.fault), IsSchemaFetch, IsDisable)
    ensures AllBefore(Issued(Plan(false, disable, outputIdentity, env), env.fault), IsDisable, IsDataStep)
    ensures AllBefore(Issued(Plan(false, disable, outputIdentity, env), env.fault), IsDataStep, IsRebuild)
  {
    var plan := Plan(false, disable, outputIdentity, env);
    IssuedIsPrefix(plan, env.fault);
    MappingFollowsConversion(disable, outputIdentity, env);
    PreambleOrder(disable, outputIdentity, env);
    DisableFollowsSchemaFetch(disable, outputIdentity, env);
    RebuildFollowsData(disable, outputIdentity, env);
    var k := |Issued(plan, env.fault)|;
    AllBeforePrefix(plan, k, IsConversion, IsColumnMapping);
    AllBeforePrefix(plan, k, IsVersionCheck, IsDataStep);
    AllBeforePrefix(plan, k, IsSchemaFetch, IsDataStep);
    AllBeforePrefix(plan, k, IsSchemaFetch, IsDisable);
    AllBeforePrefix(plan, k, IsDisable, IsDataStep);
    AllBeforePrefix(plan, k, IsDataStep, IsRebuild);
  }

  /**
   * A run in which nothing throws issues the whole plan and returns the row count of
   * the table built from the list; a run in which a step throws stops right after that
   * step and throws what the catch block makes of its exception.
   */
  lemma CommitOutcome(disable: bool, outputIdentity: ColumnDirectionType, env: Environment)
    ensures Thrown(Plan(false, disable, outputIdentity, env), env.fault).None? ==>
      Issued(Plan(false, disable, outputIdentity, env), env.fault) == Plan(false, disable, outputIdentity, env)
      && Outcome(false, disable, outputIdentity, env) == Returned(env.rowCount)
    ensures Thrown(Plan(false, disable, outputIdentity, env), env.fault).Some? ==>
      env.fault.Some?
      && Issued(Plan(false, disable, outputIdentity, env), env.fault)[|Issued(Plan(false, disable, outputIdentity, env), env.fault)| - 1] == env.fault.value.step
      && Outcome(false, disable, outputIdentity, env) == Threw(Reclassify(env.fault.value.exception))
  {
    IssuedIsPrefix(Plan(false, disable, outputIdentity, env), env.fault);
    ThrownIsFault(Plan(false, disable, outputIdentity, env), env.fault);
  }

  lemma {:induction false} ThrownIsFault(plan: seq<Step>, f: Option<Fault>)
    ensures Thrown(plan, f).Some? ==> f.Some? && Thrown(plan, f) == Some(f.value.exception)
    decreases |plan|
  {
    if |plan| > 0 && !Throws(f, plan[0]) {
      ThrownIsFault(plan[1..], f);
    }
  }

  /** No fault at all: Commit issues the whole plan. */
  lemma NoFaultIssuesPlan(plan: seq<Step>)
    ensures Issued(plan, None) == plan && Thrown(plan, None) == None
  {
    IssuedIsPrefix(plan, None);
    NoFaultNeverThrows(plan);
  }

  lemma {:induction false} NoFaultNeverThrows(plan: seq<Step>)
    ensures Thrown(plan, None) == None
    decreases |plan|
  {
    if |plan| > 0 {
      NoFaultNeverThrows(plan[1..]);
    }
  }

  // ---------------------------------------------------------------------------------
  // The catch block on concrete error lists

  /** The first identity error wins, whatever numbers come before or after it. */
  lemma FirstIdentityErrorWins()
    ensures Reclassify(SqlException([SqlError(547, "constraint"), SqlError(544, "explicit value"), SqlError(8102, "update")]))
      == IdentityException("explicit value")
    ensures Reclassify(SqlException([SqlError(8102, "update"), SqlError(544, "explicit value")]))
      == IdentityException("update")
  {
  }

  /** Without an identity error the SqlException is rethrown unchanged. */
  lemma OtherErrorsRethrown()
    ensures Reclassify(SqlException([])) == SqlException([])
    ensures Reclassify(SqlException([SqlError(2627, "duplicate key")])) == SqlException([SqlError(2627, "duplicate key")])
    ensures Reclassify(OtherException("InvalidOperationException")) == OtherException("InvalidOperationException")
  {
  }
}
