# SqlBulkTools: type mapping and the bulk-insert commit sequence

This project models two parts of SqlBulkTools.

1. **The CLR-type → `DbType` mapper** (`BulkOperationsUtility`). The static
   `DbTypeMappings` dictionary maps each supported .NET type to an ADO.NET `DbType`.
   `GetSqlTypeFromDotNetType` looks a type up in it and throws `KeyNotFoundException`
   when the type is missing. The private `SqlDbMappings` dictionary is modelled as well.
   - The two dictionaries are `static readonly` and nothing writes to them after
     initialisation. Each is therefore modelled as a total Dafny function from a
     `ClrType` to its entry, `None` when absent.
   - Because of that, the lookup is a pure function of its argument by construction:
     repeated calls agree.
   - The .NET types are a flat enumeration: the value types, their `Nullable<T>`
     variants, `string`, `System.Data.Linq.Binary`, four array types, and
     `Unlisted(name)` for every other type.

2. **`BulkInsert<T>`** (`BulkInsert`). A class holds:
   - the configuration the fluent setters change (`TmpDisableAllNonClusteredIndexes`
     and the two `SetIdentityColumn` overloads);
   - the insert's row list;
   - a log of the steps `Commit` and `CommitAsync` issue.

   `Commit` is an imperative method with the branches of the source. It:
   - builds the command text with assignments and `+=`;
   - adds and clears the command's parameters;
   - runs each step in order until one throws;
   - hands the exception to the catch block.

   The catch block is a `while` loop over the errors of a `SqlException`. Errors 8102
   and 544 are turned into an `IdentityException` carrying that error's message.
   Anything else is rethrown unchanged.

   The helpers `Commit` calls (`BulkOperationsHelper`, `AbstractOperation`) are not part
   of this model. What they return is given to `Commit` as an `Environment`:
   - whether the connection was closed;
   - whether the schema was found;
   - the chosen strategy;
   - the row count;
   - the generated command texts and insert setups;
   - optionally, a `Fault`: the step that throws and the exception it throws.

   Each method is proved against pure specification functions:
   - `Plan` lists the steps of a run in which nothing throws;
   - `Issued` cuts a plan after the first step that throws;
   - `Thrown` gives the exception that escapes;
   - `Outcome` gives what `Commit` returns or throws.

   `BulkInsertProperties` proves the ordering, branching, bracketing and
   error-mapping rules about these functions.

Files:

| file | contents |
|---|---|
| `Wrappers.dfy` | `Option` and `Result` |
| `BulkOperationsUtility.dfy` | the CLR and DB type enumerations, both tables, the lookup, the family rules and their lemmas |
| `BulkInsert.dfy` | exceptions and their reclassification, steps, the plan, `SqlCommand`, the class `BulkInsert<T>` |
| `BulkInsertProperties.dfy` | lemmas on the plan and on the steps issued under a fault |

## Model

| member | source | states |
|---|---|---|
| BulkOperationsUtility.DbTypeMappings | SqlBulkTools/Core/BulkOperationsUtility.cs:14-54 | the dictionary's keys are exactly the 17 value types, their 17 nullable variants, string, Linq Binary, byte[] and char[] |
| BulkOperationsUtility.SqlDbMappings | SqlBulkTools/Core/BulkOperationsUtility.cs:56-85 | the dictionary's keys are those of DbTypeMappings minus the unsigned integers, sbyte, char, DateTimeOffset (plain or nullable), Linq Binary and TimeSpan?, plus byte?[] and char?[] |
| BulkOperationsUtility.GetSqlTypeFromDotNetType | SqlBulkTools/Core/BulkOperationsUtility.cs:93-103 | a failed lookup is a KeyNotFoundException naming the type looked up |
| BulkOperationsUtility.CommonEntries | SqlBulkTools/Core/BulkOperationsUtility.cs:19-31 | int→Int32, long→Int64, Guid→Guid, DateTime→DateTime |
| BulkOperationsUtility.SByteIsIrregular | SqlBulkTools/Core/BulkOperationsUtility.cs:17-35 | sbyte maps to Int16 but sbyte? maps to SByte |
| BulkOperationsUtility.CharAndTimeSpanEntries | SqlBulkTools/Core/BulkOperationsUtility.cs:28-53 | char and char? map to StringFixedLength; TimeSpan and TimeSpan? map to Time |
| BulkOperationsUtility.StringAndBinaryEntries | SqlBulkTools/Core/BulkOperationsUtility.cs:27-51 | string and char[] map to String; byte[] and Linq Binary map to Binary |
| BulkOperationsUtility.UnlistedEntries | SqlBulkTools/Core/BulkOperationsUtility.cs:97-102 | byte?[], char?[] and every unlisted type fail with KeyNotFoundException; there is no fallback mapping |
| BulkOperationsUtility.LookupMatchesFamilies | SqlBulkTools/Core/BulkOperationsUtility.cs:14-54 | for every type, the lookup succeeds exactly when an independent family rule gives a DbType, and then it returns that DbType. The rules: value type → namesake, except sbyte → Int16 and TimeSpan → Time; nullable → underlying type's entry, except sbyte?→SByte; char → StringFixedLength; string and char[] → String; byte[] and Binary → Binary |
| BulkOperationsUtility.NullableMatchesUnderlying | SqlBulkTools/Core/BulkOperationsUtility.cs:34-53 | every nullable value type except sbyte? is listed and maps like its underlying type |
| BulkOperationsUtility.UnsignedTypes | SqlBulkTools/Core/BulkOperationsUtility.cs:16-53 | a listed type maps to UInt16, UInt32 or UInt64 exactly when it is ushort, uint or ulong, nullable or not |
| BulkOperationsUtility.SqlDbMappingsEntries | SqlBulkTools/Core/BulkOperationsUtility.cs:56-85 | Double→Float, Single→Real, String→NVarChar, Byte[]→Binary, Char[]→Char |
| BulkOperationsUtility.TablesHaveDifferentKeys | SqlBulkTools/Core/BulkOperationsUtility.cs:14-85 | byte?[] and char?[] are keys only of SqlDbMappings; TimeSpan? is a key only of DbTypeMappings |
| BulkInsert.FirstIdentityError | SqlBulkTools/BulkOperations/BulkInsert.cs:187-195 | the index found is in range, points at an error numbered 8102 or 544, and no earlier error is one; None exactly when no error is one |
| BulkInsert.Reclassify | SqlBulkTools/BulkOperations/BulkInsert.cs:185-198 | the result is a new IdentityException exactly when the exception is a SqlException with an identity error; it then carries the message of the first such error; every other exception is rethrown unchanged |
| BulkInsert.CatchSqlException | SqlBulkTools/BulkOperations/BulkInsert.cs:187-197 | the index loop over the errors throws what Reclassify gives |
| BulkInsert.Catch | SqlBulkTools/BulkOperations/BulkInsert.cs:185-197 | only a SqlException is inspected; the caller sees Reclassify of the exception |
| BulkInsert.BulkInsert.constructor | SqlBulkTools/BulkOperations/BulkInsert.cs:30-34 | a new builder has the indexes flag unset, direction Input, no identity column and an empty log |
| BulkInsert.BulkInsert.SetIdentityColumn | SqlBulkTools/BulkOperations/BulkInsert.cs:42-46 | records the identity column, returns the same builder, changes nothing else |
| BulkInsert.BulkInsert.SetIdentityColumnWithDirection | SqlBulkTools/BulkOperations/BulkInsert.cs:55-59 | records the identity column and its direction, returns the same builder, changes nothing else |
| BulkInsert.BulkInsert.TmpDisableAllNonClusteredIndexes | SqlBulkTools/BulkOperations/BulkInsert.cs:66-70 | sets only the disable-indexes flag and returns the same builder |
| BulkInsert.BulkInsert.RunPreamble | SqlBulkTools/BulkOperations/BulkInsert.cs:89-100 | issues create, convert, map, open (only when closed), validate and fetch schema, stopping at the first that throws |
| BulkInsert.BulkInsert.RunIndexStep | SqlBulkTools/BulkOperations/BulkInsert.cs:108-113 | runs the index-management command only when the flag is set, with no parameters |
| BulkInsert.BulkInsert.RunStagingPath | SqlBulkTools/BulkOperations/BulkInsert.cs:116-143 | issues the staging path's steps, stopping at the first that throws; parameters are cleared after the temp-table insert |
| BulkInsert.BulkInsert.RunDestinationInsert | SqlBulkTools/BulkOperations/BulkInsert.cs:145-156 | executes the set-identity-on + query + " " + set-identity-off command with the query's parameters |
| BulkInsert.BulkInsert.RunBulkCopy | SqlBulkTools/BulkOperations/BulkInsert.cs:158-170 | issues the one bulk copy to the destination |
| BulkInsert.BulkInsert.RunDataPath | SqlBulkTools/BulkOperations/BulkInsert.cs:115-170 | issues the steps of the path ChosenPath selects, and no others |
| BulkInsert.BulkInsert.RunSteps | SqlBulkTools/BulkOperations/BulkInsert.cs:89-177 | the try block logs the plan up to the first step that throws, and reports that step's exception |
| BulkInsert.BulkInsert.Commit | SqlBulkTools/BulkOperations/BulkInsert.cs:78-199 | the log grows by the issued steps of the plan; the result is the row count, or the reclassified exception |
| BulkInsert.BulkInsert.CommitAsync | SqlBulkTools/BulkOperations/BulkInsert.cs:207-327 | the same log and result as Commit |
| BulkInsert.IssuedAppend | SqlBulkTools/BulkOperations/BulkInsert.cs:80-183 | running a + b runs a, then b only if nothing in a threw |
| BulkInsert.Advance | SqlBulkTools/BulkOperations/BulkInsert.cs:80-183 | after one segment of the try block, what remains to be issued is the rest of the plan, or nothing if the segment threw |
| BulkInsertProperties.IssuedIsPrefix | SqlBulkTools/BulkOperations/BulkInsert.cs:80-183 | the issued steps are a prefix of the plan: the whole plan if nothing throws; otherwise they end at the throwing step and no earlier step throws |
| BulkInsertProperties.EmptyListDoesNothing | SqlBulkTools/BulkOperations/BulkInsert.cs:84-87 | an empty list issues no step, not even opening the connection, and returns 0 |
| BulkInsertProperties.DataStepsOfPlan | SqlBulkTools/BulkOperations/BulkInsert.cs:115-170 | the plan's data steps are exactly the chosen path's steps, in order |
| BulkInsertProperties.ExactlyOneDataPath | SqlBulkTools/BulkOperations/BulkInsert.cs:116-158 | a path's steps occur in the plan iff it is chosen: staging iff InputOutput with a schema; else multi-value iff that strategy; else bulk copy |
| BulkInsertProperties.StagingPathOrder | SqlBulkTools/BulkOperations/BulkInsert.cs:118-141 | create temp table; fill it (multi-value insert keeping identity and internal id, or bulk copy); insert into destination with output; load identities back |
| BulkInsertProperties.DestinationInsertCommand | SqlBulkTools/BulkOperations/BulkInsert.cs:148-155 | the multi-value path is one command: identity-on ++ query ++ " " ++ identity-off, with the query's parameters |
| BulkInsertProperties.ParametersOnlyOnInserts | SqlBulkTools/BulkOperations/BulkInsert.cs:105-177 | every command except an insert runs without parameters |
| BulkInsertProperties.IndexSuspension | SqlBulkTools/BulkOperations/BulkInsert.cs:108-177 | with the flag set, exactly one Disable and then one Rebuild run; without it, neither runs |
| BulkInsertProperties.DisableFollowsSchemaFetch | SqlBulkTools/BulkOperations/BulkInsert.cs:100-113 | the schema fetch precedes Disable, and Disable precedes every data step |
| BulkInsertProperties.RebuildFollowsData | SqlBulkTools/BulkOperations/BulkInsert.cs:158-177 | every data step precedes Rebuild |
| BulkInsertProperties.MappingFollowsConversion | SqlBulkTools/BulkOperations/BulkInsert.cs:89-93 | column mappings come after the list has been converted |
| BulkInsertProperties.PreambleOrder | SqlBulkTools/BulkOperations/BulkInsert.cs:98-100 | the version check and the schema fetch precede every data step |
| BulkInsertProperties.OrderUnderFaults | SqlBulkTools/BulkOperations/BulkInsert.cs:80-183 | all six orderings above also hold for the steps issued when some step throws |
| BulkInsertProperties.CommitOutcome | SqlBulkTools/BulkOperations/BulkInsert.cs:181-197 | if nothing throws, the whole plan is issued and the row count returned; otherwise the run stops at the throwing step and its exception is reclassified |
| BulkInsertProperties.ThrownIsFault | SqlBulkTools/BulkOperations/BulkInsert.cs:80-183 | what escapes the try block is the exception a step threw |
| BulkInsertProperties.NoFaultIssuesPlan | SqlBulkTools/BulkOperations/BulkInsert.cs:89-182 | when no step throws, the whole plan is issued and nothing is thrown |
| BulkInsertProperties.FirstIdentityErrorWins | SqlBulkTools/BulkOperations/BulkInsert.cs:187-195 | with 544 and 8102 both present, the first of them in index order gives the message |
| BulkInsertProperties.OtherErrorsRethrown | SqlBulkTools/BulkOperations/BulkInsert.cs:185-197 | a SqlException without identity errors, an empty one, or a non-SQL exception escapes unchanged |

## Left out

- The helpers of `BulkOperationsHelper` and `AbstractOperation` are not part of this model. They are inputs of `Environment`:
  - the row table;
  - the strategy `GetBulkInsertStrategyType` chooses;
  - the command texts of `GetIndexManagementCmd`, `GetSetIdentityCmd`, `BuildCreateTempTable` and `GetInsertIntoStagingTableCmd`;
  - the insert setups of `BuildInsertQueryFromDataTable`.

  Their SQL text, the strategy threshold and the row count are not modelled.
- These three calls are not logged as steps, because no branch and no promised order depends on them:
  - `GetFullQualifyingTableName`;
  - `BuildCreateTempTable`;
  - `CreateCommand`.
- `SqlConnection`, `SqlCommand` execution, `SqlBulkCopy` (the column mapping, settings and `Close` of lines 160-169), `await` and the transaction are all I/O. Each execution is one abstract step. `CommitAsync` issues the same steps as `Commit`.
- The other ways the whole process can fail are not modelled. The model has one fault: a single step, named in the environment, throws its exception the first time it runs. That covers the control flow of every single exception in the try block. This leaves out:
  - a null schema reaching the next helpers;
  - exceptions thrown inside the catch block;
  - cancellation.
- `SchemaDetail` and `ITransaction` are not part of this model. The create-table query is an input.
- Reflection and expression trees are not modelled. `SetIdentityColumn` takes the column's name as a string. `AbstractOperation.SetIdentity` is not part of this model, so:
  - the one-argument overload records the column and leaves the direction unchanged;
  - the two-argument overload also records the direction.
- The strategy enumeration's member other than `MultiValueInsert` does not appear in `BulkInsert.cs`. It is called `BulkCopy` here.
- BulkOperationsUtility.DbTypeMappings: the dictionaries are lookup functions returning `Option`, not Dafny `map` values. The key sets and the entries are the same. Only the representation differs, so that each entry lemma stays cheap to prove.
- BulkOperationsUtility.GetSqlTypeFromDotNetType: the exception message (`The type … could not be found.`) is not modelled. The failure carries the type instead.
- BulkInsert.BulkInsert.RunStagingPath: promises cleared parameters only when nothing throws. When the temp-table insert throws, the source leaves its parameters on the command; nothing uses them afterwards.
- `Nullable<T>` of other structs is not in the type tables. It falls under `Unlisted`, and the lookup fails on it as it does in the source. A nullable reference type such as `string?` is not a distinct runtime type and is `String` here.
- BulkOperationsUtility.GetSqlTypeFromDotNetType: a null type makes `Dictionary.TryGetValue` (line 97) throw `ArgumentNullException`. `ClrType` has no null value, so this error path is not modelled.
- BulkOperationsUtility.ClrType: `Unlisted(name)` stands only for types outside both tables. A name such as `"System.Int32"` does not make it the listed type: `Int32` is always written as its own constructor. The datatype does not enforce this.
- BulkInsertProperties.ParametersOnlyOnInserts: assumes that `GetInsertIntoStagingTableCmd` (line 135) and `LoadFromTmpOutputTable` (line 140) leave the parameters of the command they receive empty. Both helpers are not part of this model. The staging insert and the Rebuild that follows are therefore modelled with no parameters.
- BulkInsert.BulkInsert.SetIdentityColumn: the recorded `identityColumn` is not read by `Commit`. In the source it feeds `BuildInsertQueryFromDataTable`, `GetInsertIntoStagingTableCmd`, `LoadFromTmpOutputTable` and `GetSetIdentityCmd` (lines 125, 135, 140, 148, 150). Their results are `Environment` inputs, so the environment's texts and setups do not depend on the field.
