/**
 * The static CLR-type tables of SqlBulkTools.Core.BulkOperationsUtility and its one
 * public lookup, GetSqlTypeFromDotNetType.
 *
 * Both tables are `static readonly` dictionaries that nothing writes to after the type
 * initialiser, so here each is a total function from a type to its entry (None for a
 * type the dictionary does not contain) and the lookup is a function: two calls with the
 * same type always agree.
 */
module BulkOperationsUtility {
  import opened Wrappers

  /**
   * A `System.Type`. Every type that either table names is a constructor of its own
   * (`typeof(int?)` is a type distinct from `typeof(int)`, as in .NET); every other type
   * (object, user classes, other arrays, generic collections, ...) is known only by its
   * name. `Unlisted` stands only for types outside both tables: a listed type is always
   * its own constructor, never `Unlisted` with that type's name.
   */
  datatype ClrType =
    // value types
    | Byte | SByte | Int16 | UInt16 | Int32 | UInt32 | Int64 | UInt64
    | Single | Double | Decimal | Boolean | Char
    | Guid | DateTime | DateTimeOffset | TimeSpan
    // Nullable<T> of each value type
    | NullableByte | NullableSByte | NullableInt16 | NullableUInt16 | NullableInt32
    | NullableUInt32 | NullableInt64 | NullableUInt64 | NullableSingle | NullableDouble
    | NullableDecimal | NullableBoolean | NullableChar | NullableGuid | NullableDateTime
    | NullableDateTimeOffset | NullableTimeSpan
    // reference types: System.String, System.Data.Linq.Binary and four array types
    | String | LinqBinary
    | ArrayOfByte | ArrayOfChar | ArrayOfNullableByte | ArrayOfNullableChar
    | Unlisted(name: string)

  /** System.Data.DbType, every member. */
  datatype DbType =
    | AnsiString | Binary | Byte | Boolean | Currency | Date | DateTime | Decimal
    | Double | Guid | Int16 | Int32 | Int64 | Object | SByte | Single | String | Time
    | UInt16 | UInt32 | UInt64 | VarNumeric | AnsiStringFixedLength | StringFixedLength
    | Xml | DateTime2 | DateTimeOffset

  /** System.Data.SqlDbType, every member. */
  datatype SqlDbType =
    | BigInt | Binary | Bit | Char | DateTime | Decimal | Float | Image | Int | Money
    | NChar | NText | NVarChar | Real | UniqueIdentifier | SmallDateTime | SmallInt
    | SmallMoney | Text | Timestamp | TinyInt | VarBinary | VarChar | Variant | Xml
    | Udt | Structured | Date | Time | DateTime2 | DateTimeOffset

  /** The KeyNotFoundException thrown for a type the table does not list. */
  datatype KeyNotFound = KeyNotFoundException(missing: ClrType)

  /**
   * The DbTypeMappings dictionary, with its keys in declaration order: its entry for
   * each of its 38 keys, None for every other type. Its keys are every value type, plain
   * and nullable, and four reference types.
   */
  function DbTypeMappings(t: ClrType): (r: Option<DbType>)
    ensures r.Some? <==>
      IsValueType(t) || IsNullableValueType(t)
      || t in {ClrType.String, ClrType.LinqBinary, ClrType.ArrayOfByte, ClrType.ArrayOfChar}
  {
    match t
    case Byte => Some(DbType.Byte)
    case SByte => Some(DbType.Int16)
    case UInt16 => Some(DbType.UInt16)
    case Int32 => Some(DbType.Int32)
    case UInt32 => Some(DbType.UInt32)
    case Int64 => Some(DbType.Int64)
    case UInt64 => Some(DbType.UInt64)
    case Single => Some(DbType.Single)
    case Double => Some(DbType.Double)
    case Decimal => Some(DbType.Decimal)
    case Boolean => Some(DbType.Boolean)
    case String => Some(DbType.String)
    case Char => Some(DbType.StringFixedLength)
    case ArrayOfChar => Some(DbType.String)
    case Guid => Some(DbType.Guid)
    case DateTime => Some(DbType.DateTime)
    case DateTimeOffset => Some(DbType.DateTimeOffset)
    case ArrayOfByte => Some(DbType.Binary)
    case NullableByte => Some(DbType.Byte)
    case NullableSByte => Some(DbType.SByte)
    case Int16 => Some(DbType.Int16)
    case NullableInt16 => Some(DbType.Int16)
    case NullableUInt16 => Some(DbType.UInt16)
    case NullableInt32 => Some(DbType.Int32)
    case NullableUInt32 => Some(DbType.UInt32)
    case NullableInt64 => Some(DbType.Int64)
    case NullableUInt64 => Some(DbType.UInt64)
    case NullableSingle => Some(DbType.Single)
    case NullableDouble => Some(DbType.Double)
    case NullableDecimal => Some(DbType.Decimal)
    case NullableBoolean => Some(DbType.Boolean)
    case NullableChar => Some(DbType.StringFixedLength)
    case NullableGuid => Some(DbType.Guid)
    case NullableDateTime => Some(DbType.DateTime)
    case NullableDateTimeOffset => Some(DbType.DateTimeOffset)
    case LinqBinary => Some(DbType.Binary)
    case TimeSpan => Some(DbType.Time)
    case NullableTimeSpan => Some(DbType.Time)
    case _ => None
  }

  /**
   * The private SqlDbMappings dictionary, with its keys in declaration order: its entry
   * for each of its 26 keys, None for every other type. Compared with DbTypeMappings it
   * lacks the unsigned integers, sbyte, char, DateTimeOffset (plain or nullable), Linq
   * Binary and TimeSpan?, and adds byte?[] and char?[].
   */
  function SqlDbMappings(t: ClrType): (r: Option<SqlDbType>)
    ensures r.Some? <==>
      (&& DbTypeMappings(t).Some?
       && !IsUnsignedInteger(t)
       && Underlying(t) !in {ClrType.SByte, ClrType.Char, ClrType.DateTimeOffset}
       && t !in {ClrType.LinqBinary, ClrType.NullableTimeSpan})
      || t in {ClrType.ArrayOfNullableByte, ClrType.ArrayOfNullableChar}
  {
    match t
    case Boolean => Some(SqlDbType.Bit)
    case NullableBoolean => Some(SqlDbType.Bit)
    case Byte => Some(SqlDbType.TinyInt)
    case NullableByte => Some(SqlDbType.TinyInt)
    case String => Some(SqlDbType.NVarChar)
    case DateTime => Some(SqlDbType.DateTime)
    case NullableDateTime => Some(SqlDbType.DateTime)
    case Int16 => Some(SqlDbType.SmallInt)
    case NullableInt16 => Some(SqlDbType.SmallInt)
    case Int32 => Some(SqlDbType.Int)
    case NullableInt32 => Some(SqlDbType.Int)
    case Int64 => Some(SqlDbType.BigInt)
    case NullableInt64 => Some(SqlDbType.BigInt)
    case Decimal => Some(SqlDbType.Decimal)
    case NullableDecimal => Some(SqlDbType.Decimal)
    case Double => Some(SqlDbType.Float)
    case NullableDouble => Some(SqlDbType.Float)
    case Single => Some(SqlDbType.Real)
    case NullableSingle => Some(SqlDbType.Real)
    case TimeSpan => Some(SqlDbType.Time)
    case Guid => Some(SqlDbType.UniqueIdentifier)
    case NullableGuid => Some(SqlDbType.UniqueIdentifier)
    case ArrayOfByte => Some(SqlDbType.Binary)
    case ArrayOfNullableByte => Some(SqlDbType.Binary)
    case ArrayOfChar => Some(SqlDbType.Char)
    case ArrayOfNullableChar => Some(SqlDbType.Char)
    case _ => None
  }

  /**
   * GetSqlTypeFromDotNetType: the table's entry for the type, or a KeyNotFoundException
   * naming the type. There is no default mapping.
   */
  function GetSqlTypeFromDotNetType(t: ClrType): (r: Result<DbType, KeyNotFound>)
    ensures r.Failure? ==> r.error == KeyNotFoundException(t)
  {
    match DbTypeMappings(t)
    case Some(d) => Success(d)
    case None => Failure(KeyNotFoundException(t))
  }

  // ---------------------------------------------------------------------------------
  // The structure of the type space, as .NET reflection reports it.

  /** `Nullable<T>` for some value type T. */
  predicate IsNullableValueType(t: ClrType) {
    match t
    case NullableByte | NullableSByte | NullableInt16 | NullableUInt16 | NullableInt32
       | NullableUInt32 | NullableInt64 | NullableUInt64 | NullableSingle | NullableDouble
       | NullableDecimal | NullableBoolean | NullableChar | NullableGuid | NullableDateTime
       | NullableDateTimeOffset | NullableTimeSpan => true
    case _ => false
  }

  /** Nullable.GetUnderlyingType: T for `Nullable<T>`, the type itself otherwise. */
  function Underlying(t: ClrType): (u: ClrType)
    ensures IsNullableValueType(t) ==> u != t && !IsNullableValueType(u)
    ensures !IsNullableValueType(t) ==> u == t
  {
    match t
    case NullableByte => ClrType.Byte
    case NullableSByte => ClrType.SByte
    case NullableInt16 => ClrType.Int16
    case NullableUInt16 => ClrType.UInt16
    case NullableInt32 => ClrType.Int32
    case NullableUInt32 => ClrType.UInt32
    case NullableInt64 => ClrType.Int64
    case NullableUInt64 => ClrType.UInt64
    case NullableSingle => ClrType.Single
    case NullableDouble => ClrType.Double
    case NullableDecimal => ClrType.Decimal
    case NullableBoolean => ClrType.Boolean
    case NullableChar => ClrType.Char
    case NullableGuid => ClrType.Guid
    case NullableDateTime => ClrType.DateTime
    case NullableDateTimeOffset => ClrType.DateTimeOffset
    case NullableTimeSpan => ClrType.TimeSpan
    case _ => t
  }

  /** A non-nullable value type: a struct or a primitive. */
  predicate IsValueType(t: ClrType) {
    match t
    case Byte | SByte | Int16 | UInt16 | Int32 | UInt32 | Int64 | UInt64
       | Single | Double | Decimal | Boolean | Char
       | Guid | DateTime | DateTimeOffset | TimeSpan => true
    case _ => false
  }

  /** The integral types, plain or nullable. */
  predicate IsIntegral(t: ClrType) {
    match t
    case Byte | SByte | Int16 | UInt16 | Int32 | UInt32 | Int64 | UInt64 => true
    case NullableByte | NullableSByte | NullableInt16 | NullableUInt16
       | NullableInt32 | NullableUInt32 | NullableInt64 | NullableUInt64 => true
    case _ => false
  }

  predicate IsUnsignedInteger(t: ClrType) {
    Underlying(t) in {ClrType.UInt16, ClrType.UInt32, ClrType.UInt64}
  }

  predicate IsUnsignedDbType(d: DbType) {
    d.UInt16? || d.UInt32? || d.UInt64?
  }

  // ---------------------------------------------------------------------------------
  // An independent description of DbTypeMappings by type families.

  /**
   * The family rules: a nullable value type maps like its underlying type, except
   * `sbyte?`; the integers, floating-point types, decimal, bool, Guid and the date types
   * map to their namesakes, except that `sbyte` widens to Int16; `char` is a one-character
   * fixed-length string; `string` and `char[]` are strings; `byte[]` and `Binary` are
   * binary; TimeSpan is a time of day; nothing else is listed.
   */
  function DbTypeByFamily(t: ClrType): Option<DbType> {
    if t == NullableSByte then Some(DbType.SByte)
    else
      match Underlying(t)
      case Byte => Some(DbType.Byte)
      case SByte => Some(DbType.Int16)
      case Int16 => Some(DbType.Int16)
      case UInt16 => Some(DbType.UInt16)
      case Int32 => Some(DbType.Int32)
      case UInt32 => Some(DbType.UInt32)
      case Int64 => Some(DbType.Int64)
      case UInt64 => Some(DbType.UInt64)
      case Single => Some(DbType.Single)
      case Double => Some(DbType.Double)
      case Decimal => Some(DbType.Decimal)
      case Boolean => Some(DbType.Boolean)
      case Char => Some(DbType.StringFixedLength)
      case Guid => Some(DbType.Guid)
      case DateTime => Some(DbType.DateTime)
      case DateTimeOffset => Some(DbType.DateTimeOffset)
      case TimeSpan => Some(DbType.Time)
      case String | ArrayOfChar => Some(DbType.String)
      case LinqBinary | ArrayOfByte => Some(DbType.Binary)
      case _ => None
  }

  /** The common value types map to their namesakes. */
  lemma CommonEntries()
    ensures GetSqlTypeFromDotNetType(ClrType.Int32) == Success(DbType.Int32)
    ensures GetSqlTypeFromDotNetType(ClrType.Int64) == Success(DbType.Int64)
    ensures GetSqlTypeFromDotNetType(ClrType.Guid) == Success(DbType.Guid)
    ensures GetSqlTypeFromDotNetType(ClrType.DateTime) == Success(DbType.DateTime)
  {
  }

  /** The one irregular pair: `sbyte` widens to Int16 but `sbyte?` maps to SByte. */
  lemma SByteIsIrregular()
    ensures GetSqlTypeFromDotNetType(ClrType.SByte) == Success(DbType.Int16)
    ensures GetSqlTypeFromDotNetType(ClrType.NullableSByte) == Success(DbType.SByte)
  {
  }

  /** char, plain or nullable, is a one-character fixed-length string; TimeSpan is a Time. */
  lemma CharAndTimeSpanEntries()
    ensures GetSqlTypeFromDotNetType(ClrType.Char) == Success(DbType.StringFixedLength)
    ensures GetSqlTypeFromDotNetType(ClrType.NullableChar) == Success(DbType.StringFixedLength)
    ensures GetSqlTypeFromDotNetType(ClrType.TimeSpan) == Success(DbType.Time)
    ensures GetSqlTypeFromDotNetType(ClrType.NullableTimeSpan) == Success(DbType.Time)
  {
  }

  /** `string` and `char[]` map to String; `byte[]` and Linq `Binary` map to Binary. */
  lemma StringAndBinaryEntries()
    ensures GetSqlTypeFromDotNetType(ClrType.String) == Success(DbType.String)
    ensures GetSqlTypeFromDotNetType(ClrType.ArrayOfChar) == Success(DbType.String)
    ensures GetSqlTypeFromDotNetType(ClrType.ArrayOfByte) == Success(DbType.Binary)
    ensures GetSqlTypeFromDotNetType(ClrType.LinqBinary) == Success(DbType.Binary)
  {
  }

  /** `byte?[]`, `char?[]` and every type outside the table fail with KeyNotFoundException. */
  lemma UnlistedEntries(name: string)
    ensures GetSqlTypeFromDotNetType(ArrayOfNullableByte) == Failure(KeyNotFoundException(ArrayOfNullableByte))
    ensures GetSqlTypeFromDotNetType(ArrayOfNullableChar) == Failure(KeyNotFoundException(ArrayOfNullableChar))
    ensures GetSqlTypeFromDotNetType(Unlisted(name)) == Failure(KeyNotFoundException(Unlisted(name)))
  {
  }

  /** The family rules and the lookup agree on one type. */
  ghost predicate AgreesWithFamilies(t: ClrType) {
    && (DbTypeByFamily(t).Some? <==> GetSqlTypeFromDotNetType(t).Success?)
    && (DbTypeByFamily(t).Some? ==> GetSqlTypeFromDotNetType(t) == Success(DbTypeByFamily(t).value))
  }

  /** The integral value types, plain and nullable. */
  lemma IntegralTypesAgree(t: ClrType)
    ensures IsIntegral(t) ==> AgreesWithFamilies(t)
  {
  }

  /** The other non-nullable value types. */
  lemma OtherValueTypesAgree(t: ClrType)
    ensures IsValueType(t) && !IsIntegral(t) ==> AgreesWithFamilies(t)
  {
  }

  /** The other nullable value types. */
  lemma OtherNullableTypesAgree(t: ClrType)
    ensures IsNullableValueType(t) && !IsIntegral(t) ==> AgreesWithFamilies(t)
  {
  }

  /** The reference types and the unlisted types. */
  lemma OtherTypesAgree(t: ClrType)
    ensures !IsNullableValueType(t) && !IsValueType(t) ==> AgreesWithFamilies(t)
  {
  }

  /** The lookup and the family rules agree on every type, listed or not. */
  lemma LookupMatchesFamilies(t: ClrType)
    ensures DbTypeByFamily(t).Some? <==> GetSqlTypeFromDotNetType(t).Success?
    ensures DbTypeByFamily(t).Some? ==> GetSqlTypeFromDotNetType(t) == Success(DbTypeByFamily(t).value)
  {
    IntegralTypesAgree(t);
    OtherValueTypesAgree(t);
    OtherNullableTypesAgree(t);
    OtherTypesAgree(t);
  }

  /** Each nullable value type maps like its underlying type, except `sbyte?`. */
  lemma NullableMatchesUnderlying(t: ClrType)
    requires IsNullableValueType(t) && t != NullableSByte
    ensures GetSqlTypeFromDotNetType(t).Success?
    ensures GetSqlTypeFromDotNetType(t) == GetSqlTypeFromDotNetType(Underlying(t))
  {
  }

  /** A listed type maps to an unsigned DbType exactly when it is an unsigned integer type. */
  lemma UnsignedTypes(t: ClrType)
    requires GetSqlTypeFromDotNetType(t).Success?
    ensures IsUnsignedDbType(GetSqlTypeFromDotNetType(t).value) <==> IsUnsignedInteger(t)
  {
  }

  /** Entries of the secondary SqlDbMappings table. */
  lemma SqlDbMappingsEntries()
    ensures SqlDbMappings(ClrType.Double) == Some(SqlDbType.Float)
    ensures SqlDbMappings(ClrType.Single) == Some(SqlDbType.Real)
    ensures SqlDbMappings(ClrType.String) == Some(SqlDbType.NVarChar)
    ensures SqlDbMappings(ClrType.ArrayOfByte) == Some(SqlDbType.Binary)
    ensures SqlDbMappings(ClrType.ArrayOfChar) == Some(SqlDbType.Char)
  {
  }

  /**
   * The two tables have different key sets: `byte?[]` and `char?[]` are keys only of
   * SqlDbMappings, `TimeSpan?` only of DbTypeMappings; the lookup consults only the latter.
   */
  lemma TablesHaveDifferentKeys()
    ensures SqlDbMappings(ArrayOfNullableByte).Some? && DbTypeMappings(ArrayOfNullableByte).None?
    ensures SqlDbMappings(ArrayOfNullableChar).Some? && DbTypeMappings(ArrayOfNullableChar).None?
    ensures SqlDbMappings(NullableTimeSpan).None? && DbTypeMappings(NullableTimeSpan).Some?
  {
  }
}
