/** Constants of the ODBC 3.x call-level interface (sql.h, sqlext.h) and the
    small value types the ODBC binder and extractor share. */
module OdbcTypes {

  // Length/indicator values for the StrLen_or_IndPtr argument of SQLBindParameter.
  const SQL_NULL_DATA: int := -1
  const SQL_DATA_AT_EXEC: int := -2
  const SQL_NTS: int := -3
  const SQL_LEN_DATA_AT_EXEC_OFFSET: int := -100

  /** The macro SQL_LEN_DATA_AT_EXEC(length) of sqlext.h: a byte count is
      mapped into the range at or below -100, a negative argument above it. */
  function SqlLenDataAtExec(length: int): (ind: int)
    ensures length >= 0 <==> ind <= SQL_LEN_DATA_AT_EXEC_OFFSET
  {
    -length + SQL_LEN_DATA_AT_EXEC_OFFSET
  }

  // InputOutputType argument of SQLBindParameter.
  const SQL_PARAM_TYPE_UNKNOWN: int := 0
  const SQL_PARAM_INPUT: int := 1
  const SQL_PARAM_INPUT_OUTPUT: int := 2
  const SQL_PARAM_OUTPUT: int := 4

  // C data types and SQL data types.
  const SQL_CHAR: int := 1
  const SQL_C_CHAR: int := SQL_CHAR
  const SQL_LONGVARCHAR: int := -1
  const SQL_BINARY: int := -2
  const SQL_C_BINARY: int := SQL_BINARY
  const SQL_LONGVARBINARY: int := -4
  const SQL_TIMESTAMP: int := 11
  const SQL_C_TIMESTAMP: int := SQL_TIMESTAMP
  const SQL_TYPE_TIMESTAMP: int := 93

  /** sizeof(SQL_TIMESTAMP_STRUCT): one SQLSMALLINT, five SQLUSMALLINTs and one SQLUINTEGER. */
  const TIMESTAMP_STRUCT_SIZE: int := 16

  const USMALLINT_RANGE: int := 0x1_0000

  /** The 1-based column or parameter number `(SQLUSMALLINT) pos + 1` that the
      connectors pass to the driver: the cast truncates `pos` to 16 bits, and the
      sum is truncated again when it is passed as an SQLUSMALLINT argument. */
  function ParamNumber(pos: nat): (n: nat)
    ensures n < USMALLINT_RANGE
    ensures pos + 1 < USMALLINT_RANGE ==> n == pos + 1
    ensures pos + 1 == USMALLINT_RANGE ==> n == 0
  {
    (pos % USMALLINT_RANGE + 1) % USMALLINT_RANGE
  }

  /** The number is `pos + 1` modulo 2^16: every position the 16-bit number can
      express is passed 1-based and unchanged, and a larger one wraps around. */
  lemma ParamNumberIsOneBased(pos: nat)
    ensures ParamNumber(pos) < USMALLINT_RANGE
    ensures (ParamNumber(pos) - pos - 1) % USMALLINT_RANGE == 0
    ensures pos + 1 < USMALLINT_RANGE ==> ParamNumber(pos) == pos + 1
  {
  }

  /** What a driver reads from a length/indicator value, following the
      description of StrLen_or_IndPtr in the SQLBindParameter reference of the
      Microsoft ODBC 3.x Programmer's Reference. */
  datatype IndicatorMeaning =
    | OctetLength(n: nat)        // the value is n bytes long
    | NullData                   // SQL_NULL_DATA: the parameter is NULL
    | NullTerminated             // SQL_NTS: the value is NUL-terminated
    | DataAtExec                 // SQL_DATA_AT_EXEC: data follows at execution time
    | DataAtExecLength(n: nat)   // SQL_LEN_DATA_AT_EXEC(n): n bytes follow at execution time
    | Other(raw: int)            // any other negative value

  function Classify(ind: int): IndicatorMeaning
  {
    if ind >= 0 then OctetLength(ind)
    else if ind == SQL_NULL_DATA then NullData
    else if ind == SQL_NTS then NullTerminated
    else if ind == SQL_DATA_AT_EXEC then DataAtExec
    else if ind <= SQL_LEN_DATA_AT_EXEC_OFFSET then DataAtExecLength(SQL_LEN_DATA_AT_EXEC_OFFSET - ind)
    else Other(ind)
  }

  /** SQL_LEN_DATA_AT_EXEC encodes every byte count so that the driver decodes it again. */
  lemma LenDataAtExecRoundTrip(n: nat)
    ensures Classify(SqlLenDataAtExec(n)) == DataAtExecLength(n)
  {
  }

  /** Poco::DateTime, field by field. */
  datatype DateTime = DateTime(
    year: int, month: int, day: int,
    hour: int, minute: int, second: int,
    millisecond: int, microsecond: int)

  /** SQL_TIMESTAMP_STRUCT, field by field; `fraction` is in nanoseconds. */
  datatype TimestampStruct = TimestampStruct(
    year: int, month: int, day: int,
    hour: int, minute: int, second: int,
    fraction: int)
}
