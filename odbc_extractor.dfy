/** The inline part of the ODBC extractor: copying a bound column value out of
    the preparation, fetching one fixed-size value with a single SQLGetData
    call, and the extraction mode the extractor shares with its preparation. */
module OdbcExtractor {
  import opened Wrappers
  import opened DataCommon
  import opened OdbcTypes

  /** Preparation::DataExtraction: values are fetched column by column after the
      row is read (DE_MANUAL), or were bound to buffers beforehand (DE_BOUND). */
  datatype DataExtraction = DE_MANUAL | DE_BOUND

  /** The C++ types a bound buffer can hold, as `typeid` tells them apart. */
  datatype TypeName =
    | Int8T | UInt8T | Int16T | UInt16T | Int32T | UInt32T | Int64T | UInt64T
    | BoolT | CharT | StringT | BlobT | DateTimeT

  /** The payload of a bound buffer. */
  datatype Value = Integer(n: int) | Text(s: string) | Bytes(b: seq<byte>) | Moment(dt: DateTime)

  /** Poco::Any: a value tagged with its type. */
  datatype Any = Any(typeName: TypeName, content: Value)

  /** The part of class Preparation the extractor uses: the bound buffers by
      column position and the extraction mode. */
  class Preparation {
    var values: map<nat, Any>
    var dataExtraction: DataExtraction

    constructor (values: map<nat, Any>, ext: DataExtraction)
      ensures this.values == values && dataExtraction == ext
    {
      this.values := values;
      dataExtraction := ext;
    }
  }

  /** What one SQLGetData call reports: whether the return code is an error, the
      length/indicator it wrote, and the value left in the target variable
      (still 0 when the driver wrote nothing). */
  datatype GetDataReply = GetDataReply(isError: bool, len: int, value: int)

  /** The driver behind the statement handle: SQLGetData as an oracle of the
      1-based column number and the C data type. */
  datatype ResultStatement = ResultStatement(getData: (nat, int) -> GetDataReply)

  /** Range of size_t and of SQLLEN on a 64-bit platform. */
  const SIZE_T_RANGE: int := 0x1_0000_0000_0000_0000
  const SQLLEN_MIN: int := -0x8000_0000_0000_0000
  const SQLLEN_MAX: int := 0x7fff_ffff_ffff_ffff

  /** The debug assertion `len <= sizeof(T)` as C++ evaluates it: the signed
      SQLLEN is converted to the unsigned size_t before the comparison, so a
      negative length is compared as that length plus 2^64. */
  function DebugLengthCheckAsWritten(len: int, size: nat): (ok: bool)
    ensures 0 <= len < SIZE_T_RANGE ==> (ok <==> len <= size)
    ensures -SIZE_T_RANGE <= len < 0 ==> (ok <==> len + SIZE_T_RANGE <= size)
  {
    len % SIZE_T_RANGE <= size
  }

  /** A NULL column fails the assertion as written for every type smaller than
      2^63 bytes, so a debug build cannot extract NULL manually. */
  lemma NullDataFailsDebugCheck(size: nat)
    requires size <= SQLLEN_MAX
    ensures !DebugLengthCheckAsWritten(SQL_NULL_DATA, size)
  {
  }

  /** The evidently intended check, which compares the signed length itself:
      every negative indicator (NULL among them) passes, and a real byte count
      passes when it fits in `size` bytes. */
  function DebugLengthCheck(len: int, size: nat): (ok: bool)
    ensures len < 0 ==> ok
    ensures len >= 0 ==> (ok <==> len <= size)
  {
    len <= size
  }

  /** The intended check accepts a NULL column, and agrees with the check as
      written on every length that is a real byte count. */
  lemma DebugLengthCheckCorrected(len: int, size: nat)
    requires 0 <= len <= SQLLEN_MAX && size < SIZE_T_RANGE
    ensures DebugLengthCheck(SQL_NULL_DATA, size)
    ensures DebugLengthCheck(len, size) == DebugLengthCheckAsWritten(len, size)
  {
  }

  class Extractor {
    const stmt: ResultStatement
    const preparation: Preparation
    /** Whether `poco_assert_dbg` is compiled in. */
    const debugBuild: bool
    var dataExtraction: DataExtraction

    constructor (stmt: ResultStatement, preparation: Preparation, debugBuild: bool, ext: DataExtraction)
      ensures this.stmt == stmt && this.preparation == preparation
      ensures this.debugBuild == debugBuild && dataExtraction == ext
    {
      this.stmt := stmt;
      this.preparation := preparation;
      this.debugBuild := debugBuild;
      dataExtraction := ext;
    }

    /** extractBoundImpl<T>: the bound buffer at `pos` must hold a `t`; its content
        is copied out and the extraction always reports a value. */
    method ExtractBound(pos: nat, t: TypeName) returns (found: bool, val: Value)
      requires pos in preparation.values && preparation.values[pos].typeName == t
      ensures found
      ensures Any(t, val) == preparation.values[pos]
    {
      val := preparation.values[pos].content;
      found := true;
    }

    /** extractManualImpl<T>: one SQLGetData call into a zero-initialised `T` of
        `size` bytes. In a debug build a length that fails the assertion as
        written is an assertion violation; an error return code is a
        StatementException; otherwise `val` becomes the fetched value, or 0 for
        NULL, and the result is true either way. On failure `val` is left as it
        was. */
    method ExtractManual(pos: nat, val: int, cType: int, size: nat) returns (r: Result<bool, Error>, newVal: int)
      ensures var reply := stmt.getData(ParamNumber(pos), cType);
        && (debugBuild && !DebugLengthCheckAsWritten(reply.len, size) ==> r == Failure(AssertionViolation))
        && ((!debugBuild || DebugLengthCheckAsWritten(reply.len, size)) && reply.isError ==> r == Failure(StatementError))
        && (r.Success? <==> (!debugBuild || DebugLengthCheckAsWritten(reply.len, size)) && !reply.isError)
        && (r.Success? ==> r.value && newVal == if reply.len == SQL_NULL_DATA then 0 else reply.value)
        && (r.Failure? ==> newVal == val)
    {
      var reply := stmt.getData(ParamNumber(pos), cType);
      if debugBuild && !DebugLengthCheckAsWritten(reply.len, size) {
        return Failure(AssertionViolation), val;
      }
      if reply.isError {
        return Failure(StatementError), val;
      }
      if reply.len == SQL_NULL_DATA {
        newVal := 0;
      } else {
        newVal := reply.value;
      }
      r := Success(true);
    }

    /** setDataExtraction: the extractor and its preparation take the same mode. */
    method SetDataExtraction(ext: DataExtraction)
      modifies this`dataExtraction, preparation`dataExtraction
      ensures dataExtraction == ext && preparation.dataExtraction == ext
      ensures GetDataExtraction() == preparation.dataExtraction
    {
      dataExtraction := ext;
      preparation.dataExtraction := dataExtraction;
    }

    /** getDataExtraction: the extractor's own copy of the mode, which
        SetDataExtraction keeps equal to the preparation's. */
    function GetDataExtraction(): (ext: DataExtraction)
      reads this`dataExtraction
      ensures ext == dataExtraction
    {
      dataExtraction
    }

    /** isNull: not implemented for ODBC; every call throws. */
    method IsNull(pos: nat) returns (r: Result<bool, Error>)
      ensures r == Failure(NotImplemented)
    {
      r := Failure(NotImplemented);
    }
  }

  /** Manually extracting a NULL column. In a release build it succeeds with
      `val` set to 0 and the result true: exactly what a column holding 0
      produces, so the caller cannot tell the two apart. In a debug build the
      length assertion rejects SQL_NULL_DATA before NULL is handled, and `val`
      is left as it was. */
  method ExtractManualNull(e: Extractor, pos: nat, val: int, cType: int, size: nat)
    returns (r: Result<bool, Error>, newVal: int)
    requires e.stmt.getData(ParamNumber(pos), cType).len == SQL_NULL_DATA
    requires !e.stmt.getData(ParamNumber(pos), cType).isError
    requires size <= SQLLEN_MAX
    ensures !e.debugBuild ==> r == Success(true) && newVal == 0
    ensures e.debugBuild ==> r == Failure(AssertionViolation) && newVal == val
  {
    NullDataFailsDebugCheck(size);
    r, newVal := e.ExtractManual(pos, val, cType, size);
  }
}
