# POCO Data connector binders, modelled in Dafny

This project models three small components of the POCO Data library. Each one
turns typed application values into driver calls.

- **The ODBC parameter binder** (`OdbcBinder.Binder`, in `odbc_binder.dfy`).
  Each `bind` overload does five things:
  - chooses a path from the parameter direction;
  - sizes the buffer from parameter metadata, falling back to defaults;
  - computes the initial length/indicator value;
  - records the binding in the binder's tables;
  - issues one `SQLBindParameter` call.

  The tables are the input and output size maps, the vector of heap length
  indicators, the native-timestamp → `DateTime` pairing and the shadow-buffer →
  `std::string` pairing. `synchronize` copies shadow buffers and native
  timestamps back into their destinations, and the destructor frees every block
  the binder allocated. The class holds those tables as Dafny maps and
  sequences. Heap blocks are numbered by an allocation counter. Issued calls go
  to a call log (`calls`), which the driver oracle reads, and destructor frees
  to a ghost release ledger (`freed`). `DriverWrites` stands for the driver
  filling an output buffer when the statement executes.
- **The inline ODBC extractor templates** (`OdbcExtractor.Extractor`, in
  `odbc_extractor.dfy`):
  - bound extraction copies a value out of the preparation;
  - manual extraction makes one `SQLGetData` call and handles NULL;
  - the extraction-mode setter keeps the extractor and its preparation in
    agreement;
  - `isNull` always throws.
- **The inline SQLite binder overloads** (`SqliteBinder`, in
  `sqlite_binder.dfy`). These are pure functions. Each narrow integer, `bool`,
  `char` and `const char*` becomes a call of the native Int32, Int64 or string
  overload.

Shared pieces:
- `common.dfy`: the `Option`/`Result`/`Outcome` types that model exceptions,
  parameter directions, the exception kinds, and NUL-terminated strings.
- `odbc_types.dfy`: the ODBC constants from `sql.h` and `sqlext.h`: `SQL_NTS = -3`,
  `SQL_NULL_DATA = -1`, `SQL_DATA_AT_EXEC = -2` and
  `SQL_LEN_DATA_AT_EXEC(n) = -n - 100`. It also holds the meaning a driver gives a
  length/indicator value, following the `SQLBindParameter` reference (argument
  `StrLen_or_IndPtr`) of the Microsoft ODBC 3.x Programmer's Reference, and the
  `(SQLUSMALLINT) pos + 1` parameter number.

The driver and every metadata lookup are oracles, stored as function-valued
fields:
- `Statement.parameter` for class `Parameter`;
- `Statement.column` for `ODBCColumn`;
- `TypeInfo.getInfo`;
- `Statement.bindParameter` for `SQLBindParameter`;
- `ResultStatement.getData` for `SQLGetData`;
- `Utility.toNative`, `Utility.fromNative` and `Utility.sqlDataType` for
  `Utility::dateTimeSync` and `Utility::sqlDataType`.

A thrown exception becomes a `Fail`/`Failure` result. Out-parameters passed by
reference are returned values.

Where the code and its documentation disagree, the model follows the code.
- `extractManualImpl` sets `val` to 0 on NULL and returns true, although the
  class comment (Extractor.h:65-66) says NULL leaves `val` unchanged and
  returns false.
- `bind(DateTime)` with a direction that is neither in nor out allocates the
  indicator and the native struct, and pairs the struct with its `DateTime`,
  before `toODBCDirection` throws. The model does the same.

Two behaviours of the code that the model reproduces deserve a note.
- An in-out string is bound to a fresh zero-filled shadow buffer
  (Data/ODBC/src/Binder.cpp:107-110), so the value the caller passes in is never
  sent to the driver: `BindString` states that the bound buffer is `Zeros(size)`
  for every out-bound direction, in-out included.
- Under PB_AT_EXEC, `bindNull` stores `SQL_LEN_DATA_AT_EXEC(SQL_NULL_DATA)` = -99
  (Data/ODBC/src/Binder.cpp:226-227), a value a driver reads neither as NULL nor
  as data-at-execution (`NullIndicator`).

## Model

| member | source | states |
|---|---|---|
| OdbcBinder.ToODBCDirection | Data/ODBC/src/Binder.cpp:283-294 | in+out gives SQL_PARAM_INPUT_OUTPUT, in only gives SQL_PARAM_INPUT, out only gives SQL_PARAM_OUTPUT; neither is an IllegalStateException; nothing but the direction is consulted |
| OdbcBinder.DirectionRoundTrip | Data/ODBC/src/Binder.cpp:283-294 | the direction code loses nothing: every bindable direction is recovered from its code, and every code a driver reads back comes from exactly one direction |
| OdbcBinder.Insert | Data/ODBC/src/Binder.cpp:221 | `std::map::insert` adds the key with its value only when it is absent; an entry already present, such as a repeated `(0, 0)` from `bindNull`, keeps its value |
| OdbcBinder.OutStringSize | Data/ODBC/src/Binder.cpp:84-92 | an out-bound string's buffer size is the parameter's column size when the parameter can be described, else DEFAULT_PARAM_SIZE |
| OdbcBinder.TimestampColumn | Data/ODBC/src/Binder.cpp:191-201 | DateTime column size and scale come from the TIMESTAMP type information; with no type information, or no COLUMN_SIZE, both stay 0; a missing MINIMUM_SCALE leaves only the scale 0 |
| OdbcBinder.NullColumn | Data/ODBC/src/Binder.cpp:231-247 | a NULL's column size and scale come from the parameter metadata, else from the column metadata, else they are 0 and 0 |
| OdbcBinder.IndicatorMeanings | Data/ODBC/src/Binder.cpp:120-126 | the initial indicator means NUL-terminated for strings, the byte size for BLOBs (154-160) and DateTime (180-184), NULL data for bindNull (223-229); under PB_AT_EXEC strings and BLOBs announce their size for execution time, DateTime never changes, and the at-exec NULL value -99 means neither NULL nor data-at-execution |
| OdbcBinder.OwnedIdsDistinct | Data/ODBC/src/Binder.cpp:61-74 | under the ownership invariant, the indicators, timestamp structs and shadow buffers taken together name every block the binder allocated exactly once |
| OdbcBinder.LastPairingExists | Data/ODBC/src/Binder.cpp:297-308 | every paired destination has a last pairing, so the synchronization postconditions speak about every destination |
| OdbcBinder.CopyTimestamps | Data/ODBC/src/Binder.cpp:299-302 | after the first loop of `synchronize` every paired DateTime holds its native struct converted back, from its last pairing in address order |
| OdbcBinder.CopyStrings | Data/ODBC/src/Binder.cpp:304-307 | after the second loop every paired string holds its shadow buffer up to the first NUL, from its last pairing in address order |
| OdbcBinder.Binder.constructor | Data/ODBC/src/Binder.cpp:51-58 | a new binder keeps the statement, the binding mode and the type information and owns nothing |
| OdbcBinder.Binder.ParameterSize | Data/ODBC/src/Binder.cpp:265-274 | the input entry when there is one, else the output entry, else NotFoundException |
| OdbcBinder.Binder.PushShadowBuffer | Data/ODBC/src/Binder.cpp:107-110 | an out-bound string gets a fresh zero-filled shadow buffer; it is registered as an output of its size and paired with the caller's string, and the binder's invariants are kept |
| OdbcBinder.Binder.IssueBind | Data/ODBC/src/Binder.cpp:128-140 | one SQLBindParameter call is appended to the calls the driver has received; the driver's error verdict on it is a StatementException (also 162-174, 203-215, 249-261) |
| OdbcBinder.Binder.RegisterInput | Data/ODBC/src/Binder.cpp:115 | inserts caller data or the null pointer into the input sizes without overwriting an existing entry (also 152, 221), and keeps the binder's invariants |
| OdbcBinder.Binder.PushIndicator | Data/ODBC/src/Binder.cpp:120-126 | `new SQLLEN` holding the initial value is appended to the indicators in a fresh block (also 154-160, 181-184, 223-229), and the ownership invariant is kept |
| OdbcBinder.Binder.PushTimestamp | Data/ODBC/src/Binder.cpp:186-189 | a fresh native struct holding the converted DateTime is stored and paired with the caller's DateTime, and the invariants are kept |
| OdbcBinder.Binder.DriverWrites | Data/ODBC/src/Binder.cpp:107-110 | the driver overwriting a shadow buffer keeps its size, changes only that buffer and keeps the binder's invariants |
| OdbcBinder.OutStringReceivesDriverOutput | Data/ODBC/src/Binder.cpp:82-111 | an out-bound string whose shadow buffer the driver fills with a NUL-free `x` shorter than the buffer, terminated or not, holds exactly `x` after `synchronize` (304-307) |
| OdbcBinder.StringIndicator | Data/ODBC/src/Binder.cpp:120-124 | a string's initial indicator reads as NUL-terminated at bind time and as "size bytes at execution time" under PB_AT_EXEC |
| OdbcBinder.BlobIndicator | Data/ODBC/src/Binder.cpp:154-158 | a BLOB's initial indicator reads as its byte count at bind time and as "size bytes at execution time" under PB_AT_EXEC |
| OdbcBinder.NullIndicator | Data/ODBC/src/Binder.cpp:223-227 | a NULL's initial indicator reads as NULL data at bind time; under PB_AT_EXEC it is -99, which reads as neither NULL nor data-at-execution |
| OdbcBinder.Binder.BindString | Data/ODBC/src/Binder.cpp:77-141 | out and in-out take the shadow-buffer path and in-only registers the caller's own data with its size, with no copy; neither throws IllegalStateException before anything is allocated; each successful path appends one indicator, SQL_NTS or SQL_LEN_DATA_AT_EXEC(size), and issues exactly one SQLBindParameter call whose length/indicator argument is that new indicator |
| OdbcBinder.Binder.BindOutString | Data/ODBC/src/Binder.cpp:82-111 | the shadow-buffer path's exact new tables and call: SQL_C_CHAR, SQL_LONGVARCHAR, both sizes equal to the buffer size, and `parameterSize` of the buffer reporting that size |
| OdbcBinder.Binder.BindInString | Data/ODBC/src/Binder.cpp:112-116 | the in-only path registers the caller's string with its length and binds it as SQL_PARAM_INPUT |
| OdbcBinder.Binder.BindBlob | Data/ODBC/src/Binder.cpp:144-175 | any direction other than exactly "in" throws NotImplementedException with no state change; otherwise one input entry, one indicator (the size, or SQL_LEN_DATA_AT_EXEC(size)) and one call: SQL_PARAM_INPUT, SQL_C_BINARY, SQL_LONGVARBINARY, with column size and buffer length both equal to the blob size |
| OdbcBinder.Binder.BindDateTime | Data/ODBC/src/Binder.cpp:178-216 | allocates an indicator holding sizeof(SQL_TIMESTAMP_STRUCT) and a native struct filled from the value and paired with it; then issues one call with the type-information column size and scale, or throws IllegalStateException for a direction that is neither in nor out |
| OdbcBinder.Binder.BindNull | Data/ODBC/src/Binder.cpp:219-262 | inserts `(0, 0)` into the inputs without overwriting, appends a SQL_NULL_DATA indicator (its at-exec form under PB_AT_EXEC) and issues one SQL_PARAM_INPUT call with the fallback column size and scale; metadata failures never abort it |
| OdbcBinder.Binder.BindCharPointer | Data/ODBC/src/Binder.cpp:277-280 | always NotImplementedException |
| OdbcBinder.Binder.Synchronize | Data/ODBC/src/Binder.cpp:297-308 | every paired DateTime and every paired string ends with the value of its last pairing; no buffer and no binder table changes |
| OdbcBinder.SynchronizeAgain | Data/ODBC/src/Binder.cpp:297-308 | synchronizing a second time, with no driver writes in between, changes no destination |
| OdbcBinder.Binder.Destroy | Data/ODBC/src/Binder.cpp:61-74 | frees the indicators, then the timestamp structs, then the shadow buffers; the ledger lists every allocated block exactly once |
| OdbcTypes.ParamNumber | Data/ODBC/src/Binder.cpp:129 | the 16-bit parameter number: below 2^16, equal to `pos + 1` for every position it can express, and wrapping to 0 at `pos = 65535` |
| OdbcTypes.SqlLenDataAtExec | Data/ODBC/src/Binder.cpp:124 | the macro maps every byte count into the data-at-execution range at or below -100, and every negative argument above it |
| OdbcTypes.ParamNumberIsOneBased | Data/ODBC/src/Binder.cpp:129 | the parameter number is `pos + 1` modulo 2^16: positions below 65535 pass 1-based and unchanged, larger ones wrap |
| OdbcTypes.LenDataAtExecRoundTrip | Data/ODBC/src/Binder.cpp:124 | SQL_LEN_DATA_AT_EXEC(n) is read back by the driver as "n bytes at execution time" for every byte count n |
| CStrings.UpToNul | Data/ODBC/src/Binder.cpp:307 | `assign(p, strlen(p))` takes the prefix before the first NUL; it holds no NUL and is followed by one when shorter than the buffer |
| CStrings.Zeros | Data/ODBC/src/Binder.cpp:107 | `calloc` gives a buffer of the requested size holding only NULs |
| CStrings.UpToNulOfTerminated | Data/ODBC/src/Binder.cpp:307 | a string written NUL-terminated is read back exactly, whatever follows the terminator |
| CStrings.WrittenIntoZeroedBuffer | Data/ODBC/src/Binder.cpp:107-110 | a string shorter than its zero-filled shadow buffer, written into its front with or without a terminator, is read back exactly by `synchronize` |
| OdbcExtractor.Extractor.ExtractBound | Data/ODBC/include/Poco/Data/ODBC/Extractor.h:148-154 | requires the stored value's type to be the requested one; copies exactly the stored value and returns true |
| OdbcExtractor.Extractor.ExtractManual | Data/ODBC/include/Poco/Data/ODBC/Extractor.h:156-181 | debug builds reject every length that fails the assertion as written, negative lengths converted to size_t; an error return code is a StatementException; NULL sets `val` to 0 and any other length sets it to the fetched value, and the result is true in both cases; on failure `val` is unchanged |
| OdbcExtractor.ExtractManualNull | Data/ODBC/include/Poco/Data/ODBC/Extractor.h:172-180 | in a release build a NULL column extracts as `val == 0` with result true, so the caller cannot tell it from a stored 0; in a debug build the assertion at :172 fails first and `val` is unchanged |
| OdbcExtractor.Extractor.SetDataExtraction | Data/ODBC/include/Poco/Data/ODBC/Extractor.h:194-203 | after setting a mode, `getDataExtraction()` and the preparation's mode both equal it |
| OdbcExtractor.Extractor.GetDataExtraction | Data/ODBC/include/Poco/Data/ODBC/Extractor.h:200-203 | returns the extractor's own mode, which `setDataExtraction` keeps equal to the preparation's |
| OdbcExtractor.Extractor.IsNull | Data/ODBC/include/Poco/Data/ODBC/Extractor.h:206-209 | always NotImplementedException |
| OdbcExtractor.NullDataFailsDebugCheck | Data/ODBC/include/Poco/Data/ODBC/Extractor.h:172 | the assertion as written (signed length converted to size_t) rejects SQL_NULL_DATA for every type size |
| OdbcExtractor.DebugLengthCheckAsWritten | Data/ODBC/include/Poco/Data/ODBC/Extractor.h:172 | a non-negative length passes iff it is at most the size; a negative length is compared as length + 2^64 |
| OdbcExtractor.DebugLengthCheck | Data/ODBC/include/Poco/Data/ODBC/Extractor.h:172 | the intended signed assertion: every negative indicator passes, and a byte count passes iff it fits in the type |
| OdbcExtractor.DebugLengthCheckCorrected | Data/ODBC/include/Poco/Data/ODBC/Extractor.h:172 | the signed comparison accepts NULL and agrees with the assertion as written on every real byte count |
| SqliteBinder.BindInt8 | Data/SQLite/include/Poco/Data/SQLite/Binder.h:129-133 | Int8 binds as an Int32 with the same numeric value |
| SqliteBinder.BindUInt8 | Data/SQLite/include/Poco/Data/SQLite/Binder.h:136-140 | UInt8 binds as an Int32 with the same numeric value |
| SqliteBinder.BindInt16 | Data/SQLite/include/Poco/Data/SQLite/Binder.h:143-147 | Int16 binds as an Int32 with the same numeric value |
| SqliteBinder.BindUInt16 | Data/SQLite/include/Poco/Data/SQLite/Binder.h:150-154 | UInt16 binds as an Int32 with the same numeric value |
| SqliteBinder.UInt32ToInt32 | Data/SQLite/include/Poco/Data/SQLite/Binder.h:159 | `static_cast<Int32>` keeps the value modulo 2^32 and is non-negative exactly below 2^31 |
| SqliteBinder.Int32ToUInt32 | Data/SQLite/include/Poco/Data/SQLite/Binder.h:159 | the inverse cast also keeps the value modulo 2^32 |
| SqliteBinder.UInt32CastRoundTrip | Data/SQLite/include/Poco/Data/SQLite/Binder.h:157-161 | the UInt32 → Int32 cast and adding 2^32 to negative results are mutually inverse |
| SqliteBinder.UInt32ToInt32Injective | Data/SQLite/include/Poco/Data/SQLite/Binder.h:157-161 | distinct UInt32 values bind as distinct Int32 values |
| SqliteBinder.BindUInt32 | Data/SQLite/include/Poco/Data/SQLite/Binder.h:157-161 | UInt32 `v` binds as Int32 `v` below 2^31, else as `v - 2^32` |
| SqliteBinder.UInt64ToInt64 | Data/SQLite/include/Poco/Data/SQLite/Binder.h:166 | `static_cast<Int64>` keeps the value modulo 2^64 and is non-negative exactly below 2^63 |
| SqliteBinder.Int64ToUInt64 | Data/SQLite/include/Poco/Data/SQLite/Binder.h:166 | the inverse cast also keeps the value modulo 2^64 |
| SqliteBinder.UInt64CastRoundTrip | Data/SQLite/include/Poco/Data/SQLite/Binder.h:164-168 | the UInt64 → Int64 cast and adding 2^64 to negative results are mutually inverse |
| SqliteBinder.UInt64ToInt64Injective | Data/SQLite/include/Poco/Data/SQLite/Binder.h:164-168 | distinct UInt64 values bind as distinct Int64 values |
| SqliteBinder.BindUInt64 | Data/SQLite/include/Poco/Data/SQLite/Binder.h:164-168 | UInt64 `v` binds as Int64 `v` below 2^63, else as `v - 2^64` |
| SqliteBinder.BindBool | Data/SQLite/include/Poco/Data/SQLite/Binder.h:171-175 | `bool` binds as Int32 1 for true and 0 for false |
| SqliteBinder.CharValue | Data/SQLite/include/Poco/Data/SQLite/Binder.h:187 | a `char` widens to its numeric value: the bit pattern itself when `char` is unsigned, the same value modulo 256 in [-128, 127] when it is signed |
| SqliteBinder.BindChar | Data/SQLite/include/Poco/Data/SQLite/Binder.h:185-189 | `char` binds as an Int32 holding the character's numeric value |
| SqliteBinder.BindCString | Data/SQLite/include/Poco/Data/SQLite/Binder.h:192-196 | `const char*` binds as the string of characters before the first NUL: it holds no NUL and, followed by a NUL, is a prefix of the memory pointed at |
| SqliteBinder.BindForwards | Data/SQLite/include/Poco/Data/SQLite/Binder.h:129-196 | every inline overload forwards `pos` and `dir` unchanged and reaches exactly one native overload: Int64 for UInt64, string for `const char*`, Int32 for the rest |

## Left out

- The driver, the metadata classes (`Parameter`, `ODBCColumn`, `TypeInfo`), `Utility::dateTimeSync`, `Utility::sqlDataType`, `Utility::isError` and `Preparation`/`AnyCast` are oracles. Their code is not part of this model.
- The Windows-only `SQLGetDescField` fallback for the out-string size (Data/ODBC/src/Binder.cpp:92-104) is platform-conditional; the model always takes DEFAULT_PARAM_SIZE when the parameter cannot be described.
- DEFAULT_PARAM_SIZE is defined in Binder.h, which is not part of this model, so it is a constructor parameter (`defaultParamSize`).
- Sizes are unbounded naturals: the `(SQLINTEGER)`, `(SQLUINTEGER)` and `(SQLSMALLINT)` truncations of sizes, column sizes and scales are not modelled.
- Addresses passed to the driver are abstract. Caller data is identified by the caller's object (`c_str()` by the string, `rawContent()` by the BLOB), and binder-owned blocks by an allocation counter. Real heap addresses need not grow with allocation order; here they do, so the address order of the `_timestamps` and `_strings` maps is allocation order.
- OdbcBinder.Binder.Synchronize: `strlen` on a shadow buffer holding no NUL would read past it; the model stops at the end of the buffer.
- Dangling `c_str()` pointers and `const_cast` of caller objects are not modelled. The driver's writes are modelled for shadow buffers only (`DriverWrites`); writes into native timestamp structs and into caller data bound as input are not.
- Exception message texts are not modelled, including the repeated "SQLBindParameter(BLOB)" text of the DateTime bind.
- Float paths are floating point and are left out: the SQLite float → double overload (Data/SQLite/include/Poco/Data/SQLite/Binder.h:178-182) and the float and double extracts.
- The SQLite Int32, Int64, double, string, BLOB, DateTime and NULL binds, `checkReturn`, the concrete ODBC `extract` overloads, the chunked manual extraction and `checkDataSize` are declared in these headers but their code is not part of this model.
- Extractor.cpp is not part of this model, so the extraction mode an extractor starts with is a constructor parameter.
- OdbcExtractor.Extractor.ExtractBound: requires a stored value at `pos`; what `Preparation::operator[]` does for a missing position is not part of this model.
- OdbcExtractor.Extractor.ExtractManual: the fetched value is an unbounded integer; the range of `T` is not modelled, only its size in bytes.
- OdbcExtractor.DebugLengthCheckAsWritten: size_t and SQLLEN are 64 bits wide; with a 32-bit size_t a negative length is compared as length + 2^32, and SQL_NULL_DATA fails the assertion just the same.
- SqliteBinder.BindChar: `char` is given as its 8-bit pattern together with the platform's signedness; the model has no separate character type.
- SqliteBinder.BindCString: requires the memory to hold a NUL, as `std::string(const char*)` does; a null pointer is not modelled.
- Concurrency: there is none in these files.

## Findings

| source | as written | input that shows it | evidently intended | confidence | as-written member | corrected member |
|---|---|---|---|---|---|---|
| Data/ODBC/include/Poco/Data/ODBC/Extractor.h:172 | `poco_assert_dbg (len <= sizeof(T))` compares a signed `SQLLEN` with an unsigned `size_t`, so `len` is converted to `size_t` first | a NULL column: the driver sets `len = SQL_NULL_DATA = -1`, which compares as 2^64 - 1 and fails the assertion in every debug build, although line 177 handles exactly this case | compare the signed length, e.g. `len <= (SQLLEN) sizeof(T)`, so that NULL (and any negative indicator) passes | high, not executed | OdbcExtractor.ExtractManualNull | OdbcExtractor.DebugLengthCheckCorrected |
