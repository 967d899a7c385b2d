/** The ODBC parameter binder: turns application values into SQLBindParameter
    calls and owns the length indicators, shadow string buffers and native
    timestamp structs those calls point at. */
module OdbcBinder {
  import opened Wrappers
  import opened DataCommon
  import opened CStrings
  import opened OdbcTypes

  /** When parameter data reaches the driver: at bind time (PB_IMMEDIATE) or at
      execution time (PB_AT_EXEC). */
  datatype ParameterBinding = PB_IMMEDIATE | PB_AT_EXEC

  /** A caller's std::string; an out-bound bind writes back into it. */
  class StringVar {
    var value: string
    constructor (s: string)
      ensures value == s
    {
      value := s;
    }
  }

  /** A caller's Poco::Data::BLOB. */
  class BlobVar {
    var content: seq<byte>
    constructor (bytes: seq<byte>)
      ensures content == bytes
    {
      content := bytes;
    }
  }

  /** A caller's Poco::DateTime; synchronization writes back into it. */
  class DateTimeVar {
    var value: DateTime
    constructor (dt: DateTime)
      ensures value == dt
    {
      value := dt;
    }
  }

  /** An address handed to the driver: the null pointer, the character data of a
      caller's string, the raw content of a caller's BLOB, or a block this binder
      allocated (identified by the allocation counter's value). */
  datatype Addr = NullAddr | StringData(str: StringVar) | BlobData(blob: BlobVar) | Heap(id: nat)

  /** A heap-allocated SQLLEN and the value stored in it at bind time. */
  datatype LengthIndicator = LengthIndicator(addr: nat, value: int)

  /** The arguments of one SQLBindParameter call, after the statement handle. */
  datatype BindCall = BindCall(
    parameterNumber: nat,
    inputOutputType: int,
    valueType: int,
    parameterType: int,
    columnSize: int,
    decimalDigits: int,
    parameterValue: Addr,
    bufferLength: int,
    strLenOrInd: nat)

  /** Parameter metadata (class Parameter); its constructor throws when the driver cannot describe the parameter. */
  datatype ParamInfo = ParamInfo(columnSize: nat, decimalDigits: int)

  /** Column metadata (class ODBCColumn); its constructor throws when the driver cannot describe the column. */
  datatype ColumnInfo = ColumnInfo(length: int, precision: int)

  /** The driver behind the statement handle, as oracles: the two metadata
      lookups by position, and whether SQLBindParameter succeeds, given how many
      bind calls came before and the call's arguments. */
  datatype Statement = Statement(
    parameter: nat -> Option<ParamInfo>,
    column: nat -> Option<ColumnInfo>,
    bindParameter: (nat, BindCall) -> bool)

  /** Data type information (class TypeInfo): `getInfo` throws NotFoundException
      when it has no entry for the type and property. */
  datatype TypeInfo = TypeInfo(getInfo: (int, string) -> Option<int>)

  /** The helpers of ODBC::Utility the binder calls: the two directions of
      `dateTimeSync` and `sqlDataType`. */
  datatype Utility = Utility(
    toNative: DateTime -> TimestampStruct,
    fromNative: TimestampStruct -> DateTime,
    sqlDataType: int -> int)

  /** The InputOutputType for a direction; a direction that is neither in nor out
      is an IllegalStateException. Nothing but the direction is consulted. */
  function ToODBCDirection(dir: Direction): (r: Result<int, Error>)
    ensures r.Success? <==> dir.inBound || dir.outBound
    ensures r.Failure? ==> r.error == IllegalState
    ensures dir.inBound && dir.outBound ==> r == Success(SQL_PARAM_INPUT_OUTPUT)
    ensures dir.inBound && !dir.outBound ==> r == Success(SQL_PARAM_INPUT)
    ensures !dir.inBound && dir.outBound ==> r == Success(SQL_PARAM_OUTPUT)
  {
    var isIn := dir.inBound;
    var isOut := dir.outBound;
    if isIn && isOut then Success(SQL_PARAM_INPUT_OUTPUT)
    else if isIn then Success(SQL_PARAM_INPUT)
    else if isOut then Success(SQL_PARAM_OUTPUT)
    else Failure(IllegalState)
  }

  /** The direction a driver reads back from an InputOutputType. */
  function FromODBCDirection(ioType: int): Option<Direction>
  {
    if ioType == SQL_PARAM_INPUT_OUTPUT then Some(PD_IN_OUT)
    else if ioType == SQL_PARAM_INPUT then Some(PD_IN)
    else if ioType == SQL_PARAM_OUTPUT then Some(PD_OUT)
    else None
  }

  /** The direction code loses nothing: every bindable direction is recovered
      from its code, and every code the driver understands comes from exactly
      one direction. */
  lemma DirectionRoundTrip(dir: Direction, ioType: int)
    ensures ToODBCDirection(dir).Success? ==> FromODBCDirection(ToODBCDirection(dir).value) == Some(dir)
    ensures FromODBCDirection(ioType).Some? ==> ToODBCDirection(FromODBCDirection(ioType).value) == Success(ioType)
  {
  }

  /** `std::map::insert`: a key already present keeps its value. */
  function Insert<K, V>(m: map<K, V>, k: K, v: V): (r: map<K, V>)
    ensures r.Keys == m.Keys + {k}
    ensures forall j :: j in m ==> r[j] == m[j]
    ensures k !in m ==> r[k] == v
  {
    if k in m then m else m[k := v]
  }

  /** The size of an out-bound string's shadow buffer: the parameter's declared
      column size, or the default when the parameter cannot be described. */
  function OutStringSize(stmt: Statement, defaultSize: nat, pos: nat): (size: nat)
    ensures stmt.parameter(pos).Some? ==> size == stmt.parameter(pos).value.columnSize
    ensures stmt.parameter(pos).None? ==> size == defaultSize
  {
    match stmt.parameter(pos)
    case Some(p) => p.columnSize
    case None => defaultSize
  }

  /** Column size and scale for a DateTime parameter, from the TIMESTAMP type
      information. A missing COLUMN_SIZE leaves both 0; a missing MINIMUM_SCALE
      after a found COLUMN_SIZE leaves only the scale 0. */
  function TimestampColumn(typeInfo: Option<TypeInfo>): (r: (int, int))
    ensures typeInfo.None? ==> r == (0, 0)
    ensures typeInfo.Some? ==> var t := typeInfo.value;
      && r.0 == t.getInfo(SQL_TYPE_TIMESTAMP, "COLUMN_SIZE").GetOr(0)
      && r.1 == (if t.getInfo(SQL_TYPE_TIMESTAMP, "COLUMN_SIZE").Some? then t.getInfo(SQL_TYPE_TIMESTAMP, "MINIMUM_SCALE").GetOr(0) else 0)
  {
    match typeInfo
    case None => (0, 0)
    case Some(t) =>
      match t.getInfo(SQL_TYPE_TIMESTAMP, "COLUMN_SIZE")
      case None => (0, 0)
      case Some(colSize) =>
        match t.getInfo(SQL_TYPE_TIMESTAMP, "MINIMUM_SCALE")
        case None => (colSize, 0)
        case Some(decDigits) => (colSize, decDigits)
  }

  /** Column size and scale for a NULL parameter: from the parameter's metadata,
      else from the column's, else 0 and 0. */
  function NullColumn(stmt: Statement, pos: nat): (r: (int, int))
    ensures stmt.parameter(pos).Some? ==>
      r == (stmt.parameter(pos).value.columnSize, stmt.parameter(pos).value.decimalDigits)
    ensures stmt.parameter(pos).None? && stmt.column(pos).Some? ==>
      r == (stmt.column(pos).value.length, stmt.column(pos).value.precision)
    ensures stmt.parameter(pos).None? && stmt.column(pos).None? ==> r == (0, 0)
  {
    match stmt.parameter(pos)
    case Some(p) => (p.columnSize, p.decimalDigits)
    case None =>
      match stmt.column(pos)
      case Some(c) => (c.length, c.precision)
      case None => (0, 0)
  }

  /** The initial indicator of a string: NUL-terminated at bind time, or its
      size announced for execution time. */
  function StringIndicator(binding: ParameterBinding, size: nat): (ind: int)
    ensures binding == PB_IMMEDIATE ==> Classify(ind) == NullTerminated
    ensures binding == PB_AT_EXEC ==> Classify(ind) == DataAtExecLength(size)
  {
    if binding == PB_AT_EXEC then SqlLenDataAtExec(size) else SQL_NTS
  }

  /** The initial indicator of a BLOB: its byte count at bind time, or that
      count announced for execution time. */
  function BlobIndicator(binding: ParameterBinding, size: nat): (ind: int)
    ensures binding == PB_IMMEDIATE ==> Classify(ind) == OctetLength(size)
    ensures binding == PB_AT_EXEC ==> Classify(ind) == DataAtExecLength(size)
  {
    if binding == PB_AT_EXEC then SqlLenDataAtExec(size) else size
  }

  /** The initial indicator of a NULL parameter: SQL_NULL_DATA at bind time;
      under PB_AT_EXEC the macro applied to SQL_NULL_DATA, which is -99 and
      reads as neither NULL nor data-at-execution. */
  function NullIndicator(binding: ParameterBinding): (ind: int)
    ensures binding == PB_IMMEDIATE ==> Classify(ind) == NullData
    ensures binding == PB_AT_EXEC ==> Classify(ind) == Other(-99)
  {
    if binding == PB_AT_EXEC then SqlLenDataAtExec(SQL_NULL_DATA) else SQL_NULL_DATA
  }

  /** What the driver reads from each initial indicator value: strings are
      NUL-terminated, BLOBs and timestamps carry their byte size, NULLs are
      SQL_NULL_DATA; under PB_AT_EXEC strings and BLOBs announce their size for
      execution time, while the timestamp indicator never changes. The at-exec
      value for NULL, SQL_LEN_DATA_AT_EXEC(SQL_NULL_DATA) = -99, lies outside
      both the null sentinel and the data-at-execution range. */
  lemma IndicatorMeanings(size: nat)
    ensures Classify(StringIndicator(PB_IMMEDIATE, size)) == NullTerminated
    ensures Classify(StringIndicator(PB_AT_EXEC, size)) == DataAtExecLength(size)
    ensures Classify(BlobIndicator(PB_IMMEDIATE, size)) == OctetLength(size)
    ensures Classify(BlobIndicator(PB_AT_EXEC, size)) == DataAtExecLength(size)
    ensures Classify(TIMESTAMP_STRUCT_SIZE) == OctetLength(16)
    ensures Classify(NullIndicator(PB_IMMEDIATE)) == NullData
    ensures Classify(NullIndicator(PB_AT_EXEC)) == Other(-99)
  {
    LenDataAtExecRoundTrip(size);
  }

  /** The first components of a sequence of pairs: the keys of an ordered map. */
  function Keys<T>(pairs: seq<(nat, T)>): (ks: seq<nat>)
    ensures |ks| == |pairs|
    ensures forall i :: 0 <= i < |pairs| ==> ks[i] == pairs[i].0
  {
    seq(|pairs|, i requires 0 <= i < |pairs| => pairs[i].0)
  }

  function Addrs(inds: seq<LengthIndicator>): (ids: seq<nat>)
    ensures |ids| == |inds|
    ensures forall i :: 0 <= i < |inds| ==> ids[i] == inds[i].addr
  {
    seq(|inds|, i requires 0 <= i < |inds| => inds[i].addr)
  }

  ghost predicate Increasing(s: seq<nat>)
  {
    forall i, j :: 0 <= i < j < |s| ==> s[i] < s[j]
  }

  /** No element of `a` occurs in `b`. */
  ghost predicate Separate(a: seq<nat>, b: seq<nat>)
  {
    forall x :: x in a ==> x !in b
  }

  ghost predicate NoDuplicates(s: seq<nat>)
  {
    forall i, j :: 0 <= i < j < |s| ==> s[i] != s[j]
  }

  /** The ownership invariant on block ids: the indicators, the timestamp structs
      and the shadow buffers are each listed in allocation order, no block is
      listed twice, and the listed blocks are exactly the `next` blocks drawn. */
  ghost predicate OwnedIds(inds: seq<nat>, structs: seq<nat>, bufs: seq<nat>, next: nat)
  {
    && Increasing(inds) && Increasing(structs) && Increasing(bufs)
    && Separate(inds, structs) && Separate(inds, bufs) && Separate(structs, bufs)
    && (forall x: nat :: (x in inds || x in structs || x in bufs) <==> x < next)
  }

  lemma AppendFresh(s: seq<nat>, n: nat)
    requires Increasing(s) && forall x :: x in s ==> x < n
    ensures Increasing(s + [n])
  {
    forall i, j | 0 <= i < j < |s + [n]| ensures (s + [n])[i] < (s + [n])[j] {
      if j == |s| {
        assert (s + [n])[i] == s[i] && s[i] in s;
      } else {
        assert (s + [n])[i] == s[i] && (s + [n])[j] == s[j];
      }
    }
  }

  /** Drawing block `next` for a new length indicator keeps the ownership invariant. */
  lemma FreshIndicator(inds: seq<nat>, structs: seq<nat>, bufs: seq<nat>, next: nat)
    requires OwnedIds(inds, structs, bufs, next)
    ensures OwnedIds(inds + [next], structs, bufs, next + 1)
  {
    AppendFresh(inds, next);
  }

  /** Drawing block `next` for a new timestamp struct keeps the ownership invariant. */
  lemma FreshStruct(inds: seq<nat>, structs: seq<nat>, bufs: seq<nat>, next: nat)
    requires OwnedIds(inds, structs, bufs, next)
    ensures OwnedIds(inds, structs + [next], bufs, next + 1)
  {
    AppendFresh(structs, next);
  }

  /** Drawing block `next` for a new shadow buffer keeps the ownership invariant. */
  lemma FreshBuffer(inds: seq<nat>, structs: seq<nat>, bufs: seq<nat>, next: nat)
    requires OwnedIds(inds, structs, bufs, next)
    ensures OwnedIds(inds, structs, bufs + [next], next + 1)
  {
    AppendFresh(bufs, next);
  }

  lemma IncreasingNoDuplicates(s: seq<nat>)
    requires Increasing(s)
    ensures NoDuplicates(s)
  {
  }

  lemma {:induction false} ConcatNoDuplicates(a: seq<nat>, b: seq<nat>)
    requires NoDuplicates(a) && NoDuplicates(b) && Separate(a, b)
    ensures NoDuplicates(a + b)
  {
    forall i, j | 0 <= i < j < |a + b|
      ensures (a + b)[i] != (a + b)[j]
    {
      if j < |a| {
        assert (a + b)[i] == a[i] && (a + b)[j] == a[j];
      } else if i < |a| {
        assert (a + b)[i] == a[i] && (a + b)[j] == b[j - |a|];
        assert a[i] in a && b[j - |a|] in b;
      } else {
        assert (a + b)[i] == b[i - |a|] && (a + b)[j] == b[j - |a|];
      }
    }
  }

  /** Under the ownership invariant the three lists, concatenated, name every
      block drawn exactly once. */
  lemma {:induction false} OwnedIdsDistinct(inds: seq<nat>, structs: seq<nat>, bufs: seq<nat>, next: nat)
    requires OwnedIds(inds, structs, bufs, next)
    ensures NoDuplicates(inds + structs + bufs)
    ensures forall x: nat :: x in inds + structs + bufs <==> x < next
  {
    IncreasingNoDuplicates(inds);
    IncreasingNoDuplicates(structs);
    IncreasingNoDuplicates(bufs);
    ConcatNoDuplicates(inds, structs);
    forall x | x in inds + structs ensures x !in bufs {
      assert x in inds || x in structs;
    }
    ConcatNoDuplicates(inds + structs, bufs);
  }

  /** Whether pair `i` is the last of the first `n` pairs with its destination. */
  ghost predicate LastUpTo<T>(pairs: seq<(nat, T)>, i: nat, n: nat)
    requires i < n <= |pairs|
  {
    forall j :: i < j < n ==> pairs[j].1 != pairs[i].1
  }

  /** A pairing that is last among the first n + 1 pairs is last among the
      first n, and pair n does not share its destination. */
  lemma LastUpToShrinks<T>(pairs: seq<(nat, T)>, j: nat, n: nat)
    requires j < n < |pairs| && LastUpTo(pairs, j, n + 1)
    ensures LastUpTo(pairs, j, n) && pairs[n].1 != pairs[j].1
  {
  }

  /** The index of the last pair with destination `d`, if any. */
  function LastIndex<T(==)>(pairs: seq<(nat, T)>, d: T): (r: Option<nat>)
    ensures r.Some? ==> r.value < |pairs| && pairs[r.value].1 == d && LastUpTo(pairs, r.value, |pairs|)
    ensures r.None? ==> forall i :: 0 <= i < |pairs| ==> pairs[i].1 != d
    decreases |pairs|
  {
    if pairs == [] then None
    else if pairs[|pairs| - 1].1 == d then Some(|pairs| - 1)
    else LastIndex(pairs[..|pairs| - 1], d)
  }

  lemma KeysAppend<T>(pairs: seq<(nat, T)>, p: (nat, T))
    ensures Keys(pairs + [p]) == Keys(pairs) + [p.0]
  {
  }

  /** Every DateTime in `ts` holds the converted native struct of its last pairing. */
  ghost predicate TimestampsSynced(ts: seq<(nat, DateTimeVar)>, structs: map<nat, TimestampStruct>,
                                   fromNative: TimestampStruct -> DateTime)
    reads set j | 0 <= j < |ts| :: ts[j].1
  {
    forall j :: 0 <= j < |ts| && LastUpTo(ts, j, |ts|) ==>
      ts[j].0 in structs && ts[j].1.value == fromNative(structs[ts[j].0])
  }

  /** Every string in `strs` holds the content of its last pairing's shadow
      buffer up to the first NUL. */
  ghost predicate StringsSynced(strs: seq<(nat, StringVar)>, bufs: map<nat, seq<char>>)
    reads set j | 0 <= j < |strs| :: strs[j].1
  {
    forall j :: 0 <= j < |strs| && LastUpTo(strs, j, |strs|) ==>
      strs[j].0 in bufs && strs[j].1.value == UpToNul(bufs[strs[j].0])
  }

  /** Every destination has a last pairing, so the two predicates above speak
      about every destination. */
  lemma LastPairingExists<T>(pairs: seq<(nat, T)>, i: nat)
    requires i < |pairs|
    ensures exists j :: i <= j < |pairs| && pairs[j].1 == pairs[i].1 && LastUpTo(pairs, j, |pairs|)
  {
    var j := LastIndex(pairs, pairs[i].1).value;
  }

  /** The first loop of `synchronize`: every paired DateTime receives its native
      struct, converted back; the last pairing of a DateTime wins. */
  method CopyTimestamps(ts: seq<(nat, DateTimeVar)>, structs: map<nat, TimestampStruct>,
                        fromNative: TimestampStruct -> DateTime)
    requires forall j :: 0 <= j < |ts| ==> ts[j].0 in structs
    modifies set j | 0 <= j < |ts| :: ts[j].1
    ensures TimestampsSynced(ts, structs, fromNative)
  {
    var i := 0;
    while i < |ts|
      invariant 0 <= i <= |ts|
      invariant forall j :: 0 <= j < i && LastUpTo(ts, j, i) ==>
        ts[j].1.value == fromNative(structs[ts[j].0])
    {
      label before:
      var dest := ts[i].1;
      dest.value := fromNative(structs[ts[i].0]);
      forall j | 0 <= j < i + 1 && LastUpTo(ts, j, i + 1)
        ensures ts[j].1.value == fromNative(structs[ts[j].0])
      {
        if j < i {
          LastUpToShrinks(ts, j, i);
          assert old@before(ts[j].1.value) == ts[j].1.value;
        }
      }
      i := i + 1;
    }
  }

  /** The second loop of `synchronize`: every paired string receives its shadow
      buffer up to the first NUL; the last pairing of a string wins. */
  method CopyStrings(strs: seq<(nat, StringVar)>, bufs: map<nat, seq<char>>)
    requires forall j :: 0 <= j < |strs| ==> strs[j].0 in bufs
    modifies set j | 0 <= j < |strs| :: strs[j].1
    ensures StringsSynced(strs, bufs)
  {
    var i := 0;
    while i < |strs|
      invariant 0 <= i <= |strs|
      invariant forall j :: 0 <= j < i && LastUpTo(strs, j, i) ==>
        strs[j].1.value == UpToNul(bufs[strs[j].0])
    {
      label before:
      var dest := strs[i].1;
      dest.value := UpToNul(bufs[strs[i].0]);
      forall j | 0 <= j < i + 1 && LastUpTo(strs, j, i + 1)
        ensures strs[j].1.value == UpToNul(bufs[strs[j].0])
      {
        if j < i {
          LastUpToShrinks(strs, j, i);
          assert old@before(strs[j].1.value) == strs[j].1.value;
        }
      }
      i := i + 1;
    }
  }

  /** The registration invariant on the binder's tables: the shadow buffers and
      the native structs are exactly the paired blocks, every output is a shadow
      buffer registered with its own size, and no input is a block of the binder. */
  ghost predicate RegisteredMaps(strKeys: seq<nat>, tsKeys: seq<nat>, bufs: map<nat, seq<char>>,
                                 structs: map<nat, TimestampStruct>, outs: map<Addr, nat>, ins: map<Addr, nat>)
  {
    && (forall k :: k in bufs <==> k in strKeys)
    && (forall k :: k in structs <==> k in tsKeys)
    && (forall a :: a in outs ==> a.Heap? && a.id in bufs)
    && (forall k :: k in bufs ==> Heap(k) in outs && outs[Heap(k)] == |bufs[k]|)
    && (forall a :: a in ins ==> !a.Heap?)
  }

  /** Registering a new zero-filled shadow buffer keeps the registration invariant. */
  lemma BufferRegistered(strKeys: seq<nat>, tsKeys: seq<nat>, bufs: map<nat, seq<char>>,
                         structs: map<nat, TimestampStruct>, outs: map<Addr, nat>, ins: map<Addr, nat>,
                         buf: nat, size: nat)
    requires RegisteredMaps(strKeys, tsKeys, bufs, structs, outs, ins) && buf !in strKeys
    ensures RegisteredMaps(strKeys + [buf], tsKeys, bufs[buf := Zeros(size)], structs, outs[Heap(buf) := size], ins)
    ensures Heap(buf) !in ins
  {
  }

  /** Pairing a new native struct keeps the registration invariant. */
  lemma StructRegistered(strKeys: seq<nat>, tsKeys: seq<nat>, bufs: map<nat, seq<char>>,
                         structs: map<nat, TimestampStruct>, outs: map<Addr, nat>, ins: map<Addr, nat>,
                         ts: nat, native: TimestampStruct)
    requires RegisteredMaps(strKeys, tsKeys, bufs, structs, outs, ins)
    ensures RegisteredMaps(strKeys, tsKeys + [ts], bufs, structs[ts := native], outs, ins)
  {
  }

  /** Registering caller data or the null pointer as an input keeps the registration invariant. */
  lemma InputRegistered(strKeys: seq<nat>, tsKeys: seq<nat>, bufs: map<nat, seq<char>>,
                        structs: map<nat, TimestampStruct>, outs: map<Addr, nat>, ins: map<Addr, nat>,
                        addr: Addr, size: nat)
    requires RegisteredMaps(strKeys, tsKeys, bufs, structs, outs, ins) && !addr.Heap?
    ensures RegisteredMaps(strKeys, tsKeys, bufs, structs, outs, Insert(ins, addr, size))
  {
  }

  class Binder {
    const stmt: Statement
    const paramBinding: ParameterBinding
    const typeInfo: Option<TypeInfo>
    const utility: Utility
    /** DEFAULT_PARAM_SIZE, the shadow-buffer size used when parameter metadata is unavailable. */
    const defaultParamSize: nat

    /** Input and output buffer sizes, keyed by the address handed to the driver. */
    var inParams: map<Addr, nat>
    var outParams: map<Addr, nat>
    /** Every length indicator allocated, in allocation order. */
    var lengthIndicator: seq<LengthIndicator>
    /** Native timestamp struct -> caller's DateTime, ordered by struct address. */
    var timestamps: seq<(nat, DateTimeVar)>
    /** Shadow buffer -> caller's string, ordered by buffer address. */
    var strings: seq<(nat, StringVar)>
    /** Contents of the native timestamp structs and of the shadow buffers. */
    var timestampStructs: map<nat, TimestampStruct>
    var stringBuffers: map<nat, seq<char>>

    /** Allocation counter: block `n` is the n-th block this binder allocated. */
    var nextAddr: nat
    /** The SQLBindParameter calls the driver has received through this binder;
        the driver's verdict on a call may depend on how many came before. */
    var calls: seq<BindCall>
    /** Release ledger: the blocks freed by the destructor, in order. */
    ghost var freed: seq<nat>
    ghost var destroyed: bool

    /** Every block this binder owns: indicators, timestamp structs, shadow buffers. */
    function Allocations(): seq<nat>
      reads this`lengthIndicator, this`timestamps, this`strings
    {
      Addrs(lengthIndicator) + Keys(timestamps) + Keys(strings)
    }

    function StringDests(): set<StringVar>
      reads this`strings
    {
      set i | 0 <= i < |strings| :: strings[i].1
    }

    function DateTimeDests(): set<DateTimeVar>
      reads this`timestamps
    {
      set i | 0 <= i < |timestamps| :: timestamps[i].1
    }

    ghost predicate Owned()
      reads this`lengthIndicator, this`timestamps, this`strings, this`nextAddr
    {
      OwnedIds(Addrs(lengthIndicator), Keys(timestamps), Keys(strings), nextAddr)
    }

    ghost predicate Registered()
      reads this`timestamps, this`strings, this`timestampStructs, this`stringBuffers,
            this`outParams, this`inParams
    {
      RegisteredMaps(Keys(strings), Keys(timestamps), stringBuffers, timestampStructs, outParams, inParams)
    }

    ghost predicate Valid()
      reads this`lengthIndicator, this`timestamps, this`strings, this`nextAddr,
            this`timestampStructs, this`stringBuffers, this`outParams, this`inParams,
            this`freed, this`destroyed
    {
      Owned() && Registered() && (!destroyed ==> freed == [])
    }

    constructor (stmt: Statement, paramBinding: ParameterBinding, typeInfo: Option<TypeInfo>,
                 utility: Utility, defaultParamSize: nat)
      ensures Valid() && !destroyed
      ensures this.stmt == stmt && this.paramBinding == paramBinding && this.typeInfo == typeInfo
      ensures this.utility == utility && this.defaultParamSize == defaultParamSize
      ensures inParams == map[] && outParams == map[] && lengthIndicator == []
      ensures timestamps == [] && strings == [] && timestampStructs == map[] && stringBuffers == map[]
      ensures nextAddr == 0 && calls == [] && freed == []
    {
      this.stmt := stmt;
      this.paramBinding := paramBinding;
      this.typeInfo := typeInfo;
      this.utility := utility;
      this.defaultParamSize := defaultParamSize;
      inParams, outParams, lengthIndicator := map[], map[], [];
      timestamps, strings, timestampStructs, stringBuffers := [], [], map[], map[];
      nextAddr, calls, freed, destroyed := 0, [], [], false;
    }

    /** The size registered for an address: the input entry if there is one, else
        the output entry, else NotFoundException. */
    function ParameterSize(addr: Addr): (r: Result<nat, Error>)
      reads this`inParams, this`outParams
      ensures r.Success? <==> addr in inParams || addr in outParams
      ensures addr in inParams ==> r == Success(inParams[addr])
      ensures addr !in inParams && addr in outParams ==> r == Success(outParams[addr])
      ensures r.Failure? ==> r.error == NotFound
    {
      if addr in inParams then Success(inParams[addr])
      else if addr in outParams then Success(outParams[addr])
      else Failure(NotFound)
    }

    /** The driver's verdict on the most recent SQLBindParameter call: a
        StatementException when it reports an error. */
    function LastVerdict(): Outcome<Error>
      reads this`calls
      requires calls != []
    {
      if stmt.bindParameter(|calls| - 1, calls[|calls| - 1]) then Pass else Fail(StatementError)
    }

    /** Issues one SQLBindParameter call and records it. */
    method IssueBind(call: BindCall) returns (r: Outcome<Error>)
      modifies this`calls
      ensures calls == old(calls) + [call]
      ensures r == if stmt.bindParameter(|old(calls)|, call) then Pass else Fail(StatementError)
      ensures r == LastVerdict()
    {
      var ok := stmt.bindParameter(|calls|, call);
      calls := calls + [call];
      r := if ok then Pass else Fail(StatementError);
    }

    /** Registers caller data, or the null pointer, as an input of `size` bytes. */
    method RegisterInput(addr: Addr, size: nat)
      requires Valid() && !addr.Heap?
      modifies this`inParams
      ensures Valid()
      ensures inParams == Insert(old(inParams), addr, size)
    {
      InputRegistered(Keys(strings), Keys(timestamps), stringBuffers, timestampStructs, outParams, inParams, addr, size);
      inParams := Insert(inParams, addr, size);
    }

    /** `new SQLLEN`: appends an indicator in block `nextAddr`. */
    method PushIndicator(value: int) returns (ind: LengthIndicator)
      requires Valid()
      modifies this`lengthIndicator, this`nextAddr
      ensures Valid()
      ensures ind == LengthIndicator(old(nextAddr), value)
      ensures lengthIndicator == old(lengthIndicator) + [ind]
      ensures nextAddr == old(nextAddr) + 1
    {
      ind := LengthIndicator(nextAddr, value);
      FreshIndicator(Addrs(lengthIndicator), Keys(timestamps), Keys(strings), nextAddr);
      assert Addrs(lengthIndicator + [ind]) == Addrs(lengthIndicator) + [ind.addr];
      lengthIndicator := lengthIndicator + [ind];
      nextAddr := nextAddr + 1;
    }

    /** `calloc(size, 1)`: a zero-filled shadow buffer in block `nextAddr`,
        registered as an output of that size and paired with `dest`. */
    method PushShadowBuffer(size: nat, dest: StringVar) returns (buf: nat)
      requires Valid()
      modifies this`stringBuffers, this`outParams, this`strings, this`nextAddr
      ensures Valid() && ParameterSize(Heap(buf)) == Success(size)
      ensures buf == old(nextAddr) && nextAddr == old(nextAddr) + 1
      ensures stringBuffers == old(stringBuffers)[buf := Zeros(size)]
      ensures outParams == old(outParams)[Heap(buf) := size]
      ensures strings == old(strings) + [(buf, dest)]
    {
      buf := nextAddr;
      FreshBuffer(Addrs(lengthIndicator), Keys(timestamps), Keys(strings), nextAddr);
      KeysAppend(strings, (buf, dest));
      BufferRegistered(Keys(strings), Keys(timestamps), stringBuffers, timestampStructs, outParams, inParams, buf, size);
      stringBuffers := stringBuffers[buf := Zeros(size)];
      outParams := outParams[Heap(buf) := size];
      strings := strings + [(buf, dest)];
      nextAddr := nextAddr + 1;
    }

    /** `new SQL_TIMESTAMP_STRUCT`: a native struct in block `nextAddr`, filled
        from `dest` and paired with it. */
    method PushTimestamp(dest: DateTimeVar) returns (ts: nat)
      requires Valid()
      modifies this`timestampStructs, this`timestamps, this`nextAddr
      ensures Valid()
      ensures ts == old(nextAddr) && nextAddr == old(nextAddr) + 1
      ensures timestampStructs == old(timestampStructs)[ts := utility.toNative(dest.value)]
      ensures timestamps == old(timestamps) + [(ts, dest)]
    {
      ts := nextAddr;
      FreshStruct(Addrs(lengthIndicator), Keys(timestamps), Keys(strings), nextAddr);
      KeysAppend(timestamps, (ts, dest));
      StructRegistered(Keys(strings), Keys(timestamps), stringBuffers, timestampStructs, outParams, inParams,
                       ts, utility.toNative(dest.value));
      timestampStructs := timestampStructs[ts := utility.toNative(dest.value)];
      timestamps := timestamps + [(ts, dest)];
      nextAddr := nextAddr + 1;
    }

    /** bind(pos, std::string, dir). Out and in-out strings get a zero-filled
        shadow buffer registered as an output; in-only strings register the
        caller's own data; neither direction throws before anything is allocated. */
    method BindString(pos: nat, val: StringVar, dir: Direction) returns (r: Outcome<Error>)
      requires Valid() && !destroyed
      modifies this`inParams, this`outParams, this`stringBuffers, this`strings,
               this`lengthIndicator, this`nextAddr, this`calls
      ensures Valid()
      ensures !dir.inBound && !dir.outBound ==>
        && r == Fail(IllegalState)
        && unchanged(this`inParams, this`outParams, this`stringBuffers, this`strings,
                     this`lengthIndicator, this`nextAddr, this`calls)
      ensures dir.outBound ==>
        var size := OutStringSize(stmt, defaultParamSize, pos);
        var buf := old(nextAddr);
        && outParams == old(outParams)[Heap(buf) := size]
        && stringBuffers == old(stringBuffers)[buf := Zeros(size)]
        && strings == old(strings) + [(buf, val)]
        && inParams == old(inParams)
        && nextAddr == old(nextAddr) + 2
        && lengthIndicator == old(lengthIndicator) + [LengthIndicator(buf + 1, StringIndicator(paramBinding, size))]
        && calls == old(calls) + [BindCall(ParamNumber(pos), ToODBCDirection(dir).value, SQL_C_CHAR,
                                           SQL_LONGVARCHAR, size, 0, Heap(buf), size, buf + 1)]
        && ParameterSize(Heap(buf)) == Success(size)
      ensures dir.inBound && !dir.outBound ==>
        var size := |val.value|;
        && inParams == Insert(old(inParams), StringData(val), size)
        && outParams == old(outParams) && stringBuffers == old(stringBuffers) && strings == old(strings)
        && nextAddr == old(nextAddr) + 1
        && lengthIndicator == old(lengthIndicator) + [LengthIndicator(old(nextAddr), StringIndicator(paramBinding, size))]
        && calls == old(calls) + [BindCall(ParamNumber(pos), SQL_PARAM_INPUT, SQL_C_CHAR,
                                           SQL_LONGVARCHAR, size, 0, StringData(val), size, old(nextAddr))]
      ensures dir.inBound || dir.outBound ==>
        r == LastVerdict()
    {
      if dir.outBound {
        r := BindOutString(pos, val, dir);
      } else if dir.inBound {
        r := BindInString(pos, val);
      } else {
        r := Fail(IllegalState);
      }
    }

    /** The shadow-buffer path of bind(pos, std::string, dir). */
    method BindOutString(pos: nat, val: StringVar, dir: Direction) returns (r: Outcome<Error>)
      requires Valid() && !destroyed && dir.outBound
      modifies this`outParams, this`stringBuffers, this`strings,
               this`lengthIndicator, this`nextAddr, this`calls
      ensures Valid()
      ensures
        var size := OutStringSize(stmt, defaultParamSize, pos);
        var buf := old(nextAddr);
        && outParams == old(outParams)[Heap(buf) := size]
        && stringBuffers == old(stringBuffers)[buf := Zeros(size)]
        && strings == old(strings) + [(buf, val)]
        && nextAddr == old(nextAddr) + 2
        && lengthIndicator == old(lengthIndicator) + [LengthIndicator(buf + 1, StringIndicator(paramBinding, size))]
        && calls == old(calls) + [BindCall(ParamNumber(pos), ToODBCDirection(dir).value, SQL_C_CHAR,
                                           SQL_LONGVARCHAR, size, 0, Heap(buf), size, buf + 1)]
        && ParameterSize(Heap(buf)) == Success(size)
        && r == LastVerdict()
    {
      var size := OutStringSize(stmt, defaultParamSize, pos);
      var buf := PushShadowBuffer(size, val);
      var ind := PushIndicator(StringIndicator(paramBinding, size));
      r := IssueBind(BindCall(ParamNumber(pos), ToODBCDirection(dir).value, SQL_C_CHAR,
                              SQL_LONGVARCHAR, size, 0, Heap(buf), size, ind.addr));
    }

    /** The in-only path of bind(pos, std::string, dir): no copy is made. */
    method BindInString(pos: nat, val: StringVar) returns (r: Outcome<Error>)
      requires Valid() && !destroyed
      modifies this`inParams, this`lengthIndicator, this`nextAddr, this`calls
      ensures Valid()
      ensures
        var size := |val.value|;
        && inParams == Insert(old(inParams), StringData(val), size)
        && nextAddr == old(nextAddr) + 1
        && lengthIndicator == old(lengthIndicator) + [LengthIndicator(old(nextAddr), StringIndicator(paramBinding, size))]
        && calls == old(calls) + [BindCall(ParamNumber(pos), SQL_PARAM_INPUT, SQL_C_CHAR,
                                           SQL_LONGVARCHAR, size, 0, StringData(val), size, old(nextAddr))]
        && r == LastVerdict()
    {
      var size := |val.value|;
      RegisterInput(StringData(val), size);
      var ind := PushIndicator(StringIndicator(paramBinding, size));
      r := IssueBind(BindCall(ParamNumber(pos), SQL_PARAM_INPUT, SQL_C_CHAR,
                              SQL_LONGVARCHAR, size, 0, StringData(val), size, ind.addr));
    }

    /** bind(pos, BLOB, dir): input only, bound directly on the caller's bytes. */
    method BindBlob(pos: nat, val: BlobVar, dir: Direction) returns (r: Outcome<Error>)
      requires Valid() && !destroyed
      modifies this`inParams, this`lengthIndicator, this`nextAddr, this`calls
      ensures Valid()
      ensures dir != PD_IN ==>
        && r == Fail(NotImplemented)
        && unchanged(this`inParams, this`lengthIndicator, this`nextAddr, this`calls)
      ensures dir == PD_IN ==>
        var size := |val.content|;
        && inParams == Insert(old(inParams), BlobData(val), size)
        && nextAddr == old(nextAddr) + 1
        && lengthIndicator == old(lengthIndicator) + [LengthIndicator(old(nextAddr), BlobIndicator(paramBinding, size))]
        && calls == old(calls) + [BindCall(ParamNumber(pos), SQL_PARAM_INPUT, SQL_C_BINARY,
                                           SQL_LONGVARBINARY, size, 0, BlobData(val), size, old(nextAddr))]
        && r == LastVerdict()
    {
      if dir.outBound || !dir.inBound {
        return Fail(NotImplemented);
      }
      var pVal := BlobData(val);
      var size := |val.content|;
      RegisterInput(pVal, size);
      var ind := PushIndicator(BlobIndicator(paramBinding, size));
      r := IssueBind(BindCall(ParamNumber(pos), SQL_PARAM_INPUT, SQL_C_BINARY,
                              SQL_LONGVARBINARY, size, 0, pVal, size, ind.addr));
    }

    /** bind(pos, DateTime, dir). The indicator and the native struct are
        allocated, and the struct paired with the caller's value, before the
        direction is translated, so a direction that is neither in nor out throws
        with both already owned by the binder. */
    method BindDateTime(pos: nat, val: DateTimeVar, dir: Direction) returns (r: Outcome<Error>)
      requires Valid() && !destroyed
      modifies this`timestampStructs, this`timestamps, this`lengthIndicator, this`nextAddr, this`calls
      ensures Valid()
      ensures
        var ind, ts := old(nextAddr), old(nextAddr) + 1;
        && lengthIndicator == old(lengthIndicator) + [LengthIndicator(ind, TIMESTAMP_STRUCT_SIZE)]
        && timestampStructs == old(timestampStructs)[ts := utility.toNative(val.value)]
        && timestamps == old(timestamps) + [(ts, val)]
        && nextAddr == old(nextAddr) + 2
        && (!dir.inBound && !dir.outBound ==> r == Fail(IllegalState) && calls == old(calls))
        && (dir.inBound || dir.outBound ==>
              && calls == old(calls) + [BindCall(ParamNumber(pos), ToODBCDirection(dir).value, SQL_C_TIMESTAMP,
                                                 SQL_TIMESTAMP, TimestampColumn(typeInfo).0,
                                                 TimestampColumn(typeInfo).1, Heap(ts), 0, ind)]
              && r == LastVerdict())
    {
      var ind := PushIndicator(TIMESTAMP_STRUCT_SIZE);
      var ts := PushTimestamp(val);
      var (colSize, decDigits) := TimestampColumn(typeInfo);
      var ioType := ToODBCDirection(dir);
      if ioType.Failure? {
        return Fail(ioType.error);
      }
      r := IssueBind(BindCall(ParamNumber(pos), ioType.value, SQL_C_TIMESTAMP,
                              SQL_TIMESTAMP, colSize, decDigits, Heap(ts), 0, ind.addr));
    }

    /** bindNull(pos, cDataType): an input parameter with no data; the column
        size and scale come from whatever metadata can be found. */
    method BindNull(pos: nat, cDataType: int) returns (r: Outcome<Error>)
      requires Valid() && !destroyed
      modifies this`inParams, this`lengthIndicator, this`nextAddr, this`calls
      ensures Valid()
      ensures inParams == Insert(old(inParams), NullAddr, 0)
      ensures nextAddr == old(nextAddr) + 1
      ensures lengthIndicator == old(lengthIndicator) + [LengthIndicator(old(nextAddr), NullIndicator(paramBinding))]
      ensures calls == old(calls) + [BindCall(ParamNumber(pos), SQL_PARAM_INPUT, cDataType,
                                              utility.sqlDataType(cDataType), NullColumn(stmt, pos).0,
                                              NullColumn(stmt, pos).1, NullAddr, 0, old(nextAddr))]
      ensures r == LastVerdict()
    {
      RegisterInput(NullAddr, 0);
      var ind := PushIndicator(NullIndicator(paramBinding));
      var (colSize, decDigits) := NullColumn(stmt, pos);
      r := IssueBind(BindCall(ParamNumber(pos), SQL_PARAM_INPUT, cDataType,
                              utility.sqlDataType(cDataType), colSize, decDigits, NullAddr, 0, ind.addr));
    }

    /** bind(pos, const char*, dir): not supported; nothing changes. */
    method BindCharPointer(pos: nat, pVal: seq<char>, dir: Direction) returns (r: Outcome<Error>)
      ensures r == Fail(NotImplemented)
    {
      r := Fail(NotImplemented);
    }

    /** The driver filling shadow buffer `buf` when the statement executes: the
        buffer keeps its size, and its new content is whatever the driver wrote. */
    method DriverWrites(buf: nat, content: seq<char>)
      requires Valid() && buf in stringBuffers && |content| == |stringBuffers[buf]|
      modifies this`stringBuffers
      ensures Valid()
      ensures stringBuffers == old(stringBuffers)[buf := content]
    {
      stringBuffers := stringBuffers[buf := content];
    }

    /** Copies every native timestamp back into its DateTime and then every shadow
        buffer, up to its first NUL, into its string. A destination paired more
        than once ends with the value of its last pairing in address order. No
        buffer and no binder field changes. */
    method Synchronize()
      requires Valid() && !destroyed
      modifies DateTimeDests(), StringDests()
      ensures TimestampsSynced(timestamps, timestampStructs, utility.fromNative)
      ensures StringsSynced(strings, stringBuffers)
    {
      forall j | 0 <= j < |timestamps| ensures timestamps[j].0 in timestampStructs {
        assert timestamps[j].0 == Keys(timestamps)[j];
      }
      CopyTimestamps(timestamps, timestampStructs, utility.fromNative);
      forall j | 0 <= j < |strings| ensures strings[j].0 in stringBuffers {
        assert strings[j].0 == Keys(strings)[j];
      }
      CopyStrings(strings, stringBuffers);
    }

    /** The destructor: frees every length indicator, then every timestamp struct,
        then every shadow buffer, so each block the binder allocated is released
        exactly once. */
    method Destroy()
      requires Valid() && !destroyed
      modifies this`freed, this`destroyed
      ensures Valid() && destroyed
      ensures freed == old(Allocations())
      ensures NoDuplicates(freed)
      ensures forall a: nat :: a in freed <==> a < nextAddr
    {
      var inds, ts, strs := lengthIndicator, timestamps, strings;
      var ledger: seq<nat> := [];
      var i := 0;
      while i < |inds|
        invariant 0 <= i <= |inds|
        invariant ledger == Addrs(inds)[..i]
      {
        ledger := ledger + [inds[i].addr];
        i := i + 1;
      }
      assert Addrs(inds)[..i] == Addrs(inds);
      i := 0;
      while i < |ts|
        invariant 0 <= i <= |ts|
        invariant ledger == Addrs(inds) + Keys(ts)[..i]
      {
        ledger := ledger + [ts[i].0];
        i := i + 1;
      }
      assert Keys(ts)[..i] == Keys(ts);
      i := 0;
      while i < |strs|
        invariant 0 <= i <= |strs|
        invariant ledger == Addrs(inds) + Keys(ts) + Keys(strs)[..i]
      {
        ledger := ledger + [strs[i].0];
        i := i + 1;
      }
      assert Keys(strs)[..i] == Keys(strs);
      OwnedIdsDistinct(Addrs(inds), Keys(ts), Keys(strs), nextAddr);
      freed := ledger;
      destroyed := true;
    }
  }

  /** Whether every destination of `b` already holds what synchronization copies into it. */
  ghost predicate Synchronized(b: Binder)
    reads b, b.DateTimeDests(), b.StringDests()
  {
    TimestampsSynced(b.timestamps, b.timestampStructs, b.utility.fromNative)
      && StringsSynced(b.strings, b.stringBuffers)
  }

  /** Synchronizing a binder whose destinations are already synchronized, with
      no driver writes in between, changes no destination. */
  method SynchronizeAgain(b: Binder)
    requires b.Valid() && !b.destroyed && Synchronized(b)
    modifies b.DateTimeDests(), b.StringDests()
    ensures Synchronized(b)
    ensures forall d :: d in b.DateTimeDests() ==> d.value == old(d.value)
    ensures forall d :: d in b.StringDests() ==> d.value == old(d.value)
  {
    b.Synchronize();
    forall d | d in b.DateTimeDests() ensures d.value == old(d.value) {
      var k :| 0 <= k < |b.timestamps| && b.timestamps[k].1 == d;
      LastPairingExists(b.timestamps, k);
    }
    forall d | d in b.StringDests() ensures d.value == old(d.value) {
      var k :| 0 <= k < |b.strings| && b.strings[k].1 == d;
      LastPairingExists(b.strings, k);
    }
  }

  /** An out-bound string receives what the driver writes into its shadow
      buffer: bind it, let the driver write a NUL-free `x` shorter than the
      buffer into the buffer's front, and synchronize; the string then holds
      exactly `x`, whether or not the driver wrote a terminator. */
  method OutStringReceivesDriverOutput(b: Binder, pos: nat, s: StringVar, dir: Direction, x: string)
    requires b.Valid() && !b.destroyed && dir.outBound
    requires NUL !in x && |x| < OutStringSize(b.stmt, b.defaultParamSize, pos)
    modifies b, b.DateTimeDests(), b.StringDests(), s
    ensures s.value == x
  {
    var size := OutStringSize(b.stmt, b.defaultParamSize, pos);
    var buf := b.nextAddr;
    var r := b.BindString(pos, s, dir);
    b.DriverWrites(buf, x + Zeros(size)[|x|..]);
    b.Synchronize();
    WrittenIntoZeroedBuffer(size, x);
    assert b.strings[|b.strings| - 1] == (buf, s);
    assert LastUpTo(b.strings, |b.strings| - 1, |b.strings|);
  }
}
