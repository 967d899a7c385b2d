/** The inline overloads of the SQLite binder: each narrow application type is
    converted to one of the native kinds SQLite binds (a 32-bit integer, a 64-bit
    integer or a string) and forwarded with the same position and direction. */
module SqliteBinder {
  import opened DataCommon
  import opened CStrings

  newtype int8 = x: int | -0x80 <= x < 0x80
  /** Poco::UInt8 is the shared octet type. */
  type uint8 = byte
  newtype int16 = x: int | -0x8000 <= x < 0x8000
  newtype uint16 = x: int | 0 <= x < 0x1_0000
  newtype int32 = x: int | -0x8000_0000 <= x < 0x8000_0000
  newtype uint32 = x: int | 0 <= x < 0x1_0000_0000
  newtype int64 = x: int | -0x8000_0000_0000_0000 <= x < 0x8000_0000_0000_0000
  newtype uint64 = x: int | 0 <= x < 0x1_0000_0000_0000_0000

  const TWO_32: int := 0x1_0000_0000
  const TWO_64: int := 0x1_0000_0000_0000_0000

  /** A call of one of the native overloads: bind(pos, Int32), bind(pos, Int64)
      or bind(pos, std::string). */
  datatype NativeBind =
    | Int32Bind(pos: nat, i32: int32, dir: Direction)
    | Int64Bind(pos: nat, i64: int64, dir: Direction)
    | StringBind(pos: nat, str: string, dir: Direction)

  /** bind(pos, Int8): widened to Int32. */
  function BindInt8(pos: nat, val: int8, dir: Direction): (b: NativeBind)
    ensures b.Int32Bind? && b.i32 as int == val as int
  {
    Int32Bind(pos, val as int32, dir)
  }

  /** bind(pos, UInt8): widened to Int32. */
  function BindUInt8(pos: nat, val: uint8, dir: Direction): (b: NativeBind)
    ensures b.Int32Bind? && b.i32 as int == val as int
  {
    Int32Bind(pos, val as int32, dir)
  }

  /** bind(pos, Int16): widened to Int32. */
  function BindInt16(pos: nat, val: int16, dir: Direction): (b: NativeBind)
    ensures b.Int32Bind? && b.i32 as int == val as int
  {
    Int32Bind(pos, val as int32, dir)
  }

  /** bind(pos, UInt16): widened to Int32. */
  function BindUInt16(pos: nat, val: uint16, dir: Direction): (b: NativeBind)
    ensures b.Int32Bind? && b.i32 as int == val as int
  {
    Int32Bind(pos, val as int32, dir)
  }

  /** static_cast<Int32>(UInt32) on a two's-complement target: the value with
      the same 32 low-order bits. */
  function UInt32ToInt32(v: uint32): (r: int32)
    ensures (r as int - v as int) % TWO_32 == 0
    ensures r >= 0 <==> v as int < 0x8000_0000
  {
    if v < 0x8000_0000 then v as int32 else (v as int - TWO_32) as int32
  }

  /** static_cast<UInt32>(Int32): adds 2^32 to negative values. */
  function Int32ToUInt32(x: int32): (r: uint32)
    ensures (r as int - x as int) % TWO_32 == 0
  {
    if x >= 0 then x as uint32 else (x as int + TWO_32) as uint32
  }

  /** The two casts are mutually inverse, so the signed reinterpretation of an
      UInt32 is injective and loses nothing. */
  lemma UInt32CastRoundTrip(v: uint32, x: int32)
    ensures Int32ToUInt32(UInt32ToInt32(v)) == v
    ensures UInt32ToInt32(Int32ToUInt32(x)) == x
  {
  }

  lemma UInt32ToInt32Injective(v: uint32, w: uint32)
    ensures UInt32ToInt32(v) == UInt32ToInt32(w) ==> v == w
  {
    UInt32CastRoundTrip(v, 0);
    UInt32CastRoundTrip(w, 0);
  }

  /** bind(pos, UInt32): reinterpreted as Int32. */
  function BindUInt32(pos: nat, val: uint32, dir: Direction): (b: NativeBind)
    ensures b.Int32Bind?
    ensures val as int < 0x8000_0000 ==> b.i32 as int == val as int
    ensures val as int >= 0x8000_0000 ==> b.i32 as int == val as int - TWO_32
  {
    Int32Bind(pos, UInt32ToInt32(val), dir)
  }

  /** static_cast<Int64>(UInt64) on a two's-complement target. */
  function UInt64ToInt64(v: uint64): (r: int64)
    ensures (r as int - v as int) % TWO_64 == 0
    ensures r >= 0 <==> v as int < 0x8000_0000_0000_0000
  {
    if v < 0x8000_0000_0000_0000 then v as int64 else (v as int - TWO_64) as int64
  }

  /** static_cast<UInt64>(Int64): adds 2^64 to negative values. */
  function Int64ToUInt64(x: int64): (r: uint64)
    ensures (r as int - x as int) % TWO_64 == 0
  {
    if x >= 0 then x as uint64 else (x as int + TWO_64) as uint64
  }

  lemma UInt64CastRoundTrip(v: uint64, x: int64)
    ensures Int64ToUInt64(UInt64ToInt64(v)) == v
    ensures UInt64ToInt64(Int64ToUInt64(x)) == x
  {
  }

  lemma UInt64ToInt64Injective(v: uint64, w: uint64)
    ensures UInt64ToInt64(v) == UInt64ToInt64(w) ==> v == w
  {
    UInt64CastRoundTrip(v, 0);
    UInt64CastRoundTrip(w, 0);
  }

  /** bind(pos, UInt64): reinterpreted as Int64. */
  function BindUInt64(pos: nat, val: uint64, dir: Direction): (b: NativeBind)
    ensures b.Int64Bind?
    ensures val as int < 0x8000_0000_0000_0000 ==> b.i64 as int == val as int
    ensures val as int >= 0x8000_0000_0000_0000 ==> b.i64 as int == val as int - TWO_64
  {
    Int64Bind(pos, UInt64ToInt64(val), dir)
  }

  /** bind(pos, bool): Int32 1 for true and 0 for false. */
  function BindBool(pos: nat, val: bool, dir: Direction): (b: NativeBind)
    ensures b.Int32Bind? && 0 <= b.i32 <= 1
    ensures b.i32 != 0 <==> val
  {
    Int32Bind(pos, if val then 1 else 0, dir)
  }

  /** The numeric value of a `char` with bit pattern `bits`; whether plain `char`
      is signed is up to the platform. */
  function CharValue(bits: uint8, charIsSigned: bool): (r: int32)
    ensures (r as int - bits as int) % 0x100 == 0
    ensures charIsSigned ==> -0x80 <= r < 0x80
    ensures !charIsSigned ==> r as int == bits as int
  {
    if charIsSigned && bits >= 0x80 then (bits as int - 0x100) as int32 else bits as int32
  }

  /** bind(pos, char): widened to Int32 with the character's numeric value. */
  function BindChar(pos: nat, bits: uint8, charIsSigned: bool, dir: Direction): (b: NativeBind)
    ensures b.Int32Bind? && b.i32 == CharValue(bits, charIsSigned)
  {
    Int32Bind(pos, CharValue(bits, charIsSigned), dir)
  }

  /** bind(pos, const char*): the characters before the terminating NUL of the
      memory the pointer addresses, bound as a string. */
  function BindCString(pos: nat, mem: seq<char>, dir: Direction): (b: NativeBind)
    requires NUL in mem
    ensures b.StringBind?
    ensures b.str + [NUL] <= mem && NUL !in b.str
  {
    var s := UpToNul(mem);
    assert |s| < |mem|;
    StringBind(pos, s, dir)
  }

  /** The application values the inline overloads accept. */
  datatype AppValue =
    | I8(i8: int8)
    | U8(u8: uint8)
    | I16(i16: int16)
    | U16(u16: uint16)
    | U32(u32: uint32)
    | U64(u64: uint64)
    | Bool(flag: bool)
    | Char(bits: uint8)
    | CStr(mem: seq<char>)

  /** Overload resolution over the inline binds. */
  function Bind(pos: nat, v: AppValue, dir: Direction, charIsSigned: bool): NativeBind
    requires v.CStr? ==> NUL in v.mem
  {
    match v
    case I8(x) => BindInt8(pos, x, dir)
    case U8(x) => BindUInt8(pos, x, dir)
    case I16(x) => BindInt16(pos, x, dir)
    case U16(x) => BindUInt16(pos, x, dir)
    case U32(x) => BindUInt32(pos, x, dir)
    case U64(x) => BindUInt64(pos, x, dir)
    case Bool(x) => BindBool(pos, x, dir)
    case Char(x) => BindChar(pos, x, charIsSigned, dir)
    case CStr(m) => BindCString(pos, m, dir)
  }

  /** Every inline overload forwards its position and direction unchanged and
      reaches exactly one native overload: Int64 for UInt64, the string
      overload for `const char*`, Int32 for everything else. */
  lemma BindForwards(pos: nat, v: AppValue, dir: Direction, charIsSigned: bool)
    requires v.CStr? ==> NUL in v.mem
    ensures Bind(pos, v, dir, charIsSigned).pos == pos
    ensures Bind(pos, v, dir, charIsSigned).dir == dir
    ensures Bind(pos, v, dir, charIsSigned).Int64Bind? <==> v.U64?
    ensures Bind(pos, v, dir, charIsSigned).StringBind? <==> v.CStr?
    ensures Bind(pos, v, dir, charIsSigned).Int32Bind? <==> !v.U64? && !v.CStr?
  {
  }
}
