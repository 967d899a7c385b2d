/** The optional-value and result types shared by every module of the model. */
module Wrappers {

  datatype Option<+T> = None | Some(value: T) {
    /** The value, or `default` when there is none. */
    function GetOr(default: T): T
    {
      match this
      case Some(v) => v
      case None => default
    }
  }

  datatype Result<+R, +E> = Success(value: R) | Failure(error: E)

  /** A result that carries no value: the model of a `void` operation that may throw. */
  datatype Outcome<+E> = Pass | Fail(error: E)
}

/** What the generic data-access layer gives every connector: parameter
    directions and the exception kinds the connectors raise. */
module DataCommon {

  /** A parameter direction, seen through the two tests the binders apply to it
      (`isInBound`, `isOutBound`). The combination "neither" is representable
      because the binders handle it. */
  datatype Direction = Direction(inBound: bool, outBound: bool)

  const PD_IN: Direction := Direction(true, false)
  const PD_OUT: Direction := Direction(false, true)
  const PD_IN_OUT: Direction := Direction(true, true)

  /** The exception classes the connectors throw, without their message texts. */
  datatype Error =
    | IllegalState        // Poco::IllegalStateException
    | NotImplemented      // Poco::NotImplementedException
    | StatementError      // ODBC StatementException: a driver call reported an error
    | NotFound            // Poco::NotFoundException
    | AssertionViolation  // a failed poco_assert_dbg in a debug build

  /** An octet: the element of a BLOB, and the bit pattern of a `char`. */
  newtype byte = x: int | 0 <= x < 0x100
}

/** NUL-terminated character data, as `strlen` and `std::string(const char*)` read it. */
module CStrings {

  const NUL: char := '\0'

  /** The characters of `s` before its first NUL; all of `s` when it holds none
      (a read that stops at the end of the buffer instead of running past it). */
  function UpToNul(s: seq<char>): (r: seq<char>)
    ensures r <= s
    ensures NUL !in r
    ensures |r| < |s| ==> s[|r|] == NUL
    decreases |s|
  {
    if s == [] || s[0] == NUL then [] else [s[0]] + UpToNul(s[1..])
  }

  /** A zero-filled buffer of `n` characters, as `calloc(n, sizeof(char))` returns. */
  function Zeros(n: nat): (z: seq<char>)
    ensures |z| == n
    ensures forall i :: 0 <= i < n ==> z[i] == NUL
  {
    seq(n, _ => NUL)
  }

  /** Reading back a string that was written NUL-terminated yields exactly that string. */
  lemma {:induction false} UpToNulOfTerminated(x: seq<char>, rest: seq<char>)
    requires NUL !in x
    ensures UpToNul(x + [NUL] + rest) == x
  {
    if x != [] {
      assert (x + [NUL] + rest)[1..] == x[1..] + [NUL] + rest;
      UpToNulOfTerminated(x[1..], rest);
    }
  }

  /** A driver that writes a string of length L < n into the front of a zero-filled
      buffer of n characters, with or without a terminator, leaves a buffer whose
      NUL-terminated content is exactly that string. */
  lemma WrittenIntoZeroedBuffer(n: nat, x: seq<char>)
    requires NUL !in x && |x| < n
    ensures UpToNul(x + Zeros(n)[|x|..]) == x
  {
    var z := Zeros(n)[|x|..];
    assert z == [NUL] + z[1..];
    assert x + z == x + [NUL] + z[1..];
    UpToNulOfTerminated(x, z[1..]);
  }
}
