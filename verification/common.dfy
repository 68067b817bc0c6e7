/**
  Shared vocabulary of the SolSentinel on-chain program model: Rust's fixed-width
  integers and their saturating / wrapping arithmetic, the byte length of a Rust
  `String`, public keys, the program's error codes and the program-owned account.
*/
module Common {

  // ---------------------------------------------------------------------------
  // Fixed-width integers (Rust i8, u8, u16, u32, u64, i64) as ranges of int
  // ---------------------------------------------------------------------------

  type Int8 = x: int | -0x80 <= x < 0x80
  type UInt8 = x: int | 0 <= x < 0x100
  type UInt16 = x: int | 0 <= x < 0x1_0000
  type UInt32 = x: int | 0 <= x < 0x1_0000_0000
  type UInt64 = x: int | 0 <= x < 0x1_0000_0000_0000_0000
  type Int64 = x: int | -0x8000_0000_0000_0000 <= x < 0x8000_0000_0000_0000

  const UINT16_MAX: UInt16 := 0xFFFF
  const UINT32_MAX: UInt32 := 0xFFFF_FFFF
  const UINT64_MAX: UInt64 := 0xFFFF_FFFF_FFFF_FFFF

  function Min(a: int, b: int): int { if a <= b then a else b }
  function Max(a: int, b: int): int { if a >= b then a else b }

  /** `u16::saturating_add` */
  function SaturatingAdd16(a: UInt16, b: UInt16): UInt16 {
    if a + b > UINT16_MAX then UINT16_MAX else a + b
  }

  /** `u16::saturating_sub` */
  function SaturatingSub16(a: UInt16, b: UInt16): UInt16 {
    if a < b then 0 else a - b
  }

  /** `u32::saturating_add` */
  function SaturatingAdd32(a: UInt32, b: UInt32): UInt32 {
    if a + b > UINT32_MAX then UINT32_MAX else a + b
  }

  /** `u64::saturating_add` */
  function SaturatingAdd64(a: UInt64, b: UInt64): UInt64 {
    if a + b > UINT64_MAX then UINT64_MAX else a + b
  }

  /** `u16::wrapping_add` */
  function WrappingAdd16(a: UInt16, b: UInt16): UInt16 {
    (a + b) % 0x1_0000
  }

  // ---------------------------------------------------------------------------
  // Strings: a Rust `String` is UTF-8; `len()` counts bytes, not characters
  // ---------------------------------------------------------------------------

  /** Number of bytes `c` takes in UTF-8. */
  function Utf8Width(c: char): nat {
    if c as int < 0x80 then 1
    else if c as int < 0x800 then 2
    else if c as int < 0x1_0000 then 3
    else 4
  }

  /** `String::len()`: the UTF-8 byte length of `s`. */
  function Utf8Len(s: string): (n: nat)
    ensures |s| <= n <= 4 * |s|
    ensures n == 0 <==> s == []
  {
    if s == [] then 0 else Utf8Width(s[0]) + Utf8Len(s[1..])
  }

  /** `char::is_ascii_alphanumeric` */
  predicate IsAsciiAlphanumeric(c: char) {
    ('a' <= c <= 'z') || ('A' <= c <= 'Z') || ('0' <= c <= '9')
  }

  /** A string of ASCII characters only is as long in bytes as in characters. */
  lemma {:induction false} AsciiByteLength(s: string)
    requires forall i :: 0 <= i < |s| ==> s[i] as int < 0x80
    ensures Utf8Len(s) == |s|
  {
    if s != [] {
      AsciiByteLength(s[1..]);
    }
  }

  // ---------------------------------------------------------------------------
  // Public keys
  // ---------------------------------------------------------------------------

  /** A 32-byte account address. */
  type Pubkey = k: seq<UInt8> | |k| == 32 witness seq(32, _ => 0)

  /** `Pubkey::default()`: the all-zero key. */
  const DEFAULT_PUBKEY: Pubkey := seq(32, _ => 0)

  // ---------------------------------------------------------------------------
  // Errors and results
  // ---------------------------------------------------------------------------

  /** The program's error codes (`SentinelError`). */
  datatype SentinelError =
    | SymbolTooLong
    | EmptySymbol
    | InvalidSymbol
    | InvalidScore
    | InvalidConfidence
    | Unauthorized
    | UsernameTooLong
    | EmptyUsername
    | InvalidUsername
    | InvalidDirection
    | InvalidThreshold
    | OraclePaused
    | TooManyOperators
    | OperatorAlreadyExists
    | OperatorNotFound
    | InvalidAuthority
    | StaleTimestamp
    | EmptyBatch
    | BatchTooLarge
    | AccountMismatch
    | InvalidAccount
    | InvalidTimestamp

  /** An instruction's `Result<()>`. */
  datatype Outcome = Ok | Err(error: SentinelError)

  /** A value-carrying result, for the specification functions. */
  datatype Result<T> = Success(value: T) | Failure(error: SentinelError) {
    function ToOutcome(): Outcome {
      match this
      case Success(_) => Ok
      case Failure(e) => Err(e)
    }
  }

  datatype Option<T> = None | Some(value: T)

  // ---------------------------------------------------------------------------
  // Accounts
  // ---------------------------------------------------------------------------

  /**
    A program-owned account. An instruction works on the deserialized `data` in
    place; the runtime writes it back only when the whole instruction succeeds,
    so a failed instruction leaves every account as it found it.
  */
  class Account<T> {
    var data: T

    constructor (data: T)
      ensures this.data == data
    {
      this.data := data;
    }
  }
}
