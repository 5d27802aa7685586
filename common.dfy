/**
 * Shared vocabulary of the vault contracts: the fixed constants, the
 * machine-integer ranges that the contracts' `u32`/`i32` values live in,
 * identities, and the named abort reasons of every entry point.
 */
module Common {

  /** `SCALER` of the `src/` contracts: seven decimal places. */
  const SCALER: int := 10_000_000

  /** `decimals_in_int` of the `shells/` contract: eighteen decimal places. */
  const SHELLS_SCALE: int := 1_000_000_000_000_000_000

  /** Length of a voyage offering's window, in blocks (one week). */
  const WEEK_IN_BLOCKS: int := 100_800

  const U32_MAX: int := 0xFFFF_FFFF
  const I32_MIN: int := -0x8000_0000
  const I32_MAX: int := 0x7FFF_FFFF

  /** Block heights and the raid interval are `u32` in the source. */
  type U32 = x: int | 0 <= x <= U32_MAX

  /** Voyage ids are `i32` in the source. */
  type I32 = x: int | I32_MIN <= x <= I32_MAX

  /** The identity of an account or a contract (the source's `Identifier`). */
  datatype Identifier = Account(key: nat) | Contract(hash: nat)

  /** The address of a token contract (the source's `BytesN<32>`). */
  type TokenId = nat

  /** Which stored identity guards privileged calls, and so which panic message is raised. */
  datatype Role = Captain | Admin

  /** Every reason an entry point aborts; an abort discards all of the call's writes. */
  datatype Error =
    | AlreadyInitialized      // "contract already initialized"
    | NotInitialized          // a key that only `initialize` writes is read before it
    | Unauthorized(role: Role) // "not authorized by captain" / "not authorized by admin"
    | InsufficientPosition    // "not enough buried doubloons to unearth"
    | InsufficientBalance     // the asset ledger refuses to burn or move more than is held
    | NegativeAmount          // the asset ledger refuses a negative amount
    | MissingVoyage           // no offering is stored under the requested id
    | VoyageExpired           // "voyage no longer available"
    | CapacityExceeded        // "not enough voyage available"
    | NoPosition              // "user has no voyages for this voyage id"
    | ArithmeticFault         // a `u32` or `i32` computation leaves its range
    | DivisionByZero          // a conversion divides by a zero index
    | NotImplemented          // `raid`
    | UnknownFunction         // the deployed variant does not export the called entry point

  datatype Option<+T> = None | Some(value: T)

  /** What a computation that may abort yields; usable with `:-`. */
  datatype Result<+T> = Ok(value: T) | Err(error: Error) {
    predicate IsFailure() { Err? }

    function PropagateFailure<U>(): Result<U>
      requires Err?
    {
      Err(error)
    }

    function Extract(): T
      requires Ok?
    {
      value
    }
  }

  /** What an entry point reports to its caller: it committed, or it aborted and why. */
  datatype Outcome = Pass | Fail(error: Error)
}
