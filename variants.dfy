/**
 * The four deployed contracts share one vault design and differ only in a
 * handful of parameters: how positions are held, the index scale, how the
 * rate accrues, what a finished voyage pays, and which identity guards the
 * privileged calls.
 */
module Variants {
  import opened Common
  import opened FixedPoint

  datatype Variant =
    | SevenSeas   // src/seven_seas.rs
    | PiratesBay  // src/pirates_bay.rs
    | Sea         // src/sea.rs
    | Shells      // shells/src/sea.rs
  {
    /** Positions are buried units kept by the vault itself (`bury`/`unearth`), not an external share token (`sink`/`dredge`). */
    predicate Buried() {
      this == SevenSeas || this == PiratesBay
    }

    /** Whether the contract exports the voyage registry. */
    predicate HasVoyages() {
      this != Shells
    }

    /** The index at par, and the fixed-point unit of every conversion. */
    function Scale(): (scale: int)
      ensures 0 < scale
      ensures Buried() ==> scale == SCALER * SCALER
      ensures this == Sea ==> scale == SCALER
      ensures this == Shells ==> scale == SHELLS_SCALE
    {
      match this
      case SevenSeas => SCALER * SCALER
      case PiratesBay => SCALER * SCALER
      case Sea => SCALER
      case Shells => SHELLS_SCALE
    }

    function Accrual(): Accrual {
      if Buried() then PerHundredBlocks else PerBlock
    }

    /** What one finished voyage unit pays in base tokens. */
    function RedeemMultiplier(): int {
      if this == SevenSeas then SCALER else 1
    }

    /** The constant `set_decimals` stores. */
    function Decimals(): int {
      if this == Shells then 18 else 7
    }

    /** The identity named by the guard's panic message. */
    function Role(): Role {
      if Buried() then Captain else Admin
    }
  }
}
