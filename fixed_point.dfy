/**
 * The fixed-point accrual index and the conversions through it
 * (`get_new_index` and the deposit/withdraw arithmetic of every variant).
 * The host's big integers divide truncating toward zero; Dafny's `/` is
 * Euclidean, so truncation is written out as `Quot`.
 */
module FixedPoint {
  import opened Common

  function Abs(x: int): (a: nat)
    ensures a == x || a == -x
  {
    if x < 0 then -x else x
  }

  /** Integer division truncating toward zero: the quotient never overshoots the dividend. */
  function Quot(a: int, b: int): (q: int)
    requires b != 0
    ensures 0 <= a ==> 0 <= q * b <= a && a - q * b < Abs(b)
    ensures a < 0 ==> a <= q * b <= 0 && q * b - a < Abs(b)
  {
    var n, d := Abs(a), Abs(b);
    var k := n / d;
    DivBounds(n, d);
    if 0 <= a && 0 < b then
      k
    else if 0 <= a then
      assert (-k) * b == k * d;
      -k
    else if 0 < b then
      assert (-k) * b == -(k * d);
      -k
    else
      assert k * b == -(k * d);
      k
  }

  /** Euclidean division of naturals leaves a remainder in [0, d). */
  lemma DivBounds(n: nat, d: nat)
    requires 0 < d
    ensures 0 <= (n / d) * d <= n && n - (n / d) * d < d
  {
    MulNonNegative(n / d, d);
  }

  lemma MulNonNegative(x: int, y: int)
    requires 0 <= x && 0 <= y
    ensures 0 <= x * y
  {
  }

  /** For a non-negative dividend and a positive divisor, truncation and Euclidean division agree. */
  lemma QuotIsDiv(a: int, b: int)
    requires 0 <= a && 0 < b
    ensures Quot(a, b) == a / b
  {
  }

  /** A positive multiplier preserves order. */
  lemma MulMonotone(x: int, y: int, c: int)
    requires x <= y && 0 <= c
    ensures x * c <= y * c
  {
    MulNonNegative(y - x, c);
    assert (y - x) * c == y * c - x * c;
  }

  /** Dividing an exact multiple gives the multiplier back. */
  lemma {:induction false} QuotOfMultiple(x: int, b: int)
    requires 0 < b
    ensures Quot(x * b, b) == x
  {
    var q := Quot(x * b, b);
    if q < x {
      MulMonotone(q + 1, x, b);
    } else if x < q {
      MulMonotone(x + 1, q, b);
    }
  }

  /** Truncating division by a positive divisor is monotone in the dividend. */
  lemma {:induction false} QuotMonotone(a: int, c: int, b: int)
    requires a <= c && 0 < b
    ensures Quot(a, b) <= Quot(c, b)
  {
    var qa, qc := Quot(a, b), Quot(c, b);
    assert (qc + 1) * b == qc * b + b;
    if qc < qa {
      MulMonotone(qc + 1, qa, b);
    }
  }

  /** How the rate is applied to elapsed blocks. */
  datatype Accrual =
    | PerHundredBlocks  // `src/`: rate × blocks × SCALER / 100
    | PerBlock          // `shells/` and `src/sea.rs`: rate × blocks

  /** The amount the index moves by over `elapsed` blocks. */
  function AccrualTerm(accrual: Accrual, rate: int, elapsed: nat): int {
    match accrual
    case PerHundredBlocks => Quot(rate * elapsed * SCALER, 100)
    case PerBlock => rate * elapsed
  }

  /**
   * The index rolled forward from `lastBlock` to `now` (`get_new_index`).
   * The block difference is `u32` arithmetic, so a clock behind the stored
   * block is an arithmetic fault rather than a wrap.
   */
  function AccruedIndex(accrual: Accrual, index: int, rate: int, lastBlock: U32, now: U32): (r: Result<int>)
    ensures r.Ok? <==> lastBlock <= now
    ensures now == lastBlock ==> r == Ok(index)
    ensures r.Ok? && 0 <= rate ==> index <= r.value
    ensures r.Ok? && rate <= 0 ==> r.value <= index
  {
    if now < lastBlock then Err(ArithmeticFault)
    else
      var elapsed := now - lastBlock;
      AccrualSign(accrual, rate, elapsed);
      Ok(index + AccrualTerm(accrual, rate, elapsed))
  }

  lemma AccrualSign(accrual: Accrual, rate: int, elapsed: nat)
    ensures elapsed == 0 ==> AccrualTerm(accrual, rate, elapsed) == 0
    ensures 0 <= rate ==> 0 <= AccrualTerm(accrual, rate, elapsed)
    ensures rate <= 0 ==> AccrualTerm(accrual, rate, elapsed) <= 0
  {
    if 0 <= rate {
      MulNonNegative(rate, elapsed);
      MulNonNegative(rate * elapsed, SCALER);
    } else {
      MulNonNegative(-rate, elapsed);
      MulNonNegative((-rate) * elapsed, SCALER);
      assert rate * elapsed * SCALER == -((-rate) * elapsed * SCALER);
    }
  }

  /**
   * `SCALER` is a multiple of 100, so the per-hundred-block division never
   * truncates: the term is exactly rate × elapsed × SCALER / 100.
   */
  lemma {:induction false} PerHundredBlocksIsExact(rate: int, elapsed: nat)
    ensures AccrualTerm(PerHundredBlocks, rate, elapsed) == rate * elapsed * (SCALER / 100)
  {
    var k := rate * elapsed * (SCALER / 100);
    assert rate * elapsed * SCALER == k * 100;
    QuotOfMultiple(k, 100);
  }

  /** The accrual term is additive over consecutive spans of blocks. */
  lemma {:induction false} AccrualAdditive(accrual: Accrual, rate: int, e1: nat, e2: nat)
    ensures AccrualTerm(accrual, rate, e1) + AccrualTerm(accrual, rate, e2)
         == AccrualTerm(accrual, rate, e1 + e2)
  {
    var x1, x2 := rate * e1, rate * e2;
    assert rate * (e1 + e2) == x1 + x2;
    if accrual == PerHundredBlocks {
      assert (x1 + x2) * (SCALER / 100) == x1 * (SCALER / 100) + x2 * (SCALER / 100);
      PerHundredBlocksIsExact(rate, e1);
      PerHundredBlocksIsExact(rate, e2);
      PerHundredBlocksIsExact(rate, e1 + e2);
    }
  }

  /**
   * Rolling the index forward lazily is path-independent: stopping at an
   * intermediate block `mid` and then continuing to `now` yields the same
   * index as one roll-forward from `lastBlock` to `now`.
   */
  lemma {:induction false} AccrualComposes(accrual: Accrual, index: int, rate: int, lastBlock: U32, mid: U32, now: U32)
    requires lastBlock <= mid <= now
    ensures AccruedIndex(accrual, index, rate, lastBlock, mid).Ok?
    ensures AccruedIndex(accrual, AccruedIndex(accrual, index, rate, lastBlock, mid).value, rate, mid, now)
         == AccruedIndex(accrual, index, rate, lastBlock, now)
  {
    AccrualAdditive(accrual, rate, mid - lastBlock, now - mid);
  }

  /** Base tokens to position units at `index`: amount × scale / index (`bury`, `sink`). */
  function ToUnits(amount: int, scale: int, index: int): (units: int)
    requires index != 0
  {
    Quot(amount * scale, index)
  }

  /** Position units to base tokens at `index`: units × index / scale (`unearth`, `dredge`). */
  function ToBase(units: int, index: int, scale: int): (amount: int)
    requires scale != 0
  {
    Quot(units * index, scale)
  }

  /** At par (index equal to the scale) a deposit converts one-for-one. */
  lemma {:induction false} ToUnitsAtPar(amount: int, scale: int)
    requires 0 < scale
    ensures ToUnits(amount, scale, scale) == amount
    ensures ToBase(amount, scale, scale) == amount
  {
    QuotOfMultiple(amount, scale);
  }

  /**
   * Converting a deposit to units and straight back never yields more than
   * was deposited: the truncation dust stays in the vault.
   */
  lemma {:induction false} RoundTripNoGain(amount: int, scale: int, index: int)
    requires 0 <= amount && 0 < scale && 0 < index
    ensures 0 <= ToUnits(amount, scale, index)
    ensures 0 <= ToBase(ToUnits(amount, scale, index), index, scale) <= amount
  {
    MulNonNegative(amount, scale);
    var units := ToUnits(amount, scale, index);
    assert 0 <= units * index <= amount * scale;
    QuotMonotone(units * index, amount * scale, scale);
    QuotOfMultiple(amount, scale);
    MulNonNegative(units, index);
  }

  /** A position is worth at least as much at a higher index. */
  lemma {:induction false} ValueGrowsWithIndex(units: int, index: int, index': int, scale: int)
    requires 0 <= units && index <= index' && 0 < scale
    ensures ToBase(units, index, scale) <= ToBase(units, index', scale)
  {
    MulMonotone(index, index', units);
    assert index * units == units * index && index' * units == units * index';
    QuotMonotone(units * index, units * index', scale);
  }
}
