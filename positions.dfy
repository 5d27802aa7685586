/**
 * What the deposit and withdrawal entry points do to positions, totals and
 * token balances: buried units in `src/seven_seas.rs` and
 * `src/pirates_bay.rs`, share tokens in `src/sea.rs` and `shells/src/sea.rs`.
 */
module Positions {
  import opened Common
  import opened Maps
  import opened FixedPoint
  import opened Token
  import opened Variants
  import opened Steps

  /**
   * `bury` credits the invoker and the running total with the same number
   * of units (so the sum of positions minus the total is unchanged), burns
   * exactly the deposit, and touches no other position.
   */
  lemma {:induction false} BuryCredits(v: Variant, s: State, env: Env, amount: int)
    requires Bury(v, s, env, amount).Ok?
    ensures var s' := Bury(v, s, env, amount).value;
            var index := NewIndex(v, s, env.now).value;
            var units := ToUnits(amount, v.Scale(), index);
            var base := s.baseToken.value;
            && s'.index == index && s'.lastBlock == env.now
            && UserBuried(s', env.invoker) == UserBuried(s, env.invoker) + units
            && (forall u :: u != env.invoker ==> UserBuried(s', u) == UserBuried(s, u))
            && s'.total == s.total + units
            && Sum(s'.userBuried) - s'.total == Sum(s.userBuried) - s.total
            && Balance(s'.tokens, base, env.invoker) == Balance(s.tokens, base, env.invoker) - amount
            && Supply(s'.tokens, base) == Supply(s.tokens, base) - amount
            && (0 < index ==> 0 <= units)
            && s'.voyages == s.voyages && s'.userVoyage == s.userVoyage
            && s'.admin == s.admin && s'.rate == s.rate
  {
    var index := NewIndex(v, s, env.now).value;
    var units := ToUnits(amount, v.Scale(), index);
    SumUpdate(s.userBuried, env.invoker, UserBuried(s, env.invoker) + units);
    BurnEffect(s.tokens, s.baseToken.value, env.invoker, amount);
    if 0 < index {
      MulNonNegative(amount, v.Scale());
    }
  }

  /**
   * `unearth` debits the invoker and the running total by the same amount,
   * mints `amount × index / scale` base tokens to the invoker, and touches
   * no other position.
   */
  lemma {:induction false} UnearthDebits(v: Variant, s: State, env: Env, amount: int)
    requires Unearth(v, s, env, amount).Ok?
    ensures var s' := Unearth(v, s, env, amount).value;
            var index := NewIndex(v, s, env.now).value;
            var payout := ToBase(amount, index, v.Scale());
            var base := s.baseToken.value;
            && s'.index == index && s'.lastBlock == env.now
            && UserBuried(s', env.invoker) == UserBuried(s, env.invoker) - amount
            && (forall u :: u != env.invoker ==> UserBuried(s', u) == UserBuried(s, u))
            && s'.total == s.total - amount
            && Sum(s'.userBuried) - s'.total == Sum(s.userBuried) - s.total
            && 0 <= payout
            && Balance(s'.tokens, base, env.invoker) == Balance(s.tokens, base, env.invoker) + payout
            && Supply(s'.tokens, base) == Supply(s.tokens, base) + payout
            && s'.voyages == s.voyages && s'.userVoyage == s.userVoyage
            && s'.admin == s.admin && s'.rate == s.rate
  {
    var index := NewIndex(v, s, env.now).value;
    SumUpdate(s.userBuried, env.invoker, UserBuried(s, env.invoker) - amount);
    MintEffect(s.tokens, s.baseToken.value, env.invoker, ToBase(amount, index, v.Scale()));
  }

  /**
   * Burying and immediately unearthing every unit credited gives back at
   * most the deposit: the position returns to where it was and the
   * truncation dust stays with the vault.
   */
  lemma {:induction false} BuryThenUnearthNoGain(v: Variant, s: State, env: Env, amount: int)
    requires Bury(v, s, env, amount).Ok?
    requires 0 < NewIndex(v, s, env.now).value
    requires 0 <= UserBuried(s, env.invoker)
    ensures var s1 := Bury(v, s, env, amount).value;
            var units := ToUnits(amount, v.Scale(), NewIndex(v, s, env.now).value);
            var base := s.baseToken.value;
            && Unearth(v, s1, env, units).Ok?
            && var s2 := Unearth(v, s1, env, units).value;
               && UserBuried(s2, env.invoker) == UserBuried(s, env.invoker)
               && s2.total == s.total
               && Balance(s.tokens, base, env.invoker) - amount
                  <= Balance(s2.tokens, base, env.invoker)
                  <= Balance(s.tokens, base, env.invoker)
  {
    var s1 := Bury(v, s, env, amount).value;
    var index := NewIndex(v, s, env.now).value;
    var units := ToUnits(amount, v.Scale(), index);
    BuryCredits(v, s, env, amount);
    assert NewIndex(v, s1, env.now) == Ok(index);
    RoundTripNoGain(amount, v.Scale(), index);
    UnearthDebits(v, s1, env, units);
  }

  /**
   * `sink` mints exactly as many shares as it adds to the share total.
   * While the share and base tokens differ, the share supply minus the
   * recorded total is unchanged and the base supply drops by the deposit.
   * When they coincide (nothing in `initialize` forbids it), the one token
   * loses the deposit and gains the shares, and the supply minus the total
   * drops by the deposit.
   */
  lemma {:induction false} SinkTracksShareSupply(v: Variant, s: State, env: Env, amount: int)
    requires Sink(v, s, env, amount).Ok?
    ensures var s' := Sink(v, s, env, amount).value;
            var index := NewIndex(v, s, env.now).value;
            var shares := ToUnits(amount, v.Scale(), index);
            var share, base := s.shareToken.value, s.baseToken.value;
            && s'.index == index && s'.lastBlock == env.now
            && s'.total == s.total + shares
            && s'.userBuried == s.userBuried && s'.voyages == s.voyages && s'.userVoyage == s.userVoyage
            && (share != base ==>
                  && Balance(s'.tokens, share, env.invoker) == Balance(s.tokens, share, env.invoker) + shares
                  && Balance(s'.tokens, base, env.invoker) == Balance(s.tokens, base, env.invoker) - amount
                  && Supply(s'.tokens, share) - s'.total == Supply(s.tokens, share) - s.total
                  && Supply(s'.tokens, base) == Supply(s.tokens, base) - amount)
            && (share == base ==>
                  && Balance(s'.tokens, base, env.invoker) == Balance(s.tokens, base, env.invoker) - amount + shares
                  && Supply(s'.tokens, base) == Supply(s.tokens, base) - amount + shares
                  && Supply(s'.tokens, share) - s'.total == Supply(s.tokens, share) - s.total - amount)
  {
    var share, base := s.shareToken.value, s.baseToken.value;
    var index := NewIndex(v, s, env.now).value;
    var shares := ToUnits(amount, v.Scale(), index);
    BurnEffect(s.tokens, base, env.invoker, amount);
    var burned := Burn(s.tokens, base, env.invoker, amount).value;
    MintEffect(burned, share, env.invoker, shares);
  }

  /**
   * `dredge` burns exactly as many shares as it takes off the share total.
   * While the share and base tokens differ, the share supply minus the
   * recorded total is unchanged and the base supply grows by the payout.
   * When they coincide, the one token loses the shares and gains the
   * payout, and the supply minus the total grows by the payout.
   */
  lemma {:induction false} DredgeTracksShareSupply(v: Variant, s: State, env: Env, amount: int)
    requires Dredge(v, s, env, amount).Ok?
    ensures var s' := Dredge(v, s, env, amount).value;
            var index := NewIndex(v, s, env.now).value;
            var payout := ToBase(amount, index, v.Scale());
            var share, base := s.shareToken.value, s.baseToken.value;
            && s'.index == index && s'.lastBlock == env.now
            && s'.total == s.total - amount
            && s'.userBuried == s.userBuried && s'.voyages == s.voyages && s'.userVoyage == s.userVoyage
            && (share != base ==>
                  && Balance(s'.tokens, share, env.invoker) == Balance(s.tokens, share, env.invoker) - amount
                  && Balance(s'.tokens, base, env.invoker) == Balance(s.tokens, base, env.invoker) + payout
                  && Supply(s'.tokens, share) - s'.total == Supply(s.tokens, share) - s.total
                  && Supply(s'.tokens, base) == Supply(s.tokens, base) + payout)
            && (share == base ==>
                  && Balance(s'.tokens, base, env.invoker) == Balance(s.tokens, base, env.invoker) - amount + payout
                  && Supply(s'.tokens, base) == Supply(s.tokens, base) - amount + payout
                  && Supply(s'.tokens, share) - s'.total == Supply(s.tokens, share) - s.total + payout)
  {
    var share, base := s.shareToken.value, s.baseToken.value;
    var index := NewIndex(v, s, env.now).value;
    BurnEffect(s.tokens, share, env.invoker, amount);
    var burned := Burn(s.tokens, share, env.invoker, amount).value;
    MintEffect(burned, base, env.invoker, ToBase(amount, index, v.Scale()));
  }

  /**
   * Sinking and immediately dredging every share minted gives back at most
   * the deposit and restores the share total; while the share and base
   * tokens differ, the share balance is restored as well.
   */
  lemma {:induction false} SinkThenDredgeNoGain(v: Variant, s: State, env: Env, amount: int)
    requires Sink(v, s, env, amount).Ok?
    requires 0 < NewIndex(v, s, env.now).value
    requires 0 <= Balance(s.tokens, s.shareToken.value, env.invoker)
    ensures var s1 := Sink(v, s, env, amount).value;
            var shares := ToUnits(amount, v.Scale(), NewIndex(v, s, env.now).value);
            var share, base := s.shareToken.value, s.baseToken.value;
            && Dredge(v, s1, env, shares).Ok?
            && var s2 := Dredge(v, s1, env, shares).value;
               && (share != base ==> Balance(s2.tokens, share, env.invoker) == Balance(s.tokens, share, env.invoker))
               && s2.total == s.total
               && Balance(s.tokens, base, env.invoker) - amount
                  <= Balance(s2.tokens, base, env.invoker)
                  <= Balance(s.tokens, base, env.invoker)
  {
    var s1 := Sink(v, s, env, amount).value;
    var index := NewIndex(v, s, env.now).value;
    var shares := ToUnits(amount, v.Scale(), index);
    SinkTracksShareSupply(v, s, env, amount);
    assert NewIndex(v, s1, env.now) == Ok(index);
    RoundTripNoGain(amount, v.Scale(), index);
    DredgeTracksShareSupply(v, s1, env, shares);
  }

  /**
   * Starting at par, a withdrawal after `k` blocks at per-block rate `r`
   * pays `(r × k + scale) × amount / scale`, the expectation of the
   * per-block withdrawal tests.
   */
  lemma {:induction false} DredgeAtParPays(v: Variant, s: State, env: Env, amount: int)
    requires v.Accrual() == PerBlock
    requires s.baseToken.Some? && s.lastBlock <= env.now && s.index == v.Scale()
    ensures ToBase(amount, NewIndex(v, s, env.now).value, v.Scale())
         == Quot((s.rate * (env.now - s.lastBlock) + v.Scale()) * amount, v.Scale())
  {
    var index := NewIndex(v, s, env.now).value;
    assert index == s.rate * (env.now - s.lastBlock) + v.Scale();
    assert amount * index == index * amount;
  }
}
