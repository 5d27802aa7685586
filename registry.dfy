/**
 * The voyage registry of `src/seven_seas.rs`, `src/pirates_bay.rs` and
 * `src/sea.rs`: offerings are created by the guard identity, embarked on
 * until they expire or sell out, and redeemed at any time afterwards.
 */
module Registry {
  import opened Common
  import opened Token
  import opened Variants
  import opened Steps

  /**
   * A successful embark overwrites the invoker's position with `count`,
   * adds `count` to the offering's sold voyages without exceeding its
   * capacity, moves the price from the invoker to the vault, and leaves every
   * other position and offering alone.
   */
  lemma {:induction false} EmbarkEffect(v: Variant, s: State, env: Env, id: I32, count: int)
    requires Embark(v, s, env, id, count).Ok?
    ensures var s' := Embark(v, s, env, id, count).value;
            var info := s.voyages[id];
            var cost := info.price * count;
            && UserVoyage(s', env.invoker, id) == count
            && (forall u, j :: (u != env.invoker || j != id) ==> UserVoyage(s', u, j) == UserVoyage(s, u, j))
            && s'.voyages == s.voyages[id := info.(embarked := info.embarked + count)]
            && s'.voyages[id].embarked <= s'.voyages[id].maxVoyages
            && (0 <= count ==> info.embarked <= s'.voyages[id].embarked)
            && (env.invoker != env.contractId ==>
                  && Balance(s'.tokens, info.asset, env.invoker) == Balance(s.tokens, info.asset, env.invoker) - cost
                  && Balance(s'.tokens, info.asset, env.contractId) == Balance(s.tokens, info.asset, env.contractId) + cost)
            && Supply(s'.tokens, info.asset) == Supply(s.tokens, info.asset)
            && s'.userBuried == s.userBuried && s'.total == s.total && s'.index == s.index
  {
    var info := s.voyages[id];
    TransferEffect(s.tokens, info.asset, env.invoker, env.contractId, info.price * count);
  }

  /**
   * Embarking twice on one offering leaves a position of only the second
   * count, although both counts were paid for and both were added to the
   * offering's sold voyages.
   */
  lemma {:induction false} RepeatEmbarkOverwrites(v: Variant, s: State, env: Env, id: I32, first: int, second: int)
    requires Embark(v, s, env, id, first).Ok?
    requires Embark(v, Embark(v, s, env, id, first).value, env, id, second).Ok?
    requires env.invoker != env.contractId
    ensures var s1 := Embark(v, s, env, id, first).value;
            var s2 := Embark(v, s1, env, id, second).value;
            var info := s.voyages[id];
            && UserVoyage(s2, env.invoker, id) == second
            && s2.voyages[id].embarked == info.embarked + first + second
            && Balance(s2.tokens, info.asset, env.invoker)
               == Balance(s.tokens, info.asset, env.invoker) - info.price * (first + second)
  {
    var s1 := Embark(v, s, env, id, first).value;
    var info := s.voyages[id];
    EmbarkEffect(v, s, env, id, first);
    assert s1.voyages[id] == info.(embarked := info.embarked + first);
    EmbarkEffect(v, s1, env, id, second);
    assert info.price * (first + second) == info.price * first + info.price * second;
  }

  /**
   * `new_voyage` never overwrites an offering: the id it allocates is one
   * past the last id and is not yet in use, the offering opens with nothing
   * sold and expires one week of blocks later, and the last id moves up.
   */
  lemma {:induction false} NewVoyageIsFresh(v: Variant, s: State, env: Env, asset: TokenId, price: int, maxVoyages: int)
    requires Invariant(v, s)
    requires NewVoyage(v, s, env, asset, price, maxVoyages).Ok?
    ensures var s' := NewVoyage(v, s, env, asset, price, maxVoyages).value;
            var id := LastVoyageId(s) + 1;
            && id !in s.voyages
            && LastVoyageId(s') == id
            && s'.voyages == s.voyages[id := VoyageInfo(asset, price, maxVoyages, 0, env.now + WEEK_IN_BLOCKS)]
            && (forall j :: j in s.voyages ==> j in s'.voyages && s'.voyages[j] == s.voyages[j])
            && s'.userVoyage == s.userVoyage && s'.tokens == s.tokens
  {
    var id := LastVoyageId(s) + 1;
    assert id !in s.voyages by {
      assert forall j :: j in s.voyages ==> j < id;
    }
  }

  /**
   * The expiration gate: an offering created at block `c` refuses an embark
   * as expired exactly when the block is past `c` + one week; at block
   * `c` + one week itself it is still open.
   */
  lemma {:induction false} ExpirationGate(v: Variant, s: State, env: Env, asset: TokenId, price: int, maxVoyages: int, later: Env, count: int)
    requires NewVoyage(v, s, env, asset, price, maxVoyages).Ok?
    ensures var s1 := NewVoyage(v, s, env, asset, price, maxVoyages).value;
            var id := LastVoyageId(s1);
            && id in s1.voyages
            && (Embark(v, s1, later, id, count) == Err(VoyageExpired) <==> env.now + WEEK_IN_BLOCKS < later.now)
  {
    var s1 := NewVoyage(v, s, env, asset, price, maxVoyages).value;
    var id := LastVoyageId(s1);
    assert s1.voyages[id].expiration == env.now + WEEK_IN_BLOCKS;
  }

  /**
   * Redemption is not time-gated: once a positive count is embarked, the
   * same user can end the voyage at any later block (before, at or after
   * expiration), receiving count × multiplier base tokens and leaving no
   * position behind.
   */
  lemma {:induction false} EmbarkThenRedeem(v: Variant, s: State, env: Env, id: I32, count: int, later: Env)
    requires Invariant(v, s)
    requires Embark(v, s, env, id, count).Ok?
    requires 0 < count && later.invoker == env.invoker
    ensures var s1 := Embark(v, s, env, id, count).value;
            && s1.baseToken.Some?
            && EndVoyage(v, s1, later, id).Ok?
            && var s2 := EndVoyage(v, s1, later, id).value;
               && UserVoyage(s2, env.invoker, id) == 0
               && Balance(s2.tokens, s1.baseToken.value, env.invoker)
                  == Balance(s1.tokens, s1.baseToken.value, env.invoker) + count * v.RedeemMultiplier()
  {
    var s1 := Embark(v, s, env, id, count).value;
    EmbarkEffect(v, s, env, id, count);
    assert s.baseToken.Some? by {
      assert id in s.voyages;
    }
    assert 0 < count * v.RedeemMultiplier();
    MintEffect(s1.tokens, s1.baseToken.value, env.invoker, count * v.RedeemMultiplier());
  }

  /** A redemption's outcome depends only on who calls, never on the block. */
  lemma RedeemIgnoresBlock(v: Variant, s: State, e1: Env, e2: Env, id: I32)
    requires e1.invoker == e2.invoker
    ensures EndVoyage(v, s, e1, id) == EndVoyage(v, s, e2, id)
  {
  }

  /** A successful redemption deletes the position and pays position × multiplier. */
  lemma {:induction false} EndVoyageEffect(v: Variant, s: State, env: Env, id: I32)
    requires EndVoyage(v, s, env, id).Ok?
    ensures var s' := EndVoyage(v, s, env, id).value;
            var paid := UserVoyage(s, env.invoker, id) * v.RedeemMultiplier();
            var base := s.baseToken.value;
            && VoyageKey(env.invoker, id) !in s'.userVoyage
            && UserVoyage(s', env.invoker, id) == 0
            && (forall u, j :: (u != env.invoker || j != id) ==> UserVoyage(s', u, j) == UserVoyage(s, u, j))
            && Balance(s'.tokens, base, env.invoker) == Balance(s.tokens, base, env.invoker) + paid
            && Supply(s'.tokens, base) == Supply(s.tokens, base) + paid
            && s'.voyages == s.voyages
  {
    MintEffect(s.tokens, s.baseToken.value, env.invoker, UserVoyage(s, env.invoker, id) * v.RedeemMultiplier());
  }
}
