/**
 * The worked examples of the repository's tests, stated over the model:
 * the same deployments, blocks and amounts, and the balances and positions
 * the tests expect.
 */
module Scenarios {
  import opened Common
  import opened FixedPoint
  import opened Token
  import opened Variants
  import opened Steps

  const Owner := Account(1)
  const User := Account(2)
  const VaultId := Contract(100)
  const BaseId: TokenId := 1
  const ShareId: TokenId := 2
  const UsdcId: TokenId := 3

  /** A ledger in which `User` holds `amount` of `token` and nobody holds anything else. */
  function Funded(token: TokenId, amount: int): Ledger {
    map[token := map[User := amount]]
  }

  /**
   * A buried deposit of 123456789 after 10000 blocks at rate 500: the index
   * has moved from 10^14 to 100500000000000, the deposit is burned, and the
   * user is credited 123456789 × 10^14 / 100500000000000 = 122842576 units.
   */
  lemma BuryAfterTenThousandBlocks()
    ensures var s0 := Deployed(Funded(BaseId, 123456789));
            var s1 := Initialize(SevenSeas, s0, Env(Owner, 10, VaultId), BaseId, ShareId, 500, 1800).value;
            var r := Bury(SevenSeas, s1, Env(User, 10010, VaultId), 123456789);
            && r.Ok?
            && r.value.index == 100500000000000
            && UserBuried(r.value, User) == 122842576
            && r.value.total == 122842576
            && Balance(r.value.tokens, BaseId, User) == 0
            && Balance(r.value.tokens, BaseId, VaultId) == 0
  {
    var s0 := Deployed(Funded(BaseId, 123456789));
    var s1 := Initialize(SevenSeas, s0, Env(Owner, 10, VaultId), BaseId, ShareId, 500, 1800).value;
    PerHundredBlocksIsExact(500, 10000);
    assert NewIndex(SevenSeas, s1, 10010) == Ok(100500000000000);
    assert ToUnits(123456789, SCALER * SCALER, 100500000000000) == 122842576;
  }

  /** A share deposit at par (no blocks elapsed) mints exactly the deposit in shares. */
  lemma SinkAtPar()
    ensures var s0 := Deployed(Funded(BaseId, 123456789));
            var s1 := Initialize(Shells, s0, Env(Owner, 0, VaultId), BaseId, ShareId, 5000000000000, 0).value;
            var r := Sink(Shells, s1, Env(User, 0, VaultId), 123456789);
            && r.Ok?
            && Balance(r.value.tokens, ShareId, User) == 123456789
            && Balance(r.value.tokens, BaseId, User) == 0
            && Balance(r.value.tokens, BaseId, VaultId) == 0
            && r.value.total == 123456789
  {
    var s0 := Deployed(Funded(BaseId, 123456789));
    var s1 := Initialize(Shells, s0, Env(Owner, 0, VaultId), BaseId, ShareId, 5000000000000, 0).value;
    ToUnitsAtPar(123456789, SHELLS_SCALE);
    assert NewIndex(Shells, s1, 0) == Ok(SHELLS_SCALE);
  }

  /**
   * Withdrawing 123456789 shares from `src/sea.rs` after 10000 blocks at
   * per-block rate 5 pays (5 × 10000 + 10^7) × 123456789 / 10^7 base tokens.
   */
  lemma DredgeSeaAfterTenThousandBlocks()
    ensures var s0 := Deployed(Funded(ShareId, 123456789));
            var s1 := Initialize(Sea, s0, Env(Owner, 10, VaultId), BaseId, ShareId, 5, 0).value;
            var r := Dredge(Sea, s1, Env(User, 10010, VaultId), 123456789);
            && r.Ok?
            && Balance(r.value.tokens, BaseId, User) == (5 * 10000 + SCALER) * 123456789 / SCALER
            && Balance(r.value.tokens, ShareId, User) == 0
  {
    var s0 := Deployed(Funded(ShareId, 123456789));
    var s1 := Initialize(Sea, s0, Env(Owner, 10, VaultId), BaseId, ShareId, 5, 0).value;
    SeaPayoutArithmetic(s1);
  }

  /** The index and payout arithmetic of the `src/sea.rs` withdrawal example. */
  lemma SeaPayoutArithmetic(s1: State)
    requires s1.baseToken == Some(BaseId) && s1.lastBlock == 10 && s1.index == SCALER && s1.rate == 5
    ensures NewIndex(Sea, s1, 10010) == Ok(5 * 10000 + SCALER)
    ensures ToBase(123456789, 5 * 10000 + SCALER, SCALER) == (5 * 10000 + SCALER) * 123456789 / SCALER
  {
    QuotIsDiv(123456789 * (5 * 10000 + SCALER), SCALER);
  }

  /**
   * Withdrawing 123456789 shares from the shells vault after 10000 blocks
   * at per-block rate 5 × 10^12 pays (rate × 10000 + 10^18) × 123456789 / 10^18.
   */
  lemma DredgeShellsAfterTenThousandBlocks()
    ensures var s0 := Deployed(Funded(ShareId, 123456789));
            var s1 := Initialize(Shells, s0, Env(Owner, 10, VaultId), BaseId, ShareId, 5000000000000, 0).value;
            var r := Dredge(Shells, s1, Env(User, 10010, VaultId), 123456789);
            && r.Ok?
            && Balance(r.value.tokens, BaseId, User)
               == (5000000000000 * 10000 + SHELLS_SCALE) * 123456789 / SHELLS_SCALE
  {
    var s0 := Deployed(Funded(ShareId, 123456789));
    var s1 := Initialize(Shells, s0, Env(Owner, 10, VaultId), BaseId, ShareId, 5000000000000, 0).value;
    var index := 5000000000000 * 10000 + SHELLS_SCALE;
    assert NewIndex(Shells, s1, 10010) == Ok(index);
    QuotIsDiv(123456789 * index, SHELLS_SCALE);
  }

  /**
   * The first offering gets id 1, opens with nothing sold and expires
   * 100800 blocks after the block it was created at. The raid interval
   * argument is 0: `src/sea.rs` has no raid interval, and the test's
   * `rate_scaler` argument is not modelled.
   */
  lemma CreateFirstVoyage()
    ensures var s0 := Deployed(map[]);
            var s1 := Initialize(Sea, s0, Env(Owner, 10, VaultId), BaseId, ShareId, 5, 0).value;
            var r := NewVoyage(Sea, s1, Env(Owner, 10, VaultId), UsdcId, 10, 1000);
            && r.Ok?
            && GetVoyage(r.value, 1) == Ok(VoyageInfo(UsdcId, 10, 1000, 0, 10 + 100800))
  {
  }

  /**
   * Buying 100 voyages at price 10 and redeeming them at the expiration
   * block pays 100 × 10^7 base tokens from `src/seven_seas.rs` and leaves no
   * position.
   */
  lemma RedeemAtExpiration()
    ensures var s0 := Deployed(Funded(UsdcId, 1000));
            var s1 := Initialize(SevenSeas, s0, Env(Owner, 10, VaultId), BaseId, ShareId, 5, 1800).value;
            var r2 := NewVoyage(SevenSeas, s1, Env(Owner, 10, VaultId), UsdcId, 10, 1000);
            && r2.Ok?
            && var r3 := Embark(SevenSeas, r2.value, Env(User, 10, VaultId), 1, 100);
               && r3.Ok?
               && Balance(r3.value.tokens, UsdcId, User) == 0
               && Balance(r3.value.tokens, UsdcId, VaultId) == 1000
               && var r4 := EndVoyage(SevenSeas, r3.value, Env(User, 10 + 100800, VaultId), 1);
                  && r4.Ok?
                  && Balance(r4.value.tokens, BaseId, User) == 100 * SCALER
                  && UserVoyage(r4.value, User, 1) == 0
  {
    var s0 := Deployed(Funded(UsdcId, 1000));
    var s1 := Initialize(SevenSeas, s0, Env(Owner, 10, VaultId), BaseId, ShareId, 5, 1800).value;
    var s2 := NewVoyage(SevenSeas, s1, Env(Owner, 10, VaultId), UsdcId, 10, 1000).value;
    assert s2.voyages[1] == VoyageInfo(UsdcId, 10, 1000, 0, 10 + 100800);
    var s3 := Embark(SevenSeas, s2, Env(User, 10, VaultId), 1, 100).value;
    assert UserVoyage(s3, User, 1) == 100;
  }
}
