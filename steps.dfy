/**
 * The specification of every entry point: the contract's persistent storage
 * as one value, and one function per entry point that either yields the
 * storage the call commits or the reason it aborts. An abort discards every
 * write of the call (the host rolls the whole invocation back), so `Commit`
 * keeps the old storage on failure.
 */
module Steps {
  import opened Common
  import opened Maps
  import opened FixedPoint
  import opened Token
  import opened Variants

  /** A voyage offering (`VoyageInfo`). Only `embarked` ever changes after creation. */
  datatype VoyageInfo = VoyageInfo(
    asset: TokenId,      // the token a voyage is paid in
    price: int,          // cost of one voyage in that token
    maxVoyages: int,     // capacity of the offering
    embarked: int,       // voyages sold so far
    expiration: U32)     // last block at which embarking is accepted

  /** The key of a user's position in one offering (`VoyageKey`). */
  datatype VoyageKey = VoyageKey(user: Identifier, voyage: I32)

  /** What the host tells an invocation: who called, the current block, and the vault's own identity. */
  datatype Env = Env(invoker: Identifier, now: U32, contractId: Identifier)

  /**
   * The contract's storage keys, plus the token balances it moves.
   * `total` is `TtlBuried` in the buried variants and `ShareTotal` in the
   * share variants; `initialize` writes every key that has no default in
   * one call, so an uninitialised vault is recognised by `baseToken`.
   */
  datatype State = State(
    baseToken: Option<TokenId>,
    shareToken: Option<TokenId>,
    total: int,
    rate: int,
    index: int,
    lastBlock: U32,
    decimals: Option<int>,
    admin: Option<Identifier>,
    targetRaidInterval: U32,
    lastRaid: Option<U32>,
    userBuried: map<Identifier, int>,
    voyages: map<I32, VoyageInfo>,
    lastVoyage: Option<I32>,
    userVoyage: map<VoyageKey, int>,
    tokens: Ledger)

  /** A freshly deployed vault: no key is stored yet. */
  function Deployed(tokens: Ledger): State {
    State(None, None, 0, 0, 0, 0, None, None, 0, None, map[], map[], None, map[], tokens)
  }

  /** What the host keeps after a call: the committed storage, or the old storage when it aborted. */
  function Commit(s: State, r: Result<State>): State {
    if r.Ok? then r.value else s
  }

  function OutcomeOf(r: Result<State>): Outcome {
    if r.Ok? then Pass else Fail(r.error)
  }

  // ---------------------------------------------------------------- reads

  /** `get_user_buried`: an absent key reads as zero. */
  function UserBuried(s: State, user: Identifier): int {
    Lookup(s.userBuried, user)
  }

  /** `get_user_voyage`: an absent key reads as zero. */
  function UserVoyage(s: State, user: Identifier, id: I32): int {
    Lookup(s.userVoyage, VoyageKey(user, id))
  }

  /** `get_last_voyage_id`: zero until the first offering exists. */
  function LastVoyageId(s: State): I32 {
    if s.lastVoyage.Some? then s.lastVoyage.value else 0
  }

  /** `get_last_raid_block`: zero while no raid has been recorded. */
  function LastRaidBlock(s: State): U32 {
    if s.lastRaid.Some? then s.lastRaid.value else 0
  }

  /** `get_voyage`: an unchecked read, so a missing offering aborts. */
  function GetVoyage(s: State, id: I32): (r: Result<VoyageInfo>)
    ensures r.Ok? <==> id in s.voyages
    ensures r.Ok? ==> r.value == s.voyages[id]
  {
    if id in s.voyages then Ok(s.voyages[id]) else Err(MissingVoyage)
  }

  /** `get_decimals`: an unchecked read, so it aborts before `initialize`. */
  function DecimalsOf(s: State): (r: Result<int>)
    ensures r.Ok? <==> s.decimals.Some?
  {
    if s.decimals.Some? then Ok(s.decimals.value) else Err(NotInitialized)
  }

  function BaseTokenOf(s: State): (r: Result<TokenId>)
    ensures r.Ok? <==> s.baseToken.Some?
    ensures r.Ok? ==> r.value == s.baseToken.value
  {
    if s.baseToken.Some? then Ok(s.baseToken.value) else Err(NotInitialized)
  }

  function ShareTokenOf(s: State): (r: Result<TokenId>)
    ensures r.Ok? <==> s.shareToken.Some?
    ensures r.Ok? ==> r.value == s.shareToken.value
  {
    if s.shareToken.Some? then Ok(s.shareToken.value) else Err(NotInitialized)
  }

  /** `get_new_index`: the stored index rolled forward to `now` at the stored rate. */
  function NewIndex(v: Variant, s: State, now: U32): (r: Result<int>)
    ensures r.Ok? <==> s.baseToken.Some? && s.lastBlock <= now
    ensures s.baseToken.Some? ==> r == AccruedIndex(v.Accrual(), s.index, s.rate, s.lastBlock, now)
    ensures s.baseToken.None? ==> r == Err(NotInitialized)
  {
    if s.baseToken.None? then Err(NotInitialized)
    else AccruedIndex(v.Accrual(), s.index, s.rate, s.lastBlock, now)
  }

  /** The first two writes of every accruing entry point: `set_index` and `set_last_block`. */
  function Rolled(s: State, index: int, now: U32): State {
    s.(index := index, lastBlock := now)
  }

  // ---------------------------------------------------------------- guard

  /**
   * `check_captain` / `check_admin`: passes exactly for the stored identity
   * and writes nothing; the stored identity is read unchecked, so the guard
   * aborts before `initialize`.
   */
  function Guard(v: Variant, s: State, caller: Identifier): (r: Result<Identifier>)
    ensures r.Ok? <==> s.admin == Some(caller)
    ensures s.admin.None? ==> r == Err(NotInitialized)
    ensures s.admin.Some? && s.admin.value != caller ==> r == Err(Unauthorized(v.Role()))
  {
    if s.admin.None? then Err(NotInitialized)
    else if s.admin.value != caller then Err(Unauthorized(v.Role()))
    else Ok(caller)
  }

  // ---------------------------------------------------------------- entry points

  /** `initialize`: refuses a second call; otherwise stores every key with the invoker as the guard identity. */
  function Initialize(v: Variant, s: State, env: Env, base: TokenId, share: TokenId, rate: int, interval: U32): (r: Result<State>)
    ensures r.Ok? <==> s.baseToken.None?
    ensures r.Err? ==> r.error == AlreadyInitialized
    ensures r.Ok? ==> (r.value.total == 0 && r.value.index == v.Scale() && r.value.lastBlock == env.now
                       && r.value.rate == rate && r.value.admin == Some(env.invoker)
                       && r.value.baseToken == Some(base) && r.value.decimals == Some(v.Decimals()))
    ensures r.Ok? && !v.Buried() ==> r.value.shareToken == Some(share)
    ensures r.Ok? && v.Buried() ==> r.value.targetRaidInterval == interval
    ensures r.Ok? && v.Buried() ==> r.value.shareToken == s.shareToken
    ensures r.Ok? && !v.Buried() ==> r.value.targetRaidInterval == s.targetRaidInterval
    ensures r.Ok? ==> (r.value.tokens == s.tokens && r.value.userBuried == s.userBuried
                       && r.value.voyages == s.voyages && r.value.userVoyage == s.userVoyage
                       && r.value.lastVoyage == s.lastVoyage && r.value.lastRaid == s.lastRaid)
  {
    if s.baseToken.Some? then Err(AlreadyInitialized)
    else Ok(s.(baseToken := Some(base),
               shareToken := if v.Buried() then s.shareToken else Some(share),
               total := 0,
               rate := rate,
               index := v.Scale(),
               lastBlock := env.now,
               decimals := Some(v.Decimals()),
               targetRaidInterval := if v.Buried() then interval else s.targetRaidInterval,
               admin := Some(env.invoker)))
  }

  /**
   * `bury`: rolls the index forward, burns `amount` base tokens from the
   * invoker and credits `amount × scale / index` buried units to the invoker
   * and to the running total.
   */
  function Bury(v: Variant, s: State, env: Env, amount: int): (r: Result<State>)
    ensures r.Ok? <==>
      && s.baseToken.Some? && s.lastBlock <= env.now
      && 0 <= amount <= Balance(s.tokens, s.baseToken.value, env.invoker)
      && NewIndex(v, s, env.now).value != 0
  {
    var index :- NewIndex(v, s, env.now);
    var tokens :- Burn(s.tokens, s.baseToken.value, env.invoker, amount);
    if index == 0 then Err(DivisionByZero)
    else
      var units := ToUnits(amount, v.Scale(), index);
      Ok(Rolled(s, index, env.now).(
        tokens := tokens,
        userBuried := s.userBuried[env.invoker := UserBuried(s, env.invoker) + units],
        total := s.total + units))
  }

  /**
   * `unearth`: rolls the index forward, refuses to take more units than the
   * invoker holds, debits the invoker and the total by `amount` and mints
   * `amount × index / scale` base tokens to the invoker.
   */
  function Unearth(v: Variant, s: State, env: Env, amount: int): (r: Result<State>)
    ensures r.Ok? <==>
      && s.baseToken.Some? && s.lastBlock <= env.now
      && amount <= UserBuried(s, env.invoker)
      && 0 <= ToBase(amount, NewIndex(v, s, env.now).value, v.Scale())
    ensures s.baseToken.Some? && s.lastBlock <= env.now && UserBuried(s, env.invoker) < amount
            ==> r == Err(InsufficientPosition)
  {
    var index :- NewIndex(v, s, env.now);
    var held := UserBuried(s, env.invoker);
    if held < amount then Err(InsufficientPosition)
    else
      var payout := ToBase(amount, index, v.Scale());
      var tokens :- Mint(s.tokens, s.baseToken.value, env.invoker, payout);
      Ok(Rolled(s, index, env.now).(
        tokens := tokens,
        userBuried := s.userBuried[env.invoker := held - amount],
        total := s.total - amount))
  }

  /**
   * `sink`: rolls the index forward, burns `amount` base tokens from the
   * invoker and mints `amount × scale / index` share tokens to the invoker,
   * raising the share total by the same number.
   */
  function Sink(v: Variant, s: State, env: Env, amount: int): (r: Result<State>)
    ensures r.Ok? <==>
      && s.baseToken.Some? && s.lastBlock <= env.now
      && 0 <= amount <= Balance(s.tokens, s.baseToken.value, env.invoker)
      && NewIndex(v, s, env.now).value != 0
      && s.shareToken.Some?
      && 0 <= ToUnits(amount, v.Scale(), NewIndex(v, s, env.now).value)
  {
    var index :- NewIndex(v, s, env.now);
    var burned :- Burn(s.tokens, s.baseToken.value, env.invoker, amount);
    if index == 0 then Err(DivisionByZero)
    else
      var shares := ToUnits(amount, v.Scale(), index);
      var share :- ShareTokenOf(s);
      var tokens :- Mint(burned, share, env.invoker, shares);
      Ok(Rolled(s, index, env.now).(tokens := tokens, total := s.total + shares))
  }

  /**
   * `dredge`: rolls the index forward, burns `amount` share tokens from the
   * invoker, lowers the share total by `amount` and mints
   * `amount × index / scale` base tokens to the invoker.
   */
  function Dredge(v: Variant, s: State, env: Env, amount: int): (r: Result<State>)
    ensures r.Ok? <==>
      && s.baseToken.Some? && s.lastBlock <= env.now
      && s.shareToken.Some?
      && 0 <= amount <= Balance(s.tokens, s.shareToken.value, env.invoker)
      && 0 <= ToBase(amount, NewIndex(v, s, env.now).value, v.Scale())
  {
    var index :- NewIndex(v, s, env.now);
    var share :- ShareTokenOf(s);
    var burned :- Burn(s.tokens, share, env.invoker, amount);
    var payout := ToBase(amount, index, v.Scale());
    var tokens :- Mint(burned, s.baseToken.value, env.invoker, payout);
    Ok(Rolled(s, index, env.now).(tokens := tokens, total := s.total - amount))
  }

  /**
   * `voyage` (embark): the offering must exist, must not have expired
   * (embarking at the expiration block itself is accepted) and must have
   * `count` voyages left; the invoker pays `price × count` of the offering's
   * asset to the vault, the invoker's position is SET to `count`, and the
   * offering's sold count grows by `count`.
   */
  function Embark(v: Variant, s: State, env: Env, id: I32, count: int): (r: Result<State>)
    ensures r.Ok? <==>
      && id in s.voyages
      && env.now <= s.voyages[id].expiration
      && count <= s.voyages[id].maxVoyages - s.voyages[id].embarked
      && 0 <= s.voyages[id].price * count <= Balance(s.tokens, s.voyages[id].asset, env.invoker)
    ensures id !in s.voyages ==> r == Err(MissingVoyage)
    ensures id in s.voyages && s.voyages[id].expiration < env.now ==> r == Err(VoyageExpired)
    ensures (id in s.voyages && env.now <= s.voyages[id].expiration
             && s.voyages[id].maxVoyages - s.voyages[id].embarked < count) ==> r == Err(CapacityExceeded)
  {
    if id !in s.voyages then Err(MissingVoyage)
    else
      var info := s.voyages[id];
      if info.expiration < env.now then Err(VoyageExpired)
      else if info.maxVoyages - info.embarked < count then Err(CapacityExceeded)
      else
        var tokens :- Transfer(s.tokens, info.asset, env.invoker, env.contractId, info.price * count);
        Ok(s.(tokens := tokens,
              userVoyage := s.userVoyage[VoyageKey(env.invoker, id) := count],
              voyages := s.voyages[id := info.(embarked := info.embarked + count)]))
  }

  /**
   * `end_voyage` (redeem): refuses a zero position; otherwise mints the
   * position times the variant's multiplier in base tokens and deletes the
   * position. The current block plays no part.
   */
  function EndVoyage(v: Variant, s: State, env: Env, id: I32): (r: Result<State>)
    ensures r.Ok? <==>
      && UserVoyage(s, env.invoker, id) != 0
      && s.baseToken.Some?
      && 0 <= UserVoyage(s, env.invoker, id) * v.RedeemMultiplier()
    ensures UserVoyage(s, env.invoker, id) == 0 ==> r == Err(NoPosition)
  {
    var held := UserVoyage(s, env.invoker, id);
    if held == 0 then Err(NoPosition)
    else
      var base :- BaseTokenOf(s);
      var tokens :- Mint(s.tokens, base, env.invoker, held * v.RedeemMultiplier());
      Ok(s.(tokens := tokens, userVoyage := s.userVoyage - {VoyageKey(env.invoker, id)}))
  }

  /** `raid`: aborts "Not Implemented" before its first read or write. */
  function Raid(v: Variant, s: State, env: Env, id: I32, voyager: Identifier): (r: Result<State>)
    ensures r == Err(NotImplemented)
  {
    Err(NotImplemented)
  }

  /**
   * `new_voyage`: guarded; allocates the id after the last one, opens the
   * offering with nothing sold, expiring one week of blocks from now, and
   * records the id as the last one. The `i32` and `u32` additions abort on
   * overflow.
   */
  function NewVoyage(v: Variant, s: State, env: Env, asset: TokenId, price: int, maxVoyages: int): (r: Result<State>)
    ensures r.Ok? <==>
      && s.admin == Some(env.invoker)
      && LastVoyageId(s) < I32_MAX
      && env.now + WEEK_IN_BLOCKS <= U32_MAX
  {
    var admin :- Guard(v, s, env.invoker);
    var id := LastVoyageId(s) + 1;
    if I32_MAX < id || U32_MAX < env.now + WEEK_IN_BLOCKS then Err(ArithmeticFault)
    else
      Ok(s.(voyages := s.voyages[id := VoyageInfo(asset, price, maxVoyages, 0, env.now + WEEK_IN_BLOCKS)],
            lastVoyage := Some(id)))
  }

  /** `xfer_held`: guarded; moves `amount` of any token out of the vault's own holdings. */
  function XferHeld(v: Variant, s: State, env: Env, token: TokenId, to: Identifier, amount: int): (r: Result<State>)
    ensures r.Ok? <==> s.admin == Some(env.invoker) && 0 <= amount <= Balance(s.tokens, token, env.contractId)
    ensures r.Ok? ==> r.value == s.(tokens := Transfer(s.tokens, token, env.contractId, to, amount).value)
  {
    var admin :- Guard(v, s, env.invoker);
    var tokens :- Transfer(s.tokens, token, env.contractId, to, amount);
    Ok(s.(tokens := tokens))
  }

  /** `set_rate` / `setRate`: guarded; settles the index at the old rate up to now, then stores the new rate. */
  function SetRate(v: Variant, s: State, env: Env, rate: int): (r: Result<State>)
    ensures r.Ok? <==> s.admin == Some(env.invoker) && s.baseToken.Some? && s.lastBlock <= env.now
  {
    var admin :- Guard(v, s, env.invoker);
    var index :- NewIndex(v, s, env.now);
    Ok(Rolled(s, index, env.now).(rate := rate))
  }

  /** `set_capn` / `set_admin` / `setAdmin`: guarded; replaces the guard identity unconditionally. */
  function SetAdmin(v: Variant, s: State, env: Env, newAdmin: Identifier): (r: Result<State>)
    ensures r.Ok? <==> s.admin == Some(env.invoker)
    ensures r.Ok? ==> r.value == s.(admin := Some(newAdmin))
  {
    var admin :- Guard(v, s, env.invoker);
    Ok(s.(admin := Some(newAdmin)))
  }

  /** `set_tgt_ri`: guarded; stores the target raid interval. */
  function SetTargetRaidInterval(v: Variant, s: State, env: Env, interval: U32): (r: Result<State>)
    ensures r.Ok? <==> s.admin == Some(env.invoker)
    ensures r.Ok? ==> r.value == s.(targetRaidInterval := interval)
  {
    var admin :- Guard(v, s, env.invoker);
    Ok(s.(targetRaidInterval := interval))
  }

  // ---------------------------------------------------------------- invariant

  /** An offering never holds more sold voyages than its capacity, once anything is sold. */
  predicate WithinCapacity(info: VoyageInfo) {
    info.embarked == 0 || info.embarked <= info.maxVoyages
  }

  /** What every reachable storage of variant `v` satisfies. */
  ghost predicate Invariant(v: Variant, s: State) {
    && (s.baseToken.None? ==>
          && s.admin.None? && s.shareToken.None? && s.decimals.None? && s.total == 0
          && s.userBuried == map[] && s.voyages == map[] && s.userVoyage == map[] && s.lastVoyage.None?)
    && (s.baseToken.Some? ==>
          && s.admin.Some? && s.decimals == Some(v.Decimals())
          && (!v.Buried() ==> s.shareToken.Some?))
    && (v.Buried() ==> Sum(s.userBuried) == s.total)
    && (!v.Buried() ==> s.userBuried == map[])
    && (!v.HasVoyages() ==> s.voyages == map[] && s.userVoyage == map[] && s.lastVoyage.None?)
    && s.lastRaid.None?
    && 0 <= LastVoyageId(s)
    && (forall id :: id in s.voyages ==> 1 <= id <= LastVoyageId(s))
    && (forall k :: k in s.userVoyage ==> k.voyage in s.voyages)
    && (forall id :: id in s.voyages ==> WithinCapacity(s.voyages[id]))
  }
}
