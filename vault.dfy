/**
 * A deployed vault as the contracts run it: storage keys that entry points
 * overwrite one at a time, in the order the source writes them, with the
 * host discarding every write of an invocation that aborts. Each entry
 * point is proved to leave exactly the storage `Host.Apply` specifies and
 * to keep the storage invariant.
 */
module Vaults {
  import opened Common
  import opened Maps
  import opened FixedPoint
  import opened Token
  import opened Variants
  import Steps
  import Host

  class Vault {
    const variant: Variant

    var baseToken: Option<TokenId>
    var shareToken: Option<TokenId>
    var total: int
    var rate: int
    var index: int
    var lastBlock: U32
    var decimals: Option<int>
    var admin: Option<Identifier>
    var targetRaidInterval: U32
    var lastRaid: Option<U32>
    var userBuried: map<Identifier, int>
    var voyages: map<I32, Steps.VoyageInfo>
    var lastVoyage: Option<I32>
    var userVoyage: map<Steps.VoyageKey, int>
    var tokens: Ledger

    /** The storage as one value. */
    function Save(): Steps.State
      reads this
    {
      Steps.State(baseToken, shareToken, total, rate, index, lastBlock, decimals, admin,
                  targetRaidInterval, lastRaid, userBuried, voyages, lastVoyage, userVoyage, tokens)
    }

    ghost predicate Valid()
      reads this
    {
      Steps.Invariant(variant, Save())
    }

    /** A freshly deployed contract: no storage key is set yet. */
    constructor (variant: Variant, tokens: Ledger)
      ensures this.variant == variant
      ensures Save() == Steps.Deployed(tokens)
      ensures Valid()
    {
      this.variant := variant;
      baseToken, shareToken, total, rate, index, lastBlock := None, None, 0, 0, 0, 0;
      decimals, admin, targetRaidInterval, lastRaid := None, None, 0, None;
      userBuried, voyages, lastVoyage, userVoyage := map[], map[], None, map[];
      this.tokens := tokens;
      new;
      Host.DeployedIsValid(variant, tokens);
    }

    /** The host's rollback: every key back to the snapshot taken when the invocation began. */
    method Restore(st: Steps.State)
      modifies this
      ensures Save() == st
    {
      RestoreTokens(st);
      RestoreGovernance(st);
      RestoreAccrual(st);
      RestoreBalances(st);
      RestoreRegistry(st);
    }

    /** Rollback of the token ids and decimals. */
    method RestoreTokens(st: Steps.State)
      modifies this
      ensures Save() == old(Save()).(baseToken := st.baseToken, shareToken := st.shareToken, decimals := st.decimals)
    {
      baseToken, shareToken, decimals := st.baseToken, st.shareToken, st.decimals;
    }

    /** Rollback of the guard identity and the raid settings. */
    method RestoreGovernance(st: Steps.State)
      modifies this
      ensures Save() == old(Save()).(admin := st.admin, targetRaidInterval := st.targetRaidInterval, lastRaid := st.lastRaid)
    {
      admin, targetRaidInterval, lastRaid := st.admin, st.targetRaidInterval, st.lastRaid;
    }

    /** Rollback of the rate and the index with its block. */
    method RestoreAccrual(st: Steps.State)
      modifies this
      ensures Save() == old(Save()).(rate := st.rate, index := st.index, lastBlock := st.lastBlock)
    {
      rate, index, lastBlock := st.rate, st.index, st.lastBlock;
    }

    /** Rollback of the share total, the buried positions and the ledger. */
    method RestoreBalances(st: Steps.State)
      modifies this
      ensures Save() == old(Save()).(total := st.total, userBuried := st.userBuried, tokens := st.tokens)
    {
      total, userBuried, tokens := st.total, st.userBuried, st.tokens;
    }

    /** Rollback of the offerings and the voyage positions. */
    method RestoreRegistry(st: Steps.State)
      modifies this
      ensures Save() == old(Save()).(voyages := st.voyages, lastVoyage := st.lastVoyage, userVoyage := st.userVoyage)
    {
      voyages, lastVoyage, userVoyage := st.voyages, st.lastVoyage, st.userVoyage;
    }

    // ------------------------------------------------------------ storage writes

    method WriteBaseToken(id: TokenId)
      modifies this
      ensures Save() == old(Save()).(baseToken := Some(id))
    {
      baseToken := Some(id);
    }

    method WriteShareToken(id: TokenId)
      modifies this
      ensures Save() == old(Save()).(shareToken := Some(id))
    {
      shareToken := Some(id);
    }

    /** `set_total_buried` / `set_total_shares`; reading it back gives the value written. */
    method WriteTotal(amount: int)
      modifies this
      ensures Save() == old(Save()).(total := amount)
      ensures total == amount
    {
      total := amount;
    }

    method WriteRate(value: int)
      modifies this
      ensures Save() == old(Save()).(rate := value)
    {
      rate := value;
    }

    method WriteIndex(value: int)
      modifies this
      ensures Save() == old(Save()).(index := value)
    {
      index := value;
    }

    /** `set_last_block`: stores the current block. */
    method WriteLastBlock(now: U32)
      modifies this
      ensures Save() == old(Save()).(lastBlock := now)
    {
      lastBlock := now;
    }

    /** `set_decimals`: stores the variant's constant (7, or 18 in the shells contract). */
    method WriteDecimals()
      modifies this
      ensures Save() == old(Save()).(decimals := Some(variant.Decimals()))
    {
      decimals := Some(variant.Decimals());
    }

    method WriteTargetRaidInterval(interval: U32)
      modifies this
      ensures Save() == old(Save()).(targetRaidInterval := interval)
    {
      targetRaidInterval := interval;
    }

    /** `write_captain` / `write_administrator`: overwrites the guard identity unconditionally. */
    method WriteAdmin(id: Identifier)
      modifies this
      ensures Save() == old(Save()).(admin := Some(id))
    {
      admin := Some(id);
    }

    method WriteUserBuried(user: Identifier, amount: int)
      modifies this
      ensures Save() == old(Save()).(userBuried := old(userBuried)[user := amount])
    {
      userBuried := userBuried[user := amount];
    }

    method WriteVoyage(id: I32, info: Steps.VoyageInfo)
      modifies this
      ensures Save() == old(Save()).(voyages := old(voyages)[id := info])
    {
      voyages := voyages[id := info];
    }

    method WriteLastVoyageId(id: I32)
      modifies this
      ensures Save() == old(Save()).(lastVoyage := Some(id))
    {
      lastVoyage := Some(id);
    }

    /** `set_user_voyage`: overwrites the position; every other position reads as before. */
    method WriteUserVoyage(user: Identifier, id: I32, amount: int)
      modifies this
      ensures Save() == old(Save()).(userVoyage := old(userVoyage)[Steps.VoyageKey(user, id) := amount])
      ensures Steps.UserVoyage(Save(), user, id) == amount
      ensures forall u, j :: (u != user || j != id) ==> Steps.UserVoyage(Save(), u, j) == Steps.UserVoyage(old(Save()), u, j)
    {
      userVoyage := userVoyage[Steps.VoyageKey(user, id) := amount];
    }

    /** `remove_user_voyage`: the position reads as zero afterwards; every other position reads as before. */
    method RemoveUserVoyage(user: Identifier, id: I32)
      modifies this
      ensures Save() == old(Save()).(userVoyage := old(userVoyage) - {Steps.VoyageKey(user, id)})
      ensures Steps.UserVoyage(Save(), user, id) == 0
      ensures forall u, j :: (u != user || j != id) ==> Steps.UserVoyage(Save(), u, j) == Steps.UserVoyage(old(Save()), u, j)
    {
      userVoyage := userVoyage - {Steps.VoyageKey(user, id)};
    }

    // ------------------------------------------------------------ position helpers

    /** `add_buried`: the position and the running total move by the same amount. */
    method AddBuried(to: Identifier, amount: int)
      modifies this
      ensures Save() == old(Save()).(userBuried := old(userBuried)[to := Steps.UserBuried(old(Save()), to) + amount],
                                     total := old(total) + amount)
      ensures Sum(userBuried) - total == old(Sum(userBuried) - total)
    {
      var current := Steps.UserBuried(Save(), to);
      SumUpdate(userBuried, to, current + amount);
      WriteUserBuried(to, current + amount);
      WriteTotal(total + amount);
    }

    /** `subtract_buried`: refuses to take more than the position holds; otherwise as `add_buried` with the amount negated. */
    method SubtractBuried(from: Identifier, amount: int) returns (o: Outcome)
      modifies this
      ensures o.Pass? <==> amount <= Steps.UserBuried(old(Save()), from)
      ensures o.Fail? ==> o.error == InsufficientPosition && Save() == old(Save())
      ensures o.Pass? ==> Save() == old(Save()).(userBuried := old(userBuried)[from := Steps.UserBuried(old(Save()), from) - amount],
                                                 total := old(total) - amount)
      ensures Sum(userBuried) - total == old(Sum(userBuried) - total)
    {
      var current := Steps.UserBuried(Save(), from);
      if current < amount {
        return Fail(InsufficientPosition);
      }
      SumUpdate(userBuried, from, current - amount);
      WriteUserBuried(from, current - amount);
      WriteTotal(total - amount);
      o := Pass;
    }

    // ------------------------------------------------------------ token calls

    /** `burn_token`: burns base tokens; aborts if the base token is unset or the ledger refuses. */
    method BurnToken(from: Identifier, amount: int) returns (o: Outcome)
      modifies this
      ensures baseToken.None? ==> o == Fail(NotInitialized)
      ensures old(baseToken).Some? ==>
                var r := Burn(old(tokens), old(baseToken).value, from, amount);
                && (o.Pass? <==> r.Ok?)
                && (r.Err? ==> o == Fail(r.error))
                && (r.Ok? ==> Save() == old(Save()).(tokens := r.value))
      ensures o.Fail? ==> Save() == old(Save())
    {
      if baseToken.None? {
        return Fail(NotInitialized);
      }
      var r := Burn(tokens, baseToken.value, from, amount);
      if r.Err? {
        return Fail(r.error);
      }
      tokens := r.value;
      o := Pass;
    }

    /** `mint_token`: mints base tokens; aborts if the base token is unset or the amount is negative. */
    method MintToken(to: Identifier, amount: int) returns (o: Outcome)
      modifies this
      ensures baseToken.None? ==> o == Fail(NotInitialized)
      ensures old(baseToken).Some? ==>
                var r := Mint(old(tokens), old(baseToken).value, to, amount);
                && (o.Pass? <==> r.Ok?)
                && (r.Err? ==> o == Fail(r.error))
                && (r.Ok? ==> Save() == old(Save()).(tokens := r.value))
      ensures o.Fail? ==> Save() == old(Save())
    {
      if baseToken.None? {
        return Fail(NotInitialized);
      }
      var r := Mint(tokens, baseToken.value, to, amount);
      if r.Err? {
        return Fail(r.error);
      }
      tokens := r.value;
      o := Pass;
    }

    /** `mint_shares`: mints share tokens and raises the share total by exactly the amount. */
    method MintShares(to: Identifier, amount: int) returns (o: Outcome)
      modifies this
      ensures shareToken.None? ==> o == Fail(NotInitialized)
      ensures old(shareToken).Some? ==>
                var r := Mint(old(tokens), old(shareToken).value, to, amount);
                && (o.Pass? <==> r.Ok?)
                && (r.Err? ==> o == Fail(r.error))
                && (r.Ok? ==> Save() == old(Save()).(tokens := r.value, total := old(total) + amount))
      ensures o.Fail? ==> Save() == old(Save())
    {
      var current := total;
      if shareToken.None? {
        return Fail(NotInitialized);
      }
      var r := Mint(tokens, shareToken.value, to, amount);
      if r.Err? {
        return Fail(r.error);
      }
      tokens := r.value;
      WriteTotal(current + amount);
      o := Pass;
    }

    /** `burn_shares`: burns share tokens and lowers the share total by exactly the amount. */
    method BurnShares(from: Identifier, amount: int) returns (o: Outcome)
      modifies this
      ensures shareToken.None? ==> o == Fail(NotInitialized)
      ensures old(shareToken).Some? ==>
                var r := Burn(old(tokens), old(shareToken).value, from, amount);
                && (o.Pass? <==> r.Ok?)
                && (r.Err? ==> o == Fail(r.error))
                && (r.Ok? ==> Save() == old(Save()).(tokens := r.value, total := old(total) - amount))
      ensures o.Fail? ==> Save() == old(Save())
    {
      var current := total;
      if shareToken.None? {
        return Fail(NotInitialized);
      }
      var r := Burn(tokens, shareToken.value, from, amount);
      if r.Err? {
        return Fail(r.error);
      }
      tokens := r.value;
      WriteTotal(current - amount);
      o := Pass;
    }

    /** `xfer` / `xfer_from` on any token. */
    method TransferToken(token: TokenId, from: Identifier, to: Identifier, amount: int) returns (o: Outcome)
      modifies this
      ensures var r := Transfer(old(tokens), token, from, to, amount);
              && (o.Pass? <==> r.Ok?)
              && (r.Err? ==> o == Fail(r.error) && Save() == old(Save()))
              && (r.Ok? ==> Save() == old(Save()).(tokens := r.value))
    {
      var r := Transfer(tokens, token, from, to, amount);
      if r.Err? {
        return Fail(r.error);
      }
      tokens := r.value;
      o := Pass;
    }

    // ------------------------------------------------------------ index

    /**
     * `get_new_index` followed by `set_index` and `set_last_block`, the
     * opening of every deposit, withdrawal and rate change.
     */
    method RollIndex(now: U32) returns (r: Result<int>)
      modifies this
      ensures r == Steps.NewIndex(variant, old(Save()), now)
      ensures r.Ok? ==> Save() == Steps.Rolled(old(Save()), r.value, now)
      ensures r.Err? ==> Save() == old(Save())
    {
      r := Steps.NewIndex(variant, Save(), now);
      if r.Err? {
        return;
      }
      WriteIndex(r.value);
      WriteLastBlock(now);
    }

    // ------------------------------------------------------------ guard and reads

    /** `check_captain` / `check_admin`: passes exactly for the stored identity, writing nothing. */
    method CheckAdmin(caller: Identifier) returns (o: Outcome)
      ensures o.Pass? <==> admin == Some(caller)
      ensures admin.None? ==> o == Fail(NotInitialized)
      ensures admin.Some? && admin.value != caller ==> o == Fail(Unauthorized(variant.Role()))
    {
      if admin.None? {
        return Fail(NotInitialized);
      }
      if admin.value != caller {
        return Fail(Unauthorized(variant.Role()));
      }
      o := Pass;
    }

    /** `decimals`: the stored constant once initialised. */
    method Decimals() returns (r: Result<int>)
      requires Valid()
      ensures baseToken.None? ==> r == Err(NotInitialized)
      ensures baseToken.Some? ==> r == Ok(variant.Decimals())
    {
      r := Steps.DecimalsOf(Save());
    }

    /** `get_buried`: zero for a user who never buried. */
    method GetBuried(user: Identifier) returns (amount: int)
      ensures user !in userBuried ==> amount == 0
      ensures user in userBuried ==> amount == userBuried[user]
    {
      amount := Steps.UserBuried(Save(), user);
    }

    /** `get_u_vygs`: zero where no position is stored. */
    method GetUserVoyages(user: Identifier, id: I32) returns (amount: int)
      ensures Steps.VoyageKey(user, id) !in userVoyage ==> amount == 0
      ensures Steps.VoyageKey(user, id) in userVoyage ==> amount == userVoyage[Steps.VoyageKey(user, id)]
    {
      amount := Steps.UserVoyage(Save(), user, id);
    }

    /** `get_voyage`: aborts for an id that was never allocated. */
    method GetVoyage(id: I32) returns (r: Result<Steps.VoyageInfo>)
      requires Valid()
      ensures r.Ok? <==> id in voyages
      ensures r.Ok? ==> r.value == voyages[id] && 1 <= id <= Steps.LastVoyageId(Save())
    {
      r := Steps.GetVoyage(Save(), id);
    }

    /** `get_l_raid`: no entry point ever records a raid, so this always reads zero. */
    method GetLastRaid() returns (block: U32)
      requires Valid()
      ensures block == 0
    {
      block := Steps.LastRaidBlock(Save());
    }

    // ------------------------------------------------------------ entry points
    //
    // Each entry point ends a successful call by matching the storage it
    // wrote against the specification and carrying the invariant across.

    method Initialize(env: Steps.Env, base: TokenId, share: TokenId, rate: int, interval: U32) returns (o: Outcome)
      requires Valid()
      modifies this
      ensures Save() == Steps.Commit(old(Save()), Host.Apply(variant, old(Save()), env, Host.Initialize(base, share, rate, interval)))
      ensures o == Steps.OutcomeOf(Host.Apply(variant, old(Save()), env, Host.Initialize(base, share, rate, interval)))
      ensures Valid()
    {
      var before := Save();
      if baseToken.Some? {
        return Fail(AlreadyInitialized);
      }
      WriteBaseToken(base);
      if !variant.Buried() {
        WriteShareToken(share);
      }
      WriteTotal(0);
      WriteRate(rate);
      WriteIndex(variant.Scale());
      WriteLastBlock(env.now);
      WriteDecimals();
      if variant.Buried() {
        WriteTargetRaidInterval(interval);
      }
      WriteAdmin(env.invoker);
      o := Pass;
      assert Save() == Steps.Commit(before, Host.Apply(variant, before, env, Host.Initialize(base, share, rate, interval)));
      Host.StepPreservesInvariant(variant, before, env, Host.Initialize(base, share, rate, interval));
    }

    method Bury(env: Steps.Env, amount: int) returns (o: Outcome)
      requires Valid()
      modifies this
      ensures Save() == Steps.Commit(old(Save()), Host.Apply(variant, old(Save()), env, Host.Bury(amount)))
      ensures o == Steps.OutcomeOf(Host.Apply(variant, old(Save()), env, Host.Bury(amount)))
      ensures Valid()
    {
      var before := Save();
      if !variant.Buried() {
        return Fail(UnknownFunction);
      }
      o := BuryUnits(env, amount);
      assert Host.Apply(variant, before, env, Host.Bury(amount)) == Steps.Bury(variant, before, env, amount);
      Host.StepPreservesInvariant(variant, before, env, Host.Bury(amount));
    }

    /** The body of `bury` once the entry point exists: index roll-forward, burn, and the credit in position units. */
    method BuryUnits(env: Steps.Env, amount: int) returns (o: Outcome)
      modifies this
      ensures Save() == Steps.Commit(old(Save()), Steps.Bury(variant, old(Save()), env, amount))
      ensures o == Steps.OutcomeOf(Steps.Bury(variant, old(Save()), env, amount))
    {
      var before := Save();
      var newIndex := RollIndex(env.now);
      if newIndex.Err? {
        return Fail(newIndex.error);
      }
      o := BurnToken(env.invoker, amount);
      if o.Fail? {
        Restore(before);
        return;
      }
      if newIndex.value == 0 {
        Restore(before);
        return Fail(DivisionByZero);
      }
      AddBuried(env.invoker, ToUnits(amount, variant.Scale(), newIndex.value));
    }

    method Unearth(env: Steps.Env, amount: int) returns (o: Outcome)
      requires Valid()
      modifies this
      ensures Save() == Steps.Commit(old(Save()), Host.Apply(variant, old(Save()), env, Host.Unearth(amount)))
      ensures o == Steps.OutcomeOf(Host.Apply(variant, old(Save()), env, Host.Unearth(amount)))
      ensures Valid()
    {
      var before := Save();
      if !variant.Buried() {
        return Fail(UnknownFunction);
      }
      o := UnearthUnits(env, amount);
      assert Host.Apply(variant, before, env, Host.Unearth(amount)) == Steps.Unearth(variant, before, env, amount);
      Host.StepPreservesInvariant(variant, before, env, Host.Unearth(amount));
    }

    /** The body of `unearth` once the entry point exists: index roll-forward, debit of the position, and the payout mint. */
    method UnearthUnits(env: Steps.Env, amount: int) returns (o: Outcome)
      modifies this
      ensures Save() == Steps.Commit(old(Save()), Steps.Unearth(variant, old(Save()), env, amount))
      ensures o == Steps.OutcomeOf(Steps.Unearth(variant, old(Save()), env, amount))
    {
      var before := Save();
      var newIndex := RollIndex(env.now);
      if newIndex.Err? {
        return Fail(newIndex.error);
      }
      o := SubtractBuried(env.invoker, amount);
      if o.Fail? {
        Restore(before);
        return;
      }
      o := MintToken(env.invoker, ToBase(amount, newIndex.value, variant.Scale()));
      if o.Fail? {
        Restore(before);
        return;
      }
    }

    method Sink(env: Steps.Env, amount: int) returns (o: Outcome)
      requires Valid()
      modifies this
      ensures Save() == Steps.Commit(old(Save()), Host.Apply(variant, old(Save()), env, Host.Sink(amount)))
      ensures o == Steps.OutcomeOf(Host.Apply(variant, old(Save()), env, Host.Sink(amount)))
      ensures Valid()
    {
      var before := Save();
      if variant.Buried() {
        return Fail(UnknownFunction);
      }
      o := SinkShares(env, amount);
      assert Host.Apply(variant, before, env, Host.Sink(amount)) == Steps.Sink(variant, before, env, amount);
      Host.StepPreservesInvariant(variant, before, env, Host.Sink(amount));
    }

    /** The body of `sink` once the entry point exists: index roll-forward, burn, and the share mint. */
    method SinkShares(env: Steps.Env, amount: int) returns (o: Outcome)
      requires baseToken.Some? ==> shareToken.Some?
      modifies this
      ensures Save() == Steps.Commit(old(Save()), Steps.Sink(variant, old(Save()), env, amount))
      ensures o == Steps.OutcomeOf(Steps.Sink(variant, old(Save()), env, amount))
    {
      var before := Save();
      var newIndex := RollIndex(env.now);
      if newIndex.Err? {
        return Fail(newIndex.error);
      }
      o := BurnToken(env.invoker, amount);
      if o.Fail? {
        Restore(before);
        return;
      }
      if newIndex.value == 0 {
        Restore(before);
        return Fail(DivisionByZero);
      }
      o := MintShares(env.invoker, ToUnits(amount, variant.Scale(), newIndex.value));
      if o.Fail? {
        Restore(before);
        return;
      }
    }

    method Dredge(env: Steps.Env, amount: int) returns (o: Outcome)
      requires Valid()
      modifies this
      ensures Save() == Steps.Commit(old(Save()), Host.Apply(variant, old(Save()), env, Host.Dredge(amount)))
      ensures o == Steps.OutcomeOf(Host.Apply(variant, old(Save()), env, Host.Dredge(amount)))
      ensures Valid()
    {
      var before := Save();
      if variant.Buried() {
        return Fail(UnknownFunction);
      }
      o := DredgeShares(env, amount);
      assert Host.Apply(variant, before, env, Host.Dredge(amount)) == Steps.Dredge(variant, before, env, amount);
      Host.StepPreservesInvariant(variant, before, env, Host.Dredge(amount));
    }

    /** The body of `dredge` once the entry point exists: index roll-forward, share burn, and the payout mint. */
    method DredgeShares(env: Steps.Env, amount: int) returns (o: Outcome)
      requires baseToken.Some? ==> shareToken.Some?
      modifies this
      ensures Save() == Steps.Commit(old(Save()), Steps.Dredge(variant, old(Save()), env, amount))
      ensures o == Steps.OutcomeOf(Steps.Dredge(variant, old(Save()), env, amount))
    {
      var before := Save();
      var newIndex := RollIndex(env.now);
      if newIndex.Err? {
        return Fail(newIndex.error);
      }
      o := BurnShares(env.invoker, amount);
      if o.Fail? {
        Restore(before);
        return;
      }
      o := MintToken(env.invoker, ToBase(amount, newIndex.value, variant.Scale()));
      if o.Fail? {
        Restore(before);
        return;
      }
    }

    /** `voyage`: the offering is copied out, its sold count bumped, and written back. */
    method Embark(env: Steps.Env, id: I32, count: int) returns (o: Outcome)
      requires Valid()
      modifies this
      ensures Save() == Steps.Commit(old(Save()), Host.Apply(variant, old(Save()), env, Host.Embark(id, count)))
      ensures o == Steps.OutcomeOf(Host.Apply(variant, old(Save()), env, Host.Embark(id, count)))
      ensures Valid()
    {
      var before := Save();
      if !variant.HasVoyages() {
        return Fail(UnknownFunction);
      }
      o := Board(env, id, count);
      assert Host.Apply(variant, before, env, Host.Embark(id, count)) == Steps.Embark(variant, before, env, id, count);
      Host.StepPreservesInvariant(variant, before, env, Host.Embark(id, count));
    }

    /** The body of `voyage` once the entry point exists: checks, payment, and the two writes. */
    method Board(env: Steps.Env, id: I32, count: int) returns (o: Outcome)
      modifies this
      ensures Save() == Steps.Commit(old(Save()), Steps.Embark(variant, old(Save()), env, id, count))
      ensures o == Steps.OutcomeOf(Steps.Embark(variant, old(Save()), env, id, count))
    {
      if id !in voyages {
        return Fail(MissingVoyage);
      }
      var info := voyages[id];
      if info.expiration < env.now {
        return Fail(VoyageExpired);
      }
      if info.maxVoyages - info.embarked < count {
        return Fail(CapacityExceeded);
      }
      o := TransferToken(info.asset, env.invoker, env.contractId, info.price * count);
      if o.Fail? {
        return;
      }
      WriteUserVoyage(env.invoker, id, count);
      WriteVoyage(id, info.(embarked := info.embarked + count));
    }

    method EndVoyage(env: Steps.Env, id: I32) returns (o: Outcome)
      requires Valid()
      modifies this
      ensures Save() == Steps.Commit(old(Save()), Host.Apply(variant, old(Save()), env, Host.EndVoyage(id)))
      ensures o == Steps.OutcomeOf(Host.Apply(variant, old(Save()), env, Host.EndVoyage(id)))
      ensures Valid()
    {
      var before := Save();
      if !variant.HasVoyages() {
        return Fail(UnknownFunction);
      }
      var held := Steps.UserVoyage(before, env.invoker, id);
      if held == 0 {
        return Fail(NoPosition);
      }
      o := MintToken(env.invoker, held * variant.RedeemMultiplier());
      if o.Fail? {
        return;
      }
      RemoveUserVoyage(env.invoker, id);
      assert Save() == Steps.Commit(before, Host.Apply(variant, before, env, Host.EndVoyage(id)));
      Host.StepPreservesInvariant(variant, before, env, Host.EndVoyage(id));
    }

    /** `raid`: aborts before reading or writing anything. */
    method Raid(env: Steps.Env, id: I32, voyager: Identifier) returns (o: Outcome)
      ensures o == Steps.OutcomeOf(Host.Apply(variant, Save(), env, Host.Raid(id, voyager)))
      ensures o == Fail(if variant.Buried() then NotImplemented else UnknownFunction)
    {
      if !variant.Buried() {
        return Fail(UnknownFunction);
      }
      o := Fail(NotImplemented);
    }

    method NewVoyage(env: Steps.Env, asset: TokenId, price: int, maxVoyages: int) returns (o: Outcome)
      requires Valid()
      modifies this
      ensures Save() == Steps.Commit(old(Save()), Host.Apply(variant, old(Save()), env, Host.NewVoyage(asset, price, maxVoyages)))
      ensures o == Steps.OutcomeOf(Host.Apply(variant, old(Save()), env, Host.NewVoyage(asset, price, maxVoyages)))
      ensures Valid()
    {
      var before := Save();
      if !variant.HasVoyages() {
        return Fail(UnknownFunction);
      }
      o := CheckAdmin(env.invoker);
      if o.Fail? {
        return;
      }
      var id := Steps.LastVoyageId(before) + 1;
      if I32_MAX < id || U32_MAX < env.now + WEEK_IN_BLOCKS {
        return Fail(ArithmeticFault);
      }
      WriteVoyage(id, Steps.VoyageInfo(asset, price, maxVoyages, 0, env.now + WEEK_IN_BLOCKS));
      WriteLastVoyageId(id);
      assert Save() == Steps.Commit(before, Host.Apply(variant, before, env, Host.NewVoyage(asset, price, maxVoyages)));
      Host.StepPreservesInvariant(variant, before, env, Host.NewVoyage(asset, price, maxVoyages));
    }

    method XferHeld(env: Steps.Env, token: TokenId, to: Identifier, amount: int) returns (o: Outcome)
      requires Valid()
      modifies this
      ensures Save() == Steps.Commit(old(Save()), Host.Apply(variant, old(Save()), env, Host.XferHeld(token, to, amount)))
      ensures o == Steps.OutcomeOf(Host.Apply(variant, old(Save()), env, Host.XferHeld(token, to, amount)))
      ensures Valid()
    {
      var before := Save();
      o := CheckAdmin(env.invoker);
      if o.Fail? {
        return;
      }
      o := TransferToken(token, env.contractId, to, amount);
      if o.Fail? {
        return;
      }
      assert Save() == Steps.Commit(before, Host.Apply(variant, before, env, Host.XferHeld(token, to, amount)));
      Host.StepPreservesInvariant(variant, before, env, Host.XferHeld(token, to, amount));
    }

    method SetRate(env: Steps.Env, rate: int) returns (o: Outcome)
      requires Valid()
      modifies this
      ensures Save() == Steps.Commit(old(Save()), Host.Apply(variant, old(Save()), env, Host.SetRate(rate)))
      ensures o == Steps.OutcomeOf(Host.Apply(variant, old(Save()), env, Host.SetRate(rate)))
      ensures Valid()
    {
      var before := Save();
      o := CheckAdmin(env.invoker);
      if o.Fail? {
        return;
      }
      var newIndex := RollIndex(env.now);
      if newIndex.Err? {
        return Fail(newIndex.error);
      }
      WriteRate(rate);
      assert Save() == Steps.Commit(before, Host.Apply(variant, before, env, Host.SetRate(rate)));
      Host.StepPreservesInvariant(variant, before, env, Host.SetRate(rate));
    }

    method SetAdmin(env: Steps.Env, newAdmin: Identifier) returns (o: Outcome)
      requires Valid()
      modifies this
      ensures Save() == Steps.Commit(old(Save()), Host.Apply(variant, old(Save()), env, Host.SetAdmin(newAdmin)))
      ensures o == Steps.OutcomeOf(Host.Apply(variant, old(Save()), env, Host.SetAdmin(newAdmin)))
      ensures Valid()
    {
      var before := Save();
      o := CheckAdmin(env.invoker);
      if o.Fail? {
        return;
      }
      WriteAdmin(newAdmin);
      assert Save() == Steps.Commit(before, Host.Apply(variant, before, env, Host.SetAdmin(newAdmin)));
      Host.StepPreservesInvariant(variant, before, env, Host.SetAdmin(newAdmin));
    }

    method SetTargetRaidInterval(env: Steps.Env, interval: U32) returns (o: Outcome)
      requires Valid()
      modifies this
      ensures Save() == Steps.Commit(old(Save()), Host.Apply(variant, old(Save()), env, Host.SetTargetRaidInterval(interval)))
      ensures o == Steps.OutcomeOf(Host.Apply(variant, old(Save()), env, Host.SetTargetRaidInterval(interval)))
      ensures Valid()
    {
      var before := Save();
      if !variant.Buried() {
        return Fail(UnknownFunction);
      }
      o := CheckAdmin(env.invoker);
      if o.Fail? {
        return;
      }
      WriteTargetRaidInterval(interval);
      assert Save() == Steps.Commit(before, Host.Apply(variant, before, env, Host.SetTargetRaidInterval(interval)));
      Host.StepPreservesInvariant(variant, before, env, Host.SetTargetRaidInterval(interval));
    }
  }
}
