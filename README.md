# Seven seas vaults in Dafny

This project models the four vault contracts of the seven-seas repository: `src/seven_seas.rs`, `src/pirates_bay.rs`, `src/sea.rs` and `shells/src/sea.rs`. It also models their storage helpers (`src/data_management.rs`, `shells/src/accounting.rs`) and their single-identity guards (`src/captain.rs`, `src/admin.rs`, `shells/src/auth.rs`).

Each vault holds a rebasing index. The index is a fixed-point number that grows lazily with the block number at a stored rate: `get_new_index` rolls it forward from the last stored block whenever a deposit, a withdrawal or a rate change touches it. Deposits convert base tokens into units at `amount × scale / index`. Withdrawals convert units back at `units × index / scale`. Both conversions use truncating division.

- **Buried vaults** (`seven_seas.rs`, `pirates_bay.rs`) keep each user's units in storage (`bury` and `unearth`). They use a scale of SCALER² = 10^14. Their index moves by `rate × blocks × SCALER / 100`.
- **Share vaults** (`sea.rs`, `shells/src/sea.rs`) mint and burn a share token instead (`sink` and `dredge`). They use a scale of 10^7 and 10^18 respectively. Their index moves by `rate × blocks`.

Three contracts also run a voyage registry:
- A guard identity creates offerings that expire one week of blocks (100800) later.
- Users embark on an offering by paying `price × count` of its asset.
- Users later end the voyage for `count × multiplier` base tokens. The multiplier is 10^7 in `seven_seas.rs`, and 1 in `pirates_bay.rs` and `src/sea.rs`.

Every privileged entry point first checks the invoker against one stored identity: the captain or the administrator.

## Structure

- `common.dfy`: the contract constants, identifiers, the abort reasons, and `Option`, `Result` and `Outcome`.
- `maps.dfy`: storage reads that default to zero, and the sum of a map's values.
- `fixed_point.dfy`: truncating division and the index accrual of both kinds. It also holds the unit conversions and their round-trip and monotonicity lemmas.
- `token.dfy`: the token contracts the vaults call, as an abstract ledger of balances per token with `mint`, `burn` and `xfer`.
- `variants.dfy`: the four contracts, as one `Variant` value with each one's scale, accrual, multiplier, decimals and guard role.
- `steps.dfy`: the contract storage as one value, and one specification function per entry point. Each function yields the storage the call commits, or the reason it aborts. This file also holds the storage invariant.
- `positions.dfy`, `registry.dfy`, `invariants.dfy`, `host.dfy`: lemmas about the specification. `host.dfy` also holds the dispatch of a call to the entry points a contract exports, and runs of many calls.
- `vault.dfy`: the contract as it executes. Class `Vault` has one field per storage key. Its entry-point methods write the keys one at a time in the order the source does, and roll every write back when a call aborts. Each method is proved to leave exactly the storage the specification function gives and to keep the invariant. For the deposit, withdrawal and embark entry points, the body past the export check is its own method (`BuryUnits`, `UnearthUnits`, `SinkShares`, `DredgeShares`, `Board`). That method is proved against the step function directly.
- `scenarios.dfy`: the repository's test examples, stated as lemmas over the model.

The model follows the code in these places:
- **Embarking at the expiration block.** The offering check in `voyage` refuses only when `expiration < block`. So embarking at the expiration block itself succeeds (`Registry.ExpirationGate`).
- **Index growth in `src/sea.rs`.** That contract's `get_new_index` and its three-argument `set_rate` live in a storage module that is not part of this model. The index growth of `src/sea.rs` is taken to be `rate × blocks` with scale 10^7. That is the arithmetic its withdrawal test expects (`tests/test_withdraw.rs:77-78`). The model does not use the `rate_scaler` argument of its `initialize` or the scaler that its `set_rate` passes. The decimals of `src/sea.rs` are still taken as 7 from `set_decimals` in `src/data_management.rs:103-105`. Its call at `src/sea.rs:139` has the shown signature (no argument), while its `set_rate` call at `src/sea.rs:136` does not, and the withdrawal test shows that its index growth differs from the shown `get_new_index`. Nothing in the contract or its tests points to a different decimals value.
- **Arithmetic faults.** Block differences and `now + 100800` are `u32` arithmetic. `last_voyage_id + 1` is `i32` arithmetic. Overflow in any of them aborts the call (`ArithmeticFault`). A division by a zero index also aborts (`DivisionByZero`).
- **Rollback.** An aborting call rolls back every storage write and token movement it made. `Steps.Commit` keeps the old storage on failure.

## Model

| member | source | states |
|---|---|---|
| FixedPoint.Quot | shells/src/sea.rs:166 | `BigInt` division truncates toward zero: the quotient times the divisor lies between zero and the dividend, within one divisor of it |
| FixedPoint.AccruedIndex | src/data_management.rs:32-40 | the rolled index exists exactly when the block has not gone backwards; it equals the stored index at the stored block, and never falls (or rises) with a non-negative (non-positive) rate |
| FixedPoint.AccrualSign | shells/src/accounting.rs:30-36 | no accrual over zero blocks; the accrual has the sign of the rate |
| FixedPoint.PerHundredBlocksIsExact | src/data_management.rs:35-39 | the division by 100 in the buried accrual never truncates: the term is rate × blocks × 10^5 |
| FixedPoint.AccrualAdditive | src/data_management.rs:32-40 | accrual over two consecutive spans equals accrual over their union |
| FixedPoint.AccrualComposes | src/data_management.rs:32-40 | rolling the index to an intermediate block and then on to a later one gives the same index as rolling it once |
| FixedPoint.ToUnitsAtPar | shells/src/sea.rs:166 | at an index equal to the scale, deposits and withdrawals convert one-for-one |
| FixedPoint.RoundTripNoGain | src/seven_seas.rs:216-234 | converting a deposit to units and straight back returns between zero and the deposit |
| FixedPoint.ValueGrowsWithIndex | src/seven_seas.rs:232 | a fixed number of units is worth no less at a higher index |
| Maps.SumUpdate | src/seven_seas.rs:46-51 | overwriting one position changes the sum of positions by the difference |
| Token.Credit | src/seven_seas.rs:58-61 | a credit moves exactly one holder's balance and that token's supply by the delta; every other balance and supply is unchanged |
| Token.Mint | src/seven_seas.rs:58-61 | minting succeeds exactly for a non-negative amount; otherwise it aborts with `NegativeAmount` |
| Token.Burn | src/seven_seas.rs:53-56 | burning succeeds exactly for an amount between zero and the holder's balance; it names the abort |
| Token.Transfer | src/seven_seas.rs:63-70 | a transfer succeeds exactly for an amount between zero and the sender's balance; it names the abort |
| Token.MintEffect | src/seven_seas.rs:58-61 | a mint raises the recipient's balance and the supply by the amount and touches nothing else |
| Token.BurnEffect | src/seven_seas.rs:53-56 | a burn lowers the holder's balance and the supply by the amount, leaves a non-negative balance and touches nothing else |
| Token.TransferEffect | src/seven_seas.rs:63-70 | a transfer moves the amount between two distinct holders, keeps every supply and touches no third holder |
| Variants.Variant.Scale | shells/src/accounting.rs:18-20 | the fixed-point scale is positive: 10^14 for buried vaults, 10^7 for `src/sea.rs`, 10^18 for the shells vault |
| Steps.GetVoyage | src/data_management.rs:55-57 | an offering is read exactly when it is stored; a missing offering aborts |
| Steps.DecimalsOf | src/seven_seas.rs:329-331 | `decimals` aborts exactly when the key was never written |
| Steps.BaseTokenOf | src/data_management.rs:46-48 | the base token is read exactly when it is stored |
| Steps.ShareTokenOf | shells/src/sea.rs:41-43 | the share token is read exactly when it is stored |
| Steps.NewIndex | src/data_management.rs:32-40 | `get_new_index` succeeds exactly on an initialised vault whose stored block is not ahead of the current block, and is the accrued index |
| Steps.Guard | src/captain.rs:15-20 | the guard passes exactly for the stored identity; an unset identity and any other caller abort |
| Steps.Initialize | src/seven_seas.rs:198-214 | `initialize` succeeds exactly once; it stores a zero total, the rate, the index at the scale, the current block, the decimals and the invoker as guard identity; share vaults store the share token and buried vaults the raid interval; no token moves, and the positions, offerings, last voyage id and last raid stay as they were |
| Steps.Bury | src/seven_seas.rs:216-224 | `bury` succeeds exactly when the index can be rolled, the deposit is between zero and the invoker's balance, and the index is non-zero |
| Steps.Unearth | src/seven_seas.rs:226-234 | `unearth` succeeds exactly when the index can be rolled, the invoker holds the units and the payout is non-negative; too few units abort with `InsufficientPosition` |
| Steps.Sink | shells/src/sea.rs:154-169 | `sink` succeeds exactly when the index can be rolled, the deposit is between zero and the base balance, the index is non-zero, the share token is set and the shares minted are non-negative |
| Steps.Dredge | shells/src/sea.rs:172-192 | `dredge` succeeds exactly when the index can be rolled, the share token is set, the amount is between zero and the share balance and the payout is non-negative |
| Steps.Embark | src/seven_seas.rs:237-266 | `voyage` succeeds exactly when the offering exists, has not expired, has `count` voyages left and the invoker can pay; each refusal names its reason |
| Steps.EndVoyage | src/seven_seas.rs:268-279 | `end_voyage` succeeds exactly for a non-zero position with a base token set; a zero position aborts with `NoPosition` |
| Steps.Raid | src/seven_seas.rs:281-283 | `raid` always aborts before touching storage |
| Steps.NewVoyage | src/seven_seas.rs:350-362 | `new_voyage` succeeds exactly for the guard identity when the next id and the expiration block fit their integer types |
| Steps.XferHeld | src/seven_seas.rs:365-369 | `xfer_held` succeeds exactly for the guard identity and an amount the vault holds, and only moves that token from the vault |
| Steps.SetRate | src/seven_seas.rs:371-378 | `set_rate` succeeds exactly for the guard identity on an initialised vault whose block has not gone backwards |
| Steps.SetAdmin | src/seven_seas.rs:386-390 | `set_capn`/`set_admin` succeeds exactly for the guard identity and changes only the identity |
| Steps.SetTargetRaidInterval | src/seven_seas.rs:380-384 | `set_tgt_ri` succeeds exactly for the guard identity and changes only the interval |
| Positions.BuryCredits | src/seven_seas.rs:216-224 | `bury` credits the invoker and the total with the same units, burns exactly the deposit, touches no other position, and credits non-negative units at a positive index |
| Positions.UnearthDebits | src/seven_seas.rs:226-234 | `unearth` debits the invoker and the total by the amount, mints the non-negative payout, and touches no other position |
| Positions.BuryThenUnearthNoGain | src/seven_seas.rs:216-234 | burying and then unearthing every credited unit at once restores the position and total and returns at most the deposit |
| Positions.SinkTracksShareSupply | src/sea.rs:38-43 | `sink` raises the share total by the shares minted; with distinct tokens the share supply rises by the same amount and the base supply falls by the deposit; with one token for both, that token loses the deposit and gains the shares |
| Positions.DredgeTracksShareSupply | src/sea.rs:31-36 | `dredge` lowers the share total by the shares burned; with distinct tokens the share supply falls by the same amount and the base supply rises by the payout; with one token for both, that token loses the shares and gains the payout |
| Positions.SinkThenDredgeNoGain | shells/src/sea.rs:154-192 | sinking and then dredging every minted share at once restores the share total, returns at most the deposit, and restores the share balance when the two tokens differ |
| Positions.DredgeAtParPays | src/sea.rs:152-160 | from par, a per-block withdrawal after k blocks pays (rate × k + scale) × amount / scale |
| Registry.EmbarkEffect | src/seven_seas.rs:237-266 | a successful embark sets the invoker's position to `count`, adds `count` to the offering without exceeding its capacity, moves the price to the vault and leaves other positions and offerings alone |
| Registry.RepeatEmbarkOverwrites | src/seven_seas.rs:260 | embarking twice keeps only the second count as the position although both counts are paid and sold |
| Registry.NewVoyageIsFresh | src/seven_seas.rs:350-362 | the new id is one past the last id and unused; the offering opens with nothing sold, expires 100800 blocks later, and no other offering changes |
| Registry.ExpirationGate | src/seven_seas.rs:241-243 | an embark is refused as expired exactly when the block is past creation + 100800 |
| Registry.EmbarkThenRedeem | src/seven_seas.rs:268-279 | after a positive embark, the same user can end the voyage at any later block and receives count × multiplier, leaving no position |
| Registry.RedeemIgnoresBlock | src/seven_seas.rs:268-279 | ending a voyage does not depend on the current block |
| Registry.EndVoyageEffect | src/seven_seas.rs:268-279 | a redemption deletes the position, pays position × multiplier and changes no offering |
| Invariants.InitializeKeepsInvariant | src/seven_seas.rs:198-214 | `initialize` keeps the storage invariant |
| Invariants.BuryKeepsInvariant | src/seven_seas.rs:216-224 | `bury` keeps the sum of positions equal to the total |
| Invariants.UnearthKeepsInvariant | src/seven_seas.rs:226-234 | `unearth` keeps the sum of positions equal to the total |
| Invariants.SinkKeepsInvariant | shells/src/sea.rs:154-169 | `sink` keeps the storage invariant |
| Invariants.DredgeKeepsInvariant | shells/src/sea.rs:172-192 | `dredge` keeps the storage invariant |
| Invariants.EmbarkKeepsInvariant | src/seven_seas.rs:237-266 | `voyage` keeps every offering within capacity and every position attached to an offering |
| Invariants.EndVoyageKeepsInvariant | src/seven_seas.rs:268-279 | `end_voyage` keeps the storage invariant |
| Invariants.NewVoyageKeepsInvariant | src/seven_seas.rs:350-362 | `new_voyage` keeps every id within 1..last id |
| Invariants.XferHeldKeepsInvariant | src/seven_seas.rs:365-369 | `xfer_held` keeps the storage invariant |
| Invariants.SetRateKeepsInvariant | src/seven_seas.rs:371-378 | `set_rate` keeps the storage invariant |
| Invariants.SetAdminKeepsInvariant | src/seven_seas.rs:386-390 | `set_capn` keeps the storage invariant |
| Invariants.SetTargetRaidIntervalKeepsInvariant | src/seven_seas.rs:380-384 | `set_tgt_ri` keeps the storage invariant |
| Host.Apply | src/seven_seas.rs:78-192 | a contract rejects an entry point it does not define, and `raid` never commits |
| Host.StepPreservesInvariant | src/seven_seas.rs:196-391 | every call, committed or rolled back, keeps the storage invariant |
| Host.RunPreservesInvariant | src/seven_seas.rs:196-391 | the invariant holds after every sequence of calls |
| Host.DeployedIsValid | src/seven_seas.rs:198-201 | a freshly deployed vault satisfies the invariant |
| Host.PrivilegedCallsRejectOthers | src/captain.rs:15-20 | every privileged call by anyone but the guard identity aborts as unauthorised and changes nothing |
| Host.OnlyInitializeStartsVault | src/seven_seas.rs:198-214 | before `initialize`, no other call commits |
| Host.InitializeOnlyOnce | src/seven_seas.rs:199-201 | a second `initialize` aborts as already initialised |
| Host.HandOverGuard | src/seven_seas.rs:386-390 | after a hand-over, the new identity passes the guard and every other caller fails it |
| Host.IndexNeverFalls | src/data_management.rs:32-40 | with non-negative rates, no call lowers the index |
| Host.RunIndexNeverFalls | src/data_management.rs:32-40 | with non-negative rates, the index never falls over a run of calls |
| Host.AccrualScheduleKept | src/seven_seas.rs:216-234 | every call except a rate change leaves the index computed at every later block unchanged |
| Host.RateChangeNotRetroactive | src/seven_seas.rs:371-378 | a rate change settles accrual at the old rate up to its block; only later blocks accrue at the new rate |
| Vaults.Vault.constructor | src/seven_seas.rs:196-201 | a deployed contract has no storage key set and satisfies the invariant |
| Vaults.Vault.Restore | src/seven_seas.rs:196-391 | the host's rollback restores every key |
| Vaults.Vault.WriteBaseToken | src/data_management.rs:107-109 | `set_base_token` changes only the base token |
| Vaults.Vault.WriteShareToken | shells/src/sea.rs:54-56 | `set_share_token` changes only the share token |
| Vaults.Vault.WriteTotal | src/data_management.rs:90-92 | `set_total_buried` changes only the total |
| Vaults.Vault.WriteRate | src/data_management.rs:111-113 | `set_rate` changes only the rate |
| Vaults.Vault.WriteIndex | src/data_management.rs:94-96 | `set_index` changes only the index |
| Vaults.Vault.WriteLastBlock | src/data_management.rs:98-101 | `set_last_block` stores the current block and nothing else |
| Vaults.Vault.WriteDecimals | src/data_management.rs:103-105 | `set_decimals` stores the contract's decimals and nothing else |
| Vaults.Vault.WriteTargetRaidInterval | src/data_management.rs:145-147 | `set_target_raid_interval` changes only the interval |
| Vaults.Vault.WriteAdmin | src/captain.rs:10-13 | `write_captain` overwrites only the guard identity |
| Vaults.Vault.WriteUserBuried | src/data_management.rs:85-88 | `set_user_buried` overwrites only one position |
| Vaults.Vault.WriteVoyage | src/data_management.rs:115-117 | `set_voyage` overwrites only one offering |
| Vaults.Vault.WriteLastVoyageId | src/data_management.rs:136-138 | `set_last_voyage_id` changes only the last id |
| Vaults.Vault.WriteUserVoyage | src/data_management.rs:119-126 | `set_user_voyage` sets one position; every other position reads as before |
| Vaults.Vault.RemoveUserVoyage | src/data_management.rs:128-134 | `remove_user_voyage` makes one position read as zero; every other position reads as before |
| Vaults.Vault.AddBuried | src/seven_seas.rs:46-51 | `add_buried` moves one position and the total by the same amount, so the sum of positions minus the total is unchanged |
| Vaults.Vault.SubtractBuried | src/seven_seas.rs:36-44 | `subtract_buried` refuses exactly when the position is too small and changes nothing then; otherwise it moves the position and the total by the same amount |
| Vaults.Vault.BurnToken | src/seven_seas.rs:53-56 | `burn_token` aborts on an unset base token or a refused burn and changes nothing then; otherwise only balances change, as the ledger burn gives |
| Vaults.Vault.MintToken | src/seven_seas.rs:58-61 | `mint_token` aborts on an unset base token or a refused mint and changes nothing then; otherwise only balances change, as the ledger mint gives |
| Vaults.Vault.MintShares | src/sea.rs:38-43 | `mint_shares` mints share tokens and raises the share total by exactly the amount |
| Vaults.Vault.BurnShares | src/sea.rs:31-36 | `burn_shares` burns share tokens and lowers the share total by exactly the amount |
| Vaults.Vault.TransferToken | src/seven_seas.rs:63-70 | `transfer` succeeds exactly when the ledger accepts the transfer, and otherwise changes nothing |
| Vaults.Vault.RollIndex | src/seven_seas.rs:218-220 | `get_new_index`, `set_index` and `set_last_block`: the index and block are rolled forward exactly as `Steps.NewIndex` gives, and nothing changes when it aborts |
| Vaults.Vault.CheckAdmin | src/admin.rs:15-20 | `check_admin` passes exactly for the stored identity and names the abort otherwise |
| Vaults.Vault.Decimals | src/seven_seas.rs:329-331 | `decimals` returns the contract's constant once initialised and aborts before |
| Vaults.Vault.GetBuried | src/data_management.rs:10-15 | `get_user_buried` reads the stored position, or zero for a user who has none |
| Vaults.Vault.GetUserVoyages | src/data_management.rs:63-74 | `get_user_voyage` reads the stored position, or zero where none is stored |
| Vaults.Vault.GetVoyage | src/seven_seas.rs:337-339 | `get_voyage` aborts for an id never allocated; a stored id lies within 1..last id |
| Vaults.Vault.GetLastRaid | src/seven_seas.rs:345-347 | `get_l_raid` always reads zero, because no call ever records a raid |
| Vaults.Vault.Initialize | src/seven_seas.rs:198-214 | the write sequence of `initialize` commits exactly the storage `Steps.Initialize` gives, or nothing, and keeps the invariant |
| Vaults.Vault.Bury | src/seven_seas.rs:216-224 | the write sequence of `bury` commits exactly the storage `Steps.Bury` gives, or nothing, and keeps the invariant |
| Vaults.Vault.BuryUnits | src/seven_seas.rs:216-224 | past the export check, the writes of `bury` commit exactly the storage `Steps.Bury` gives, or roll back to the snapshot with the same abort |
| Vaults.Vault.Unearth | src/seven_seas.rs:226-234 | the write sequence of `unearth` commits exactly the storage `Steps.Unearth` gives, or nothing, and keeps the invariant |
| Vaults.Vault.UnearthUnits | src/seven_seas.rs:226-234 | past the export check, the writes of `unearth` commit exactly the storage `Steps.Unearth` gives, or roll back to the snapshot with the same abort |
| Vaults.Vault.Sink | src/sea.rs:143-150 | the write sequence of `sink` commits exactly the storage `Steps.Sink` gives, or nothing, and keeps the invariant |
| Vaults.Vault.SinkShares | src/sea.rs:143-150 | past the export check, the writes of `sink` commit exactly the storage `Steps.Sink` gives, or roll back to the snapshot with the same abort |
| Vaults.Vault.Dredge | src/sea.rs:152-160 | the write sequence of `dredge` commits exactly the storage `Steps.Dredge` gives, or nothing, and keeps the invariant |
| Vaults.Vault.DredgeShares | src/sea.rs:152-160 | past the export check, the writes of `dredge` commit exactly the storage `Steps.Dredge` gives, or roll back to the snapshot with the same abort |
| Vaults.Vault.Embark | src/seven_seas.rs:237-266 | the write sequence of `voyage` commits exactly the storage `Steps.Embark` gives, or nothing, and keeps the invariant |
| Vaults.Vault.Board | src/seven_seas.rs:237-266 | past the export check, the checks, payment and writes of `voyage` commit exactly the storage `Steps.Embark` gives, or nothing |
| Vaults.Vault.EndVoyage | src/seven_seas.rs:268-279 | the write sequence of `end_voyage` commits exactly the storage `Steps.EndVoyage` gives, or nothing, and keeps the invariant |
| Vaults.Vault.Raid | src/seven_seas.rs:281-283 | `raid` aborts as not implemented in the buried vaults and is unknown elsewhere |
| Vaults.Vault.NewVoyage | src/seven_seas.rs:350-362 | the write sequence of `new_voyage` commits exactly the storage `Steps.NewVoyage` gives, or nothing, and keeps the invariant |
| Vaults.Vault.XferHeld | src/seven_seas.rs:365-369 | `xfer_held` commits exactly the storage `Steps.XferHeld` gives, or nothing, and keeps the invariant |
| Vaults.Vault.SetRate | src/seven_seas.rs:371-378 | the write sequence of `set_rate` commits exactly the storage `Steps.SetRate` gives, or nothing, and keeps the invariant |
| Vaults.Vault.SetAdmin | src/seven_seas.rs:386-390 | `set_capn` commits exactly the storage `Steps.SetAdmin` gives, or nothing, and keeps the invariant |
| Vaults.Vault.SetTargetRaidInterval | src/seven_seas.rs:380-384 | `set_tgt_ri` commits exactly the storage `Steps.SetTargetRaidInterval` gives, or nothing, and keeps the invariant |
| Scenarios.BuryAfterTenThousandBlocks | tests/test_deposit.rs:60-77 | after 10000 blocks at rate 500, a deposit of 123456789 moves the index to 100500000000000 and credits 122842576 units |
| Scenarios.SinkAtPar | shells/tests/test_deposit.rs:64-71 | at par, a share deposit mints exactly the deposit in shares and burns the base tokens |
| Scenarios.DredgeSeaAfterTenThousandBlocks | tests/test_withdraw.rs:68-85 | after 10000 blocks at rate 5, withdrawing 123456789 shares pays (5 × 10000 + 10^7) × 123456789 / 10^7 |
| Scenarios.SeaPayoutArithmetic | tests/test_withdraw.rs:77-78 | the index and payout arithmetic of that withdrawal |
| Scenarios.DredgeShellsAfterTenThousandBlocks | shells/tests/test_withdraw.rs:74-92 | after 10000 blocks at rate 5 × 10^12, withdrawing 123456789 shares pays (rate × 10000 + 10^18) × 123456789 / 10^18 |
| Scenarios.CreateFirstVoyage | tests/test_create_voyage.rs:42-58 | the first offering gets id 1, nothing sold, and expiration at block 10 + 100800 |
| Scenarios.RedeemAtExpiration | tests/test_voyage.rs:196-232 | buying 100 voyages and ending them at the expiration block pays 100 × 10^7 and leaves no position |

## Left out

- `raid`: everything after its unconditional abort is unreachable, including the pseudo-random raid outcome that awaits a PRNG. It is not modelled, and `set_last_raid` is never called.
- Token contracts: modelled only as a ledger of balances with mint, burn and transfer. Allowances (`approve` before `xfer_from`), token administrator checks, nonces and signatures are not modelled. A negative amount is refused, and so is a burn or transfer over the balance.
- Authentication is reduced to comparing the invoker with the stored identity. Signature kinds and nonces are not modelled.
- Debug output (`println!`) in `shells/src/accounting.rs` and `shells/src/sea.rs` is not modelled.
- The storage module that `src/sea.rs` uses for its index growth and its three-argument `set_rate` is not part of this model. Its index growth is taken from its withdrawal test, and the model does not use the scaler argument. Its decimals are taken from the shown `set_decimals`, whose signature matches its call.
- The host environment becomes explicit parameters: invoker, block number and the contract's own identifier. Concurrency and the cost of calls are not modelled.
- Crate wiring (`src/lib.rs`, `shells/src/lib.rs`), client stubs and test helpers are not modelled.
- Steps.Embark: the capacity check compares `max − embarked` with `count` but not `count` with zero. A negative count is accepted and lowers `embarked`. The invariant therefore states only that an offering stays within its capacity, not that `embarked` only grows.
- Invariants.SinkKeepsInvariant: the share total is not proved equal to the share supply. Shares minted outside the vault (as the withdrawal tests do) make them differ. `Positions.SinkTracksShareSupply` and `Positions.DredgeTracksShareSupply` state instead how each call moves the two, both for distinct tokens and for one token used as both.
