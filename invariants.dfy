/**
 * The storage invariant is kept by every entry point the contract defines:
 * one lemma per entry point.
 */
module Invariants {
  import opened Common
  import opened Maps
  import opened Token
  import opened Variants
  import opened Steps
  import Positions
  import Registry

  lemma {:induction false} InitializeKeepsInvariant(v: Variant, s: State, env: Env, base: TokenId, share: TokenId, rate: int, interval: U32)
    requires Invariant(v, s)
    requires Initialize(v, s, env, base, share, rate, interval).Ok?
    ensures Invariant(v, Initialize(v, s, env, base, share, rate, interval).value)
  {
    assert Sum(s.userBuried) == 0;
  }

  /** Burying keeps the sum of positions equal to the running total. */
  lemma {:induction false} BuryKeepsInvariant(v: Variant, s: State, env: Env, amount: int)
    requires Invariant(v, s) && v.Buried()
    requires Bury(v, s, env, amount).Ok?
    ensures Invariant(v, Bury(v, s, env, amount).value)
  {
    Positions.BuryCredits(v, s, env, amount);
  }

  /** Unearthing keeps the sum of positions equal to the running total. */
  lemma {:induction false} UnearthKeepsInvariant(v: Variant, s: State, env: Env, amount: int)
    requires Invariant(v, s) && v.Buried()
    requires Unearth(v, s, env, amount).Ok?
    ensures Invariant(v, Unearth(v, s, env, amount).value)
  {
    Positions.UnearthDebits(v, s, env, amount);
  }

  lemma SinkKeepsInvariant(v: Variant, s: State, env: Env, amount: int)
    requires Invariant(v, s) && !v.Buried()
    requires Sink(v, s, env, amount).Ok?
    ensures Invariant(v, Sink(v, s, env, amount).value)
  {
  }

  lemma DredgeKeepsInvariant(v: Variant, s: State, env: Env, amount: int)
    requires Invariant(v, s) && !v.Buried()
    requires Dredge(v, s, env, amount).Ok?
    ensures Invariant(v, Dredge(v, s, env, amount).value)
  {
  }

  /** Embarking keeps every offering within its capacity and every position attached to an offering. */
  lemma {:induction false} EmbarkKeepsInvariant(v: Variant, s: State, env: Env, id: I32, count: int)
    requires Invariant(v, s)
    requires Embark(v, s, env, id, count).Ok?
    ensures Invariant(v, Embark(v, s, env, id, count).value)
  {
    Registry.EmbarkEffect(v, s, env, id, count);
    var s' := Embark(v, s, env, id, count).value;
    assert forall j :: j in s'.voyages ==> j in s.voyages;
    assert forall k :: k in s'.userVoyage ==> k in s.userVoyage || k == VoyageKey(env.invoker, id);
  }

  lemma {:induction false} EndVoyageKeepsInvariant(v: Variant, s: State, env: Env, id: I32)
    requires Invariant(v, s)
    requires EndVoyage(v, s, env, id).Ok?
    ensures Invariant(v, EndVoyage(v, s, env, id).value)
  {
    var s' := EndVoyage(v, s, env, id).value;
    assert forall k :: k in s'.userVoyage ==> k in s.userVoyage;
  }

  /** Creating an offering keeps ids within 1..last and opens it with nothing sold. */
  lemma {:induction false} NewVoyageKeepsInvariant(v: Variant, s: State, env: Env, asset: TokenId, price: int, maxVoyages: int)
    requires Invariant(v, s) && v.HasVoyages()
    requires NewVoyage(v, s, env, asset, price, maxVoyages).Ok?
    ensures Invariant(v, NewVoyage(v, s, env, asset, price, maxVoyages).value)
  {
    Registry.NewVoyageIsFresh(v, s, env, asset, price, maxVoyages);
  }

  lemma XferHeldKeepsInvariant(v: Variant, s: State, env: Env, token: TokenId, to: Identifier, amount: int)
    requires Invariant(v, s)
    requires XferHeld(v, s, env, token, to, amount).Ok?
    ensures Invariant(v, XferHeld(v, s, env, token, to, amount).value)
  {
  }

  lemma SetRateKeepsInvariant(v: Variant, s: State, env: Env, rate: int)
    requires Invariant(v, s)
    requires SetRate(v, s, env, rate).Ok?
    ensures Invariant(v, SetRate(v, s, env, rate).value)
  {
  }

  lemma SetAdminKeepsInvariant(v: Variant, s: State, env: Env, newAdmin: Identifier)
    requires Invariant(v, s)
    requires SetAdmin(v, s, env, newAdmin).Ok?
    ensures Invariant(v, SetAdmin(v, s, env, newAdmin).value)
  {
  }

  lemma SetTargetRaidIntervalKeepsInvariant(v: Variant, s: State, env: Env, interval: U32)
    requires Invariant(v, s)
    requires SetTargetRaidInterval(v, s, env, interval).Ok?
    ensures Invariant(v, SetTargetRaidInterval(v, s, env, interval).value)
  {
  }
}
