/**
 * The host's view of a deployed vault: the entry points a variant exports,
 * one invocation at a time with whole-call rollback, and runs of many
 * invocations. The properties here hold for every sequence of calls.
 */
module Host {
  import opened Common
  import opened Maps
  import opened FixedPoint
  import opened Token
  import opened Variants
  import Steps
  import Positions
  import Registry
  import Invariants

  /** An invocation of one exported entry point, with its arguments. */
  datatype Call =
    | Initialize(base: TokenId, share: TokenId, rate: int, interval: U32)
    | Bury(amount: int)
    | Unearth(amount: int)
    | Sink(amount: int)
    | Dredge(amount: int)
    | Embark(id: I32, count: int)
    | EndVoyage(id: I32)
    | Raid(id: I32, voyager: Identifier)
    | NewVoyage(asset: TokenId, price: int, maxVoyages: int)
    | XferHeld(token: TokenId, to: Identifier, amount: int)
    | SetRate(rate: int)
    | SetAdmin(newAdmin: Identifier)
    | SetTargetRaidInterval(interval: U32)
  {
    /** The entry points that call the guard first. */
    predicate Privileged() {
      NewVoyage? || XferHeld? || SetRate? || SetAdmin? || SetTargetRaidInterval?
    }
  }

  /** Which entry points each contract defines. */
  predicate Exports(v: Variant, c: Call) {
    match c
    case Bury(_) => v.Buried()
    case Unearth(_) => v.Buried()
    case Raid(_, _) => v.Buried()
    case SetTargetRaidInterval(_) => v.Buried()
    case Sink(_) => !v.Buried()
    case Dredge(_) => !v.Buried()
    case Embark(_, _) => v.HasVoyages()
    case EndVoyage(_) => v.HasVoyages()
    case NewVoyage(_, _, _) => v.HasVoyages()
    case _ => true
  }

  /** One invocation: an entry point the contract does not define cannot be called. */
  function Apply(v: Variant, s: Steps.State, env: Steps.Env, c: Call): (r: Result<Steps.State>)
    ensures !Exports(v, c) ==> r == Err(UnknownFunction)
    ensures c.Raid? ==> r.Err?
  {
    if !Exports(v, c) then Err(UnknownFunction)
    else
      match c
      case Initialize(base, share, rate, interval) => Steps.Initialize(v, s, env, base, share, rate, interval)
      case Bury(amount) => Steps.Bury(v, s, env, amount)
      case Unearth(amount) => Steps.Unearth(v, s, env, amount)
      case Sink(amount) => Steps.Sink(v, s, env, amount)
      case Dredge(amount) => Steps.Dredge(v, s, env, amount)
      case Embark(id, count) => Steps.Embark(v, s, env, id, count)
      case EndVoyage(id) => Steps.EndVoyage(v, s, env, id)
      case Raid(id, voyager) => Steps.Raid(v, s, env, id, voyager)
      case NewVoyage(asset, price, maxVoyages) => Steps.NewVoyage(v, s, env, asset, price, maxVoyages)
      case XferHeld(token, to, amount) => Steps.XferHeld(v, s, env, token, to, amount)
      case SetRate(rate) => Steps.SetRate(v, s, env, rate)
      case SetAdmin(newAdmin) => Steps.SetAdmin(v, s, env, newAdmin)
      case SetTargetRaidInterval(interval) => Steps.SetTargetRaidInterval(v, s, env, interval)
  }

  /** The storage after a sequence of invocations, each committed or rolled back on its own. */
  function Run(v: Variant, s: Steps.State, calls: seq<(Steps.Env, Call)>): Steps.State
    decreases |calls|
  {
    if |calls| == 0 then s
    else Run(v, Steps.Commit(s, Apply(v, s, calls[0].0, calls[0].1)), calls[1..])
  }

  // ---------------------------------------------------------------- invariant

  /** Every invocation, committed or rolled back, keeps the storage invariant. */
  lemma {:induction false} StepPreservesInvariant(v: Variant, s: Steps.State, env: Steps.Env, c: Call)
    requires Steps.Invariant(v, s)
    ensures Steps.Invariant(v, Steps.Commit(s, Apply(v, s, env, c)))
  {
    if Apply(v, s, env, c).Ok? {
      match c
      case Initialize(base, share, rate, interval) =>
        Invariants.InitializeKeepsInvariant(v, s, env, base, share, rate, interval);
      case Bury(amount) =>
        Invariants.BuryKeepsInvariant(v, s, env, amount);
      case Unearth(amount) =>
        Invariants.UnearthKeepsInvariant(v, s, env, amount);
      case Sink(amount) =>
        Invariants.SinkKeepsInvariant(v, s, env, amount);
      case Dredge(amount) =>
        Invariants.DredgeKeepsInvariant(v, s, env, amount);
      case Embark(id, count) =>
        Invariants.EmbarkKeepsInvariant(v, s, env, id, count);
      case EndVoyage(id) =>
        Invariants.EndVoyageKeepsInvariant(v, s, env, id);
      case Raid(id, voyager) =>
      case NewVoyage(asset, price, maxVoyages) =>
        Invariants.NewVoyageKeepsInvariant(v, s, env, asset, price, maxVoyages);
      case XferHeld(token, to, amount) =>
        Invariants.XferHeldKeepsInvariant(v, s, env, token, to, amount);
      case SetRate(rate) =>
        Invariants.SetRateKeepsInvariant(v, s, env, rate);
      case SetAdmin(newAdmin) =>
        Invariants.SetAdminKeepsInvariant(v, s, env, newAdmin);
      case SetTargetRaidInterval(interval) =>
        Invariants.SetTargetRaidIntervalKeepsInvariant(v, s, env, interval);
    }
  }

  /** The invariant holds after any run that starts from a state satisfying it. */
  lemma {:induction false} RunPreservesInvariant(v: Variant, s: Steps.State, calls: seq<(Steps.Env, Call)>)
    requires Steps.Invariant(v, s)
    ensures Steps.Invariant(v, Run(v, s, calls))
    decreases |calls|
  {
    if |calls| > 0 {
      StepPreservesInvariant(v, s, calls[0].0, calls[0].1);
      RunPreservesInvariant(v, Steps.Commit(s, Apply(v, s, calls[0].0, calls[0].1)), calls[1..]);
    }
  }

  /** A freshly deployed vault satisfies the invariant, whatever the token balances. */
  lemma DeployedIsValid(v: Variant, tokens: Ledger)
    ensures Steps.Invariant(v, Steps.Deployed(tokens))
  {
    assert Sum(Steps.Deployed(tokens).userBuried) == 0;
  }

  // ---------------------------------------------------------------- guard and lifecycle

  /** A privileged call by anyone but the stored identity aborts as unauthorised and changes nothing. */
  lemma PrivilegedCallsRejectOthers(v: Variant, s: Steps.State, env: Steps.Env, c: Call)
    requires c.Privileged() && Exports(v, c)
    requires s.admin.Some? && s.admin.value != env.invoker
    ensures Apply(v, s, env, c) == Err(Unauthorized(v.Role()))
    ensures Steps.Commit(s, Apply(v, s, env, c)) == s
  {
  }

  /** Before `initialize` nothing but `initialize` can commit. */
  lemma {:induction false} OnlyInitializeStartsVault(v: Variant, s: Steps.State, env: Steps.Env, c: Call)
    requires Steps.Invariant(v, s) && s.baseToken.None?
    requires Apply(v, s, env, c).Ok?
    ensures c.Initialize?
  {
  }

  /** `initialize` succeeds at most once. */
  lemma InitializeOnlyOnce(v: Variant, s: Steps.State, env: Steps.Env, base: TokenId, share: TokenId, rate: int, interval: U32)
    requires s.baseToken.Some?
    ensures Apply(v, s, env, Initialize(base, share, rate, interval)) == Err(AlreadyInitialized)
  {
  }

  /** After the guard identity is handed over, only the new identity passes the guard. */
  lemma HandOverGuard(v: Variant, s: Steps.State, env: Steps.Env, newAdmin: Identifier, other: Identifier)
    requires Apply(v, s, env, SetAdmin(newAdmin)).Ok?
    ensures var s' := Apply(v, s, env, SetAdmin(newAdmin)).value;
            && Steps.Guard(v, s', newAdmin).Ok?
            && (other != newAdmin ==> Steps.Guard(v, s', other) == Err(Unauthorized(v.Role())))
  {
  }

  // ---------------------------------------------------------------- index

  /** The calls whose rate argument is non-negative (or that carry none). */
  predicate KeepsRateNonNegative(c: Call) {
    (c.SetRate? || c.Initialize?) ==> 0 <= c.rate
  }

  /** With a non-negative rate, no invocation lowers the index of an initialised vault. */
  lemma {:induction false} IndexNeverFalls(v: Variant, s: Steps.State, env: Steps.Env, c: Call)
    requires s.baseToken.Some? && 0 <= s.rate && KeepsRateNonNegative(c)
    ensures var s' := Steps.Commit(s, Apply(v, s, env, c));
            s.index <= s'.index && 0 <= s'.rate && s'.baseToken.Some?
  {
  }

  /** Over a whole run whose rate arguments are non-negative, the index never falls. */
  lemma {:induction false} RunIndexNeverFalls(v: Variant, s: Steps.State, calls: seq<(Steps.Env, Call)>)
    requires s.baseToken.Some? && 0 <= s.rate
    requires forall i :: 0 <= i < |calls| ==> KeepsRateNonNegative(calls[i].1)
    ensures s.index <= Run(v, s, calls).index
    decreases |calls|
  {
    if |calls| > 0 {
      var s1 := Steps.Commit(s, Apply(v, s, calls[0].0, calls[0].1));
      IndexNeverFalls(v, s, calls[0].0, calls[0].1);
      assert forall i :: 0 <= i < |calls[1..]| ==> KeepsRateNonNegative(calls[1..][i].1) by {
        forall i | 0 <= i < |calls[1..]|
          ensures KeepsRateNonNegative(calls[1..][i].1)
        {
          assert calls[1..][i] == calls[i + 1];
        }
      }
      RunIndexNeverFalls(v, s1, calls[1..]);
    }
  }

  /**
   * Lazy accrual is invisible: any invocation other than a rate change
   * leaves the index that would be computed at every later block exactly as
   * it was, whether or not the invocation rolled the index forward.
   */
  lemma {:induction false} AccrualScheduleKept(v: Variant, s: Steps.State, env: Steps.Env, c: Call, later: U32)
    requires s.baseToken.Some? && !c.SetRate?
    requires env.now <= later
    ensures Steps.NewIndex(v, Steps.Commit(s, Apply(v, s, env, c)), later) == Steps.NewIndex(v, s, later)
  {
    var r := Apply(v, s, env, c);
    if r.Ok? && (c.Bury? || c.Unearth? || c.Sink? || c.Dredge?) {
      AccrualComposes(v.Accrual(), s.index, s.rate, s.lastBlock, env.now, later);
    }
  }

  /**
   * A rate change is not retroactive: the index settles at the old rate up
   * to the block of the change, and only later blocks accrue at the new
   * rate.
   */
  lemma {:induction false} RateChangeNotRetroactive(v: Variant, s: Steps.State, env: Steps.Env, rate: int, later: U32)
    requires Apply(v, s, env, SetRate(rate)).Ok?
    requires env.now <= later
    ensures var s' := Apply(v, s, env, SetRate(rate)).value;
            && s'.rate == rate && s'.lastBlock == env.now
            && s'.index == Steps.NewIndex(v, s, env.now).value
            && Steps.NewIndex(v, s', later).value
               == Steps.NewIndex(v, s, later).value
                  - AccrualTerm(v.Accrual(), s.rate, later - env.now)
                  + AccrualTerm(v.Accrual(), rate, later - env.now)
  {
    AccrualAdditive(v.Accrual(), s.rate, env.now - s.lastBlock, later - env.now);
  }
}
