/**
 * The asset ledger the vault calls out to (base token, share token and the
 * assets that fund voyages). Its code is a foreign import, so it is modelled
 * abstractly: per-token balances, a mint that refuses a negative amount, and
 * a burn or transfer that also refuses to take more than the holder has.
 */
module Token {
  import opened Common
  import opened Maps

  /** Balances of every token contract, keyed by token then holder. */
  type Ledger = map<TokenId, map<Identifier, int>>

  function Holdings(l: Ledger, t: TokenId): map<Identifier, int> {
    if t in l then l[t] else map[]
  }

  /** `balance(token, who)`: an account never credited holds zero. */
  function Balance(l: Ledger, t: TokenId, who: Identifier): int {
    Lookup(Holdings(l, t), who)
  }

  /** The total supply of token `t`. */
  ghost function Supply(l: Ledger, t: TokenId): int {
    Sum(Holdings(l, t))
  }

  /** Adds `delta` to one holder's balance of one token. */
  function Credit(l: Ledger, t: TokenId, who: Identifier, delta: int): (l': Ledger)
    ensures Balance(l', t, who) == Balance(l, t, who) + delta
    ensures forall u, w :: (u != t || w != who) ==> Balance(l', u, w) == Balance(l, u, w)
    ensures Supply(l', t) == Supply(l, t) + delta
    ensures forall u :: u != t ==> Supply(l', u) == Supply(l, u)
  {
    var h := Holdings(l, t);
    SumUpdate(h, who, Balance(l, t, who) + delta);
    l[t := h[who := Balance(l, t, who) + delta]]
  }

  /** `mint(token, to, amount)`. */
  function Mint(l: Ledger, t: TokenId, to: Identifier, amount: int): (r: Result<Ledger>)
    ensures r.Ok? <==> 0 <= amount
    ensures !r.Ok? ==> r.error == NegativeAmount
  {
    if amount < 0 then Err(NegativeAmount) else Ok(Credit(l, t, to, amount))
  }

  /** `burn(token, from, amount)`. */
  function Burn(l: Ledger, t: TokenId, from: Identifier, amount: int): (r: Result<Ledger>)
    ensures r.Ok? <==> 0 <= amount <= Balance(l, t, from)
    ensures !r.Ok? ==> r.error == (if amount < 0 then NegativeAmount else InsufficientBalance)
  {
    if amount < 0 then Err(NegativeAmount)
    else if Balance(l, t, from) < amount then Err(InsufficientBalance)
    else Ok(Credit(l, t, from, -amount))
  }

  /** `xfer` / `xfer_from(token, from, to, amount)`; the allowance is not modelled. */
  function Transfer(l: Ledger, t: TokenId, from: Identifier, to: Identifier, amount: int): (r: Result<Ledger>)
    ensures r.Ok? <==> 0 <= amount <= Balance(l, t, from)
    ensures !r.Ok? ==> r.error == (if amount < 0 then NegativeAmount else InsufficientBalance)
  {
    if amount < 0 then Err(NegativeAmount)
    else if Balance(l, t, from) < amount then Err(InsufficientBalance)
    else Ok(Credit(Credit(l, t, from, -amount), t, to, amount))
  }

  /** A mint raises the minted token's supply and the receiver's balance by the amount, and touches nothing else. */
  lemma MintEffect(l: Ledger, t: TokenId, to: Identifier, amount: int)
    requires 0 <= amount
    ensures Balance(Mint(l, t, to, amount).value, t, to) == Balance(l, t, to) + amount
    ensures forall u, w :: (u != t || w != to) ==> Balance(Mint(l, t, to, amount).value, u, w) == Balance(l, u, w)
    ensures Supply(Mint(l, t, to, amount).value, t) == Supply(l, t) + amount
    ensures forall u :: u != t ==> Supply(Mint(l, t, to, amount).value, u) == Supply(l, u)
  {
  }

  /** A burn lowers the burned token's supply and the holder's balance by the amount, and touches nothing else. */
  lemma BurnEffect(l: Ledger, t: TokenId, from: Identifier, amount: int)
    requires 0 <= amount <= Balance(l, t, from)
    ensures Balance(Burn(l, t, from, amount).value, t, from) == Balance(l, t, from) - amount
    ensures 0 <= Balance(Burn(l, t, from, amount).value, t, from)
    ensures forall u, w :: (u != t || w != from) ==> Balance(Burn(l, t, from, amount).value, u, w) == Balance(l, u, w)
    ensures Supply(Burn(l, t, from, amount).value, t) == Supply(l, t) - amount
    ensures forall u :: u != t ==> Supply(Burn(l, t, from, amount).value, u) == Supply(l, u)
  {
  }

  /** A transfer moves the amount between two holders and leaves every supply unchanged. */
  lemma TransferEffect(l: Ledger, t: TokenId, from: Identifier, to: Identifier, amount: int)
    requires 0 <= amount <= Balance(l, t, from)
    ensures from != to ==> Balance(Transfer(l, t, from, to, amount).value, t, from) == Balance(l, t, from) - amount
    ensures from != to ==> Balance(Transfer(l, t, from, to, amount).value, t, to) == Balance(l, t, to) + amount
    ensures forall w :: w != from && w != to ==> Balance(Transfer(l, t, from, to, amount).value, t, w) == Balance(l, t, w)
    ensures forall u, w :: u != t ==> Balance(Transfer(l, t, from, to, amount).value, u, w) == Balance(l, u, w)
    ensures forall u :: Supply(Transfer(l, t, from, to, amount).value, u) == Supply(l, u)
  {
  }
}
