/**
 * The stable-value token the payment hub drives (the mock USDC of the contracts package),
 * as values: balances, allowances, minting by faucet, approval and allowance-based transfer,
 * in the manner of an ERC-20 token.
 */
module TokenSpec {
  import opened Common

  /** An account; 0 is the zero address. */
  type Address = nat

  const ZERO_ADDRESS: Address := 0

  /** The largest value of Solidity's `uint256`. */
  const UINT256_MAX: nat := 0xffff_ffff_ffff_ffff_ffff_ffff_ffff_ffff_ffff_ffff_ffff_ffff_ffff_ffff_ffff_ffff

  /** A call argument of Solidity type `uint256`. */
  type Uint256 = x: nat | x <= UINT256_MAX

  /** The two ways an allowance-based transfer reverts. */
  datatype TokenError = InsufficientAllowance | InsufficientBalance

  /** Token storage: balances and (owner, spender) allowances; an absent entry reads as 0. */
  datatype TokenState = TokenState(balances: map<Address, nat>, allowances: map<(Address, Address), nat>)

  const EMPTY_TOKEN: TokenState := TokenState(map[], map[])

  /** `balanceOf(a)` */
  function Balance(t: TokenState, a: Address): nat {
    if a in t.balances then t.balances[a] else 0
  }

  /** `allowance(owner, spender)` */
  function Allowance(t: TokenState, owner: Address, spender: Address): nat {
    if (owner, spender) in t.allowances then t.allowances[(owner, spender)] else 0
  }

  /** Adds `amount` to the balance of `a` and to nothing else. */
  function Credit(t: TokenState, a: Address, amount: nat): (r: TokenState)
    ensures Balance(r, a) == Balance(t, a) + amount
    ensures forall b :: b != a ==> Balance(r, b) == Balance(t, b)
    ensures r.allowances == t.allowances
  {
    t.(balances := t.balances[a := Balance(t, a) + amount])
  }

  /** Takes `amount` from the balance of `a`, which holds at least that much, and from nothing else. */
  function Debit(t: TokenState, a: Address, amount: nat): (r: TokenState)
    requires Balance(t, a) >= amount
    ensures Balance(r, a) == Balance(t, a) - amount
    ensures forall b :: b != a ==> Balance(r, b) == Balance(t, b)
    ensures r.allowances == t.allowances
  {
    t.(balances := t.balances[a := Balance(t, a) - amount])
  }

  /** Moves `amount` from `src` to `dst`: the pair's total is conserved, every other balance is untouched. */
  function Move(t: TokenState, src: Address, dst: Address, amount: nat): (r: TokenState)
    requires Balance(t, src) >= amount
    ensures src != dst ==> Balance(r, src) == Balance(t, src) - amount && Balance(r, dst) == Balance(t, dst) + amount
    ensures src == dst ==> Balance(r, src) == Balance(t, src)
    ensures Balance(r, src) + Balance(r, dst) == Balance(t, src) + Balance(t, dst) || src == dst
    ensures forall b :: b != src && b != dst ==> Balance(r, b) == Balance(t, b)
    ensures r.allowances == t.allowances
  {
    Credit(Debit(t, src, amount), dst, amount)
  }

  /** `faucet(to, amount)`: mints `amount` new tokens to `to`. */
  function Mint(t: TokenState, to: Address, amount: Uint256): (r: TokenState)
    ensures Balance(r, to) == Balance(t, to) + amount
    ensures forall b :: b != to ==> Balance(r, b) == Balance(t, b)
    ensures r.allowances == t.allowances
  {
    Credit(t, to, amount)
  }

  /** `approve(spender, amount)` sent by `owner`: sets, not adds to, the allowance. */
  function Approve(t: TokenState, owner: Address, spender: Address, amount: Uint256): (r: TokenState)
    ensures Allowance(r, owner, spender) == amount
    ensures forall o: Address, s: Address :: (o, s) != (owner, spender) ==> Allowance(r, o, s) == Allowance(t, o, s)
    ensures r.balances == t.balances
  {
    t.(allowances := t.allowances[(owner, spender) := amount])
  }

  /** `transfer(to, amount)` sent by `src`: reverts when the balance is short. */
  function Transfer(t: TokenState, src: Address, dst: Address, amount: nat): (r: Result<TokenState, TokenError>)
    ensures r.Ok? <==> Balance(t, src) >= amount
    ensures r.Err? ==> r.error == InsufficientBalance
    ensures r.Ok? ==> r.value == Move(t, src, dst, amount)
  {
    if Balance(t, src) < amount then Err(InsufficientBalance) else Ok(Move(t, src, dst, amount))
  }

  /**
   * `transferFrom(src, dst, amount)` sent by `spender`: the allowance is checked first, then the
   * balance; on success the allowance drops by `amount` and the tokens move.
   */
  function TransferFrom(t: TokenState, spender: Address, src: Address, dst: Address, amount: nat): (r: Result<TokenState, TokenError>)
    ensures r.Ok? <==> Allowance(t, src, spender) >= amount && Balance(t, src) >= amount
    ensures r.Err? ==> r.error == (if Allowance(t, src, spender) < amount then InsufficientAllowance else InsufficientBalance)
    ensures r.Ok? ==> Allowance(r.value, src, spender) == Allowance(t, src, spender) - amount
    ensures r.Ok? ==> forall o: Address, s: Address :: (o, s) != (src, spender) ==> Allowance(r.value, o, s) == Allowance(t, o, s)
    ensures r.Ok? ==> r.value.balances == Move(t, src, dst, amount).balances
  {
    if Allowance(t, src, spender) < amount then Err(InsufficientAllowance)
    else if Balance(t, src) < amount then Err(InsufficientBalance)
    else
      var spent := t.(allowances := t.allowances[(src, spender) := Allowance(t, src, spender) - amount]);
      Ok(Move(spent, src, dst, amount))
  }
}
