/** The mock USDC contract: its storage is updated in place by each call. */
module Token {
  import opened Common
  import opened TokenSpec

  class MockUsdc {
    var balances: map<Address, nat>
    var allowances: map<(Address, Address), nat>

    /** The contract's storage as a value. */
    function State(): TokenState
      reads this
    {
      TokenState(balances, allowances)
    }

    /** Deployment: no balances, no allowances. */
    constructor ()
      ensures State() == EMPTY_TOKEN
    {
      balances, allowances := map[], map[];
    }

    /** `balanceOf(a)` */
    function BalanceOf(a: Address): nat
      reads this
    {
      Balance(State(), a)
    }

    /** `faucet(to, amount)`: anyone may mint. */
    method Faucet(to: Address, amount: Uint256)
      modifies this
      ensures State() == Mint(old(State()), to, amount)
    {
      balances := balances[to := BalanceOf(to) + amount];
    }

    /** `approve(spender, amount)` sent by `owner`. */
    method Approve(owner: Address, spender: Address, amount: Uint256) returns (ok: bool)
      modifies this
      ensures ok
      ensures State() == TokenSpec.Approve(old(State()), owner, spender, amount)
    {
      allowances := allowances[(owner, spender) := amount];
      ok := true;
    }

    /** `transfer(dst, amount)` sent by `src`; a revert leaves storage unchanged. */
    method Transfer(src: Address, dst: Address, amount: nat) returns (r: Result<(), TokenError>)
      modifies this
      ensures r.Ok? <==> TokenSpec.Transfer(old(State()), src, dst, amount).Ok?
      ensures r.Ok? ==> State() == TokenSpec.Transfer(old(State()), src, dst, amount).value
      ensures r.Err? ==> r.error == TokenSpec.Transfer(old(State()), src, dst, amount).error && State() == old(State())
    {
      if BalanceOf(src) < amount {
        return Err(InsufficientBalance);
      }
      balances := balances[src := BalanceOf(src) - amount];
      balances := balances[dst := BalanceOf(dst) + amount];
      r := Ok(());
    }

    /** `transferFrom(src, dst, amount)` sent by `spender`; a revert leaves storage unchanged. */
    method TransferFrom(spender: Address, src: Address, dst: Address, amount: nat) returns (r: Result<(), TokenError>)
      modifies this
      ensures r.Ok? <==> TokenSpec.TransferFrom(old(State()), spender, src, dst, amount).Ok?
      ensures r.Ok? ==> State() == TokenSpec.TransferFrom(old(State()), spender, src, dst, amount).value
      ensures r.Err? ==> r.error == TokenSpec.TransferFrom(old(State()), spender, src, dst, amount).error && State() == old(State())
    {
      var allowed := Allowance(State(), src, spender);
      if allowed < amount {
        return Err(InsufficientAllowance);
      }
      if BalanceOf(src) < amount {
        return Err(InsufficientBalance);
      }
      allowances := allowances[(src, spender) := allowed - amount];
      balances := balances[src := BalanceOf(src) - amount];
      balances := balances[dst := BalanceOf(dst) + amount];
      r := Ok(());
    }
  }
}
