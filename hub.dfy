/**
 * The payment hub contract as a mutable object. Its storage is a set of fields that each call
 * updates in place, and it drives the mock USDC token through that token's own methods. Each
 * method either commits exactly the storage its value-level counterpart in `HubSpec` computes,
 * or reverts, restoring everything it touched. Checks come first, then the record is written,
 * then the token is called.
 */
module Hub {
  import opened Common
  import opened TokenSpec
  import opened Token
  import opened HubSpec
  import HubProperties

  class PaymentHub {
    const token: MockUsdc
    const hubAddress: Address
    const feeAccount: Address
    const feeBps: nat
    var admins: set<Address>
    var merchants: set<Address>
    var paused: bool
    var payments: map<PaymentId, Payment>
    var events: seq<Event>

    /** The hub's storage and its token's as one value. */
    ghost function State(): HubState
      reads this, token
    {
      HubState(hubAddress, feeAccount, feeBps, admins, merchants, paused, payments, events, token.State())
    }

    ghost predicate Valid()
      reads this, token
    {
      HubSpec.Valid(State())
    }

    /** Creates the storage of a hub whose deployment does not revert; `Deploy` is the entry point. */
    constructor (token: MockUsdc, deployer: Address, hubAddress: Address, usdc: Address, feeAccount: Address, feeBps: Uint256)
      requires HubSpec.Deploy(deployer, hubAddress, usdc, feeAccount, feeBps, token.State()).Ok?
      ensures this.token == token
      ensures State() == HubSpec.Deploy(deployer, hubAddress, usdc, feeAccount, feeBps, token.State()).value
      ensures Valid()
    {
      this.token := token;
      this.hubAddress := hubAddress;
      this.feeAccount := feeAccount;
      this.feeBps := feeBps;
      admins := {deployer};
      merchants := {};
      paused := false;
      payments := map[];
      events := [];
    }

    /** Deploys a hub at `hubAddress` on `token`, or reverts with the constructor's error. */
    static method Deploy(token: MockUsdc, deployer: Address, hubAddress: Address, usdc: Address, feeAccount: Address, feeBps: Uint256)
      returns (r: Result<PaymentHub, HubError>)
      ensures HubSpec.Deploy(deployer, hubAddress, usdc, feeAccount, feeBps, token.State()).Err? ==>
        r == Err(HubSpec.Deploy(deployer, hubAddress, usdc, feeAccount, feeBps, token.State()).error)
      ensures HubSpec.Deploy(deployer, hubAddress, usdc, feeAccount, feeBps, token.State()).Ok? ==>
        && r.Ok? && fresh(r.value) && r.value.token == token && r.value.Valid()
        && r.value.State() == HubSpec.Deploy(deployer, hubAddress, usdc, feeAccount, feeBps, token.State()).value
    {
      if usdc == ZERO_ADDRESS || feeAccount == ZERO_ADDRESS {
        return Err(ZeroAddress);
      }
      if feeBps > MAX_FEE_BPS {
        return Err(FeeTooHigh);
      }
      var hub := new PaymentHub(token, deployer, hubAddress, usdc, feeAccount, feeBps);
      r := Ok(hub);
    }

    // ------------------------------------------------------------ queries

    /** `hasRole(role, account)`, as the hub's storage answers it. */
    function HasRole(role: Role, account: Address): (b: bool)
      reads this, token
      ensures b == HubSpec.HasRole(State(), role, account)
    {
      match role
      case AdminRole => account in admins
      case MerchantRole => account in merchants
    }

    /** `isRefundRequested(id)`: false for an id never processed. */
    function IsRefundRequested(id: PaymentId): (b: bool)
      reads this, token
      ensures b == HubSpec.IsRefundRequested(State(), id)
    {
      id in payments && payments[id].refundRequested
    }

    /** `isRefunded(id)`: false for an id never processed. */
    function IsRefunded(id: PaymentId): (b: bool)
      reads this, token
      ensures b == HubSpec.IsRefunded(State(), id)
    {
      id in payments && payments[id].refunded
    }

    /**
     * `computeFeeAndNet(amount)` at this hub's rate. At an admissible rate it fails only when
     * `amount * feeBps` leaves `uint256`, and then fee and net split the amount exactly.
     */
    function ComputeFeeAndNet(amount: Uint256): (r: Result<FeeSplit, HubError>)
      reads this
      ensures r == HubSpec.ComputeFeeAndNet(feeBps, amount)
      ensures feeBps <= MAX_FEE_BPS ==> (r.Ok? <==> amount * feeBps <= UINT256_MAX)
      ensures feeBps <= MAX_FEE_BPS && r.Ok? ==> r.value.fee + r.value.net == amount
    {
      if feeBps <= MAX_FEE_BPS then HubProperties.FeeSplitExact(feeBps, amount); HubSpec.ComputeFeeAndNet(feeBps, amount)
      else HubSpec.ComputeFeeAndNet(feeBps, amount)
    }

    // ------------------------------------------------------------ roles and pause

    method RegisterMerchant(caller: Address, merchant: Address) returns (r: Result<(), HubError>)
      requires Valid()
      modifies this
      ensures Valid()
      ensures Commits(old(State()), State(), HubSpec.RegisterMerchant(old(State()), caller, merchant), r)
    {
      if caller !in admins {
        return Err(Unauthorized(caller, AdminRole));
      }
      if merchant == ZERO_ADDRESS {
        return Err(ZeroAddress);
      }
      merchants := merchants + {merchant};
      r := Ok(());
    }

    method RevokeMerchant(caller: Address, merchant: Address) returns (r: Result<(), HubError>)
      requires Valid()
      modifies this
      ensures Valid()
      ensures Commits(old(State()), State(), HubSpec.RevokeMerchant(old(State()), caller, merchant), r)
    {
      if caller !in admins {
        return Err(Unauthorized(caller, AdminRole));
      }
      merchants := merchants - {merchant};
      r := Ok(());
    }

    method GrantRole(caller: Address, role: Role, account: Address) returns (r: Result<(), HubError>)
      requires Valid()
      modifies this
      ensures Valid()
      ensures Commits(old(State()), State(), HubSpec.GrantRole(old(State()), caller, role, account), r)
    {
      if caller !in admins {
        return Err(Unauthorized(caller, AdminRole));
      }
      if role == AdminRole {
        admins := admins + {account};
      } else {
        merchants := merchants + {account};
      }
      r := Ok(());
    }

    method Pause(caller: Address) returns (r: Result<(), HubError>)
      requires Valid()
      modifies this
      ensures Valid()
      ensures Commits(old(State()), State(), HubSpec.Pause(old(State()), caller), r)
    {
      if caller !in admins {
        return Err(Unauthorized(caller, AdminRole));
      }
      if paused {
        return Err(EnforcedPause);
      }
      paused := true;
      r := Ok(());
    }

    method Unpause(caller: Address) returns (r: Result<(), HubError>)
      requires Valid()
      modifies this
      ensures Valid()
      ensures Commits(old(State()), State(), HubSpec.Unpause(old(State()), caller), r)
    {
      if caller !in admins {
        return Err(Unauthorized(caller, AdminRole));
      }
      if !paused {
        return Err(ExpectedPause);
      }
      paused := false;
      r := Ok(());
    }

    // ------------------------------------------------------------ checkout

    method Checkout(caller: Address, id: PaymentId, merchant: Address, amount: Uint256) returns (r: Result<(), HubError>)
      requires Valid()
      modifies this, token
      ensures Valid()
      ensures Commits(old(State()), State(), HubSpec.Checkout(old(State()), caller, id, merchant, amount), r)
    {
      ghost var before := State();
      if paused {
        return Err(EnforcedPause);
      }
      if amount == 0 {
        return Err(InvalidAmount);
      }
      if merchant !in merchants {
        return Err(NotMerchant);
      }
      if id in payments {
        return Err(PaymentAlreadyProcessed);
      }
      var split := ComputeFeeAndNet(amount);
      if split.Err? {
        return Err(split.error);
      }
      var fee, net := split.value.fee, split.value.net;
      var savedPayments, savedEvents := payments, events;
      // effects
      payments := payments[id := Payment(caller, merchant, amount, fee, net, false, "", false)];
      events := events + [PaymentProcessed(id, caller, merchant, amount, fee, net)];
      // interactions: pull the gross amount into custody, then pay out
      var pulled := token.TransferFrom(hubAddress, caller, hubAddress, amount);
      if pulled.Err? {
        // the failed transfer reverts the whole call
        payments, events := savedPayments, savedEvents;
        return Err(TokenFailure(pulled.error));
      }
      var paidMerchant := token.Transfer(hubAddress, merchant, net);
      var paidFee := token.Transfer(hubAddress, feeAccount, fee);
      assert paidMerchant.Ok? && paidFee.Ok?;
      r := Ok(());
      HubProperties.StepPreservesValid(before, CheckoutTx(caller, id, merchant, amount));
    }

    // ------------------------------------------------------------ refunds

    method RequestRefund(caller: Address, id: PaymentId, reason: string) returns (r: Result<(), HubError>)
      requires Valid()
      modifies this
      ensures Valid()
      ensures Commits(old(State()), State(), HubSpec.RequestRefund(old(State()), caller, id, reason), r)
    {
      if id !in payments {
        return Err(PaymentNotProcessed);
      }
      var p := payments[id];
      if caller != p.consumer {
        return Err(NotPaymentConsumer);
      }
      if p.refunded {
        return Err(AlreadyRefunded);
      }
      payments := payments[id := p.(refundRequested := true, reason := reason)];
      events := events + [RefundRequested(id, p.consumer, reason)];
      r := Ok(());
    }

    /** The part both refund paths share once their checks pass. */
    method IssueRefund(caller: Address, id: PaymentId, amount: Uint256) returns (r: Result<(), HubError>)
      requires Valid()
      requires id in payments && payments[id].refundRequested && !payments[id].refunded
      modifies this, token
      ensures Valid()
      ensures Commits(old(State()), State(), HubSpec.IssueRefund(old(State()), caller, id, amount), r)
    {
      var p := payments[id];
      var savedPayments, savedEvents := payments, events;
      payments := payments[id := p.(refunded := true)];
      events := events + [RefundIssued(id, caller, p.consumer, amount)];
      var paid := token.TransferFrom(hubAddress, caller, p.consumer, amount);
      if paid.Err? {
        payments, events := savedPayments, savedEvents;
        return Err(TokenFailure(paid.error));
      }
      r := Ok(());
    }

    method MerchantRefund(caller: Address, id: PaymentId, amount: Uint256) returns (r: Result<(), HubError>)
      requires Valid()
      modifies this, token
      ensures Valid()
      ensures Commits(old(State()), State(), HubSpec.MerchantRefund(old(State()), caller, id, amount), r)
    {
      if id !in payments {
        return Err(PaymentNotProcessed);
      }
      var p := payments[id];
      if caller != p.merchant {
        return Err(NotPaymentMerchant);
      }
      if !p.refundRequested {
        return Err(RefundNotRequested);
      }
      if p.refunded {
        return Err(AlreadyRefunded);
      }
      if amount > p.merchantAmount {
        return Err(RefundAmountTooHigh);
      }
      r := IssueRefund(caller, id, amount);
    }

    method AdminRefund(caller: Address, id: PaymentId, amount: Uint256) returns (r: Result<(), HubError>)
      requires Valid()
      modifies this, token
      ensures Valid()
      ensures Commits(old(State()), State(), HubSpec.AdminRefund(old(State()), caller, id, amount), r)
    {
      if caller !in admins {
        return Err(Unauthorized(caller, AdminRole));
      }
      if id !in payments {
        return Err(PaymentNotProcessed);
      }
      var p := payments[id];
      if !p.refundRequested {
        return Err(RefundNotRequested);
      }
      if p.refunded {
        return Err(AlreadyRefunded);
      }
      r := IssueRefund(caller, id, amount);
    }
  }
}
