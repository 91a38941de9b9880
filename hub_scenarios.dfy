/**
 * The scenarios of the hub's test suite, replayed on the value-level model: five accounts,
 * a hub at 200 basis points, one registered merchant, a second admin, and a consumer holding
 * 1000 USDC (6 decimals). Payment ids, opaque hashes in the suite, are small numbers here.
 */
module HubScenarios {
  import opened Common
  import opened TokenSpec
  import opened HubSpec
  import opened HubProperties

  const DEPLOYER: Address := 1
  const ADMIN: Address := 2
  const MERCHANT: Address := 3
  const CONSUMER: Address := 4
  const FEE_ACCOUNT: Address := 5
  const USDC: Address := 6
  const HUB: Address := 7

  /** `parseUnits(n, 6)` */
  function Usdc(n: nat): nat { n * 1_000_000 }

  /** Applies a transaction to a successful outcome; a revert stays a revert. */
  function Then(r: Result<HubState, HubError>, tx: Tx): Result<HubState, HubError> {
    match r
    case Ok(s) => Step(s, tx)
    case Err(e) => Err(e)
  }

  /** The suite's `beforeEach`: deploy at 200 bps, register the merchant, grant the admin, fund the consumer. */
  function Setup(): Result<HubState, HubError> {
    var deployed := Deploy(DEPLOYER, HUB, USDC, FEE_ACCOUNT, 200, EMPTY_TOKEN);
    var registered := Then(deployed, RegisterMerchantTx(DEPLOYER, MERCHANT));
    var granted := Then(registered, GrantRoleTx(DEPLOYER, AdminRole, ADMIN));
    Then(granted, FaucetTx(CONSUMER, Usdc(1000)))
  }

  /** After the setup the hub is valid and running with the expected roles and balances. */
  lemma SetupSucceeds()
    ensures Setup().Ok?
    ensures var s := Setup().value;
      && Valid(s) && s.hub == HUB && s.feeAccount == FEE_ACCOUNT && s.feeBps == 200
      && s.admins == {DEPLOYER, ADMIN} && s.merchants == {MERCHANT} && !s.paused
      && s.payments == map[] && s.events == []
      && Balance(s.token, CONSUMER) == Usdc(1000)
      && (forall a :: a != CONSUMER ==> Balance(s.token, a) == 0)
      && (forall o: Address, sp: Address :: Allowance(s.token, o, sp) == 0)
  {
    var s0 := Deploy(DEPLOYER, HUB, USDC, FEE_ACCOUNT, 200, EMPTY_TOKEN).value;
    assert s0.merchants + {MERCHANT} == {MERCHANT};
    var s1 := s0.(merchants := {MERCHANT});
    assert Step(s0, RegisterMerchantTx(DEPLOYER, MERCHANT)) == Ok(s1);
    assert s1.admins + {ADMIN} == {DEPLOYER, ADMIN};
    var s2 := s1.(admins := {DEPLOYER, ADMIN});
    assert Step(s1, GrantRoleTx(DEPLOYER, AdminRole, ADMIN)) == Ok(s2);
  }

  /** The consumer approves the hub for `amount`, then checks out payment `id` to the merchant. */
  function PayMerchant(s: Result<HubState, HubError>, id: PaymentId, amount: Uint256): Result<HubState, HubError> {
    Then(Then(s, ApproveTx(CONSUMER, HUB, amount)), CheckoutTx(CONSUMER, id, MERCHANT, amount))
  }

  /**
   * From any valid running state in which the merchant is registered and the consumer holds
   * `amount` with no allowance spent, paying the merchant succeeds and splits at the hub's rate.
   */
  lemma PayMerchantSplits(s: HubState, id: PaymentId, amount: Uint256)
    requires Valid(s) && s.hub == HUB && s.feeAccount == FEE_ACCOUNT && !s.paused
    requires MERCHANT in s.merchants && id !in s.payments && 0 < amount <= UINT256_MAX / MAX_FEE_BPS
    requires Balance(s.token, CONSUMER) >= amount
    ensures var r := PayMerchant(Ok(s), id, amount);
      var fee := amount * s.feeBps / BPS_DENOMINATOR;
      && r.Ok? && Valid(r.value)
      && r.value.hub == HUB && r.value.feeAccount == FEE_ACCOUNT && r.value.feeBps == s.feeBps
      && r.value.admins == s.admins && r.value.merchants == s.merchants && !r.value.paused
      && Balance(r.value.token, CONSUMER) == Balance(s.token, CONSUMER) - amount
      && Balance(r.value.token, MERCHANT) == Balance(s.token, MERCHANT) + (amount - fee)
      && Balance(r.value.token, FEE_ACCOUNT) == Balance(s.token, FEE_ACCOUNT) + fee
      && (forall a :: a !in {CONSUMER, MERCHANT, FEE_ACCOUNT, HUB} ==> Balance(r.value.token, a) == Balance(s.token, a))
      && r.value.payments == s.payments[id := Payment(CONSUMER, MERCHANT, amount, fee, amount - fee, false, "", false)]
      && r.value.events == s.events + [PaymentProcessed(id, CONSUMER, MERCHANT, amount, fee, amount - fee)]
  {
    var s1 := s.(token := Approve(s.token, CONSUMER, HUB, amount));
    assert Step(s, ApproveTx(CONSUMER, HUB, amount)) == Ok(s1);
    assert Valid(s1);
    assert Allowance(s1.token, CONSUMER, HUB) == amount;
    assert Balance(s1.token, CONSUMER) == Balance(s.token, CONSUMER);
    FeeNeverOverflowsBelowBound(s.feeBps, amount);
    FeeSplitExact(s.feeBps, amount);
    CheckoutOutcome(s1, CONSUMER, id, MERCHANT, amount);
    assert Checkout(s1, CONSUMER, id, MERCHANT, amount).Ok?;
    CheckoutEffects(s1, CONSUMER, id, MERCHANT, amount);
    StepPreservesValid(s1, CheckoutTx(CONSUMER, id, MERCHANT, amount));
  }

  /** Checkout of 100 USDC pays the merchant 98 and the fee account 2. */
  lemma CheckoutDistributesFunds()
    ensures var r := PayMerchant(Setup(), 1, Usdc(100));
      && r.Ok?
      && Balance(r.value.token, MERCHANT) == Usdc(98)
      && Balance(r.value.token, FEE_ACCOUNT) == Usdc(2)
      && Balance(r.value.token, CONSUMER) == Usdc(900)
      && r.value.events == [PaymentProcessed(1, CONSUMER, MERCHANT, Usdc(100), Usdc(2), Usdc(98))]
  {
    SetupSucceeds();
    PayMerchantSplits(Setup().value, 1, Usdc(100));
  }

  /** A second checkout with the same id reverts with `PaymentAlreadyProcessed`. */
  lemma DuplicatePaymentIdReverts()
    ensures var first := PayMerchant(Setup(), 2, Usdc(50));
      first.Ok? && Then(first, CheckoutTx(CONSUMER, 2, MERCHANT, Usdc(50))) == Err(PaymentAlreadyProcessed)
  {
    SetupSucceeds();
    PayMerchantSplits(Setup().value, 2, Usdc(50));
  }

  /** The state the suite's `beforeEach` leaves. */
  ghost predicate AfterSetup(s: HubState) {
    && Valid(s) && s.hub == HUB && s.feeAccount == FEE_ACCOUNT && s.feeBps == 200
    && s.admins == {DEPLOYER, ADMIN} && s.merchants == {MERCHANT} && !s.paused
    && s.payments == map[] && s.events == []
    && Balance(s.token, CONSUMER) == Usdc(1000)
    && (forall a :: a != CONSUMER ==> Balance(s.token, a) == 0)
  }

  lemma SetupReaches()
    ensures Setup().Ok? && AfterSetup(Setup().value)
  {
    SetupSucceeds();
  }

  /** A request by the consumer sets the flag and emits `RefundRequested(id, consumer, reason)`; one by the admin reverts. */
  lemma RequestRefundByConsumerOnly(s: HubState)
    requires AfterSetup(s)
    ensures var paid := PayMerchant(Ok(s), 3, Usdc(60));
      var asked := Then(paid, RequestRefundTx(CONSUMER, 3, "Product defect"));
      && asked.Ok? && IsRefundRequested(asked.value, 3)
      && asked.value.events == paid.value.events + [RefundRequested(3, CONSUMER, "Product defect")]
      && Then(paid, RequestRefundTx(ADMIN, 3, "Not allowed")) == Err(NotPaymentConsumer)
  {
    PayMerchantSplits(s, 3, Usdc(60));
    var paid := PayMerchant(Ok(s), 3, Usdc(60)).value;
    RequestRefundOutcome(paid, CONSUMER, 3, "Product defect");
    RequestRefundOutcome(paid, ADMIN, 3, "Not allowed");
  }

  /**
   * After setup, paying `amount` under a fresh id and requesting its refund leaves a requested,
   * unrefunded record with the split of a 2% fee and the balances that split implies.
   */
  lemma PayAndRequest(s: HubState, id: PaymentId, amount: Uint256, reason: string)
    requires AfterSetup(s) && 0 < amount <= Usdc(1000)
    ensures var asked := Then(PayMerchant(Ok(s), id, amount), RequestRefundTx(CONSUMER, id, reason));
      var fee := amount * 200 / BPS_DENOMINATOR;
      && asked.Ok? && Valid(asked.value)
      && asked.value.hub == HUB && asked.value.admins == {DEPLOYER, ADMIN} && !asked.value.paused
      && asked.value.payments == map[id := Payment(CONSUMER, MERCHANT, amount, fee, amount - fee, true, reason, false)]
      && Balance(asked.value.token, CONSUMER) == Usdc(1000) - amount
      && Balance(asked.value.token, MERCHANT) == amount - fee
      && Balance(asked.value.token, ADMIN) == 0
  {
    PayMerchantSplits(s, id, amount);
    var paid := PayMerchant(Ok(s), id, amount).value;
    RequestRefundOutcome(paid, CONSUMER, id, reason);
    StepPreservesValid(paid, RequestRefundTx(CONSUMER, id, reason));
    var asked := RequestRefund(paid, CONSUMER, id, reason).value;
    assert Then(Ok(paid), RequestRefundTx(CONSUMER, id, reason)) == Ok(asked);
  }

  /**
   * Merchant path: after a request, the merchant approves and refunds its net 78.4 USDC of an
   * 80 USDC payment; the payment is refunded and a second refund reverts with `AlreadyRefunded`.
   */
  lemma MerchantRefundOnce(s: HubState)
    requires AfterSetup(s)
    ensures var net := 78_400_000;
      var asked := Then(PayMerchant(Ok(s), 4, Usdc(80)), RequestRefundTx(CONSUMER, 4, "Refund test"));
      var refunded := Then(Then(asked, ApproveTx(MERCHANT, HUB, net)), MerchantRefundTx(MERCHANT, 4, net));
      && asked.Ok? && refunded.Ok? && IsRefunded(refunded.value, 4)
      && refunded.value.events == asked.value.events + [RefundIssued(4, MERCHANT, CONSUMER, net)]
      && Balance(refunded.value.token, CONSUMER) == Usdc(1000) - Usdc(80) + net
      && Balance(refunded.value.token, MERCHANT) == 0
      && Then(refunded, MerchantRefundTx(MERCHANT, 4, net)) == Err(AlreadyRefunded)
  {
    PayAndRequest(s, 4, Usdc(80), "Refund test");
    var asked := Then(PayMerchant(Ok(s), 4, Usdc(80)), RequestRefundTx(CONSUMER, 4, "Refund test")).value;
    MerchantRefundsNet(asked, 4, Usdc(80), "Refund test");
  }

  /** From a requested 2%-fee record, the merchant's approved refund of its net goes through exactly once. */
  lemma MerchantRefundsNet(asked: HubState, id: PaymentId, amount: Uint256, reason: string)
    requires Valid(asked) && asked.hub == HUB && 0 < amount
    requires var fee := amount * 200 / BPS_DENOMINATOR;
      && asked.payments == map[id := Payment(CONSUMER, MERCHANT, amount, fee, amount - fee, true, reason, false)]
      && Balance(asked.token, MERCHANT) == amount - fee
    ensures var net := amount - amount * 200 / BPS_DENOMINATOR;
      var refunded := Then(Step(asked, ApproveTx(MERCHANT, HUB, net)), MerchantRefundTx(MERCHANT, id, net));
      && refunded.Ok? && IsRefunded(refunded.value, id)
      && refunded.value.events == asked.events + [RefundIssued(id, MERCHANT, CONSUMER, net)]
      && Balance(refunded.value.token, CONSUMER) == Balance(asked.token, CONSUMER) + net
      && Balance(refunded.value.token, MERCHANT) == 0
      && Then(refunded, MerchantRefundTx(MERCHANT, id, net)) == Err(AlreadyRefunded)
  {
    var net := amount - amount * 200 / BPS_DENOMINATOR;
    var approved := asked.(token := Approve(asked.token, MERCHANT, HUB, net));
    assert Step(asked, ApproveTx(MERCHANT, HUB, net)) == Ok(approved);
    assert Valid(approved);
    assert MerchantRefund(approved, MERCHANT, id, net).Ok?;
    RefundEffects(approved, MERCHANT, id, net, false);
    RefundTwice(approved, MERCHANT, id, net);
  }

  /** Admin path: the admin, funded by the faucet, refunds the full 90 USDC from its own balance. */
  lemma AdminRefundFromOwnFunds(s: HubState)
    requires AfterSetup(s)
    ensures var asked := Then(PayMerchant(Ok(s), 5, Usdc(90)), RequestRefundTx(CONSUMER, 5, "Admin refund case"));
      var funded := Then(Then(asked, FaucetTx(ADMIN, Usdc(90))), ApproveTx(ADMIN, HUB, Usdc(90)));
      var refunded := Then(funded, AdminRefundTx(ADMIN, 5, Usdc(90)));
      && asked.Ok? && refunded.Ok? && IsRefunded(refunded.value, 5)
      && refunded.value.events == asked.value.events + [RefundIssued(5, ADMIN, CONSUMER, Usdc(90))]
      && Balance(refunded.value.token, ADMIN) == 0
      && Balance(refunded.value.token, CONSUMER) == Usdc(1000)
  {
    PayAndRequest(s, 5, Usdc(90), "Admin refund case");
    var asked := Then(PayMerchant(Ok(s), 5, Usdc(90)), RequestRefundTx(CONSUMER, 5, "Admin refund case")).value;
    assert asked.hub == HUB && ADMIN in asked.admins;
    assert asked.payments[5].consumer == CONSUMER && asked.payments[5].refundRequested && !asked.payments[5].refunded;
    AdminRefundsInFull(asked, 5, Usdc(90));
  }

  /** From a requested record, an admin funded by the faucet refunds the full amount from its own balance. */
  lemma AdminRefundsInFull(asked: HubState, id: PaymentId, amount: Uint256)
    requires Valid(asked) && ADMIN in asked.admins
    requires id in asked.payments && asked.payments[id].consumer == CONSUMER
    requires asked.payments[id].refundRequested && !asked.payments[id].refunded
    requires Balance(asked.token, ADMIN) == 0
    ensures var funded := Then(Step(asked, FaucetTx(ADMIN, amount)), ApproveTx(ADMIN, asked.hub, amount));
      var refunded := Then(funded, AdminRefundTx(ADMIN, id, amount));
      && refunded.Ok? && IsRefunded(refunded.value, id)
      && refunded.value.events == asked.events + [RefundIssued(id, ADMIN, CONSUMER, amount)]
      && Balance(refunded.value.token, ADMIN) == 0
      && Balance(refunded.value.token, CONSUMER) == Balance(asked.token, CONSUMER) + amount
  {
    var minted := asked.(token := Mint(asked.token, ADMIN, amount));
    assert Step(asked, FaucetTx(ADMIN, amount)) == Ok(minted);
    var funded := minted.(token := Approve(minted.token, ADMIN, asked.hub, amount));
    assert Step(minted, ApproveTx(ADMIN, asked.hub, amount)) == Ok(funded);
    assert Valid(funded);
    assert AdminRefund(funded, ADMIN, id, amount).Ok?;
    RefundEffects(funded, ADMIN, id, amount, true);
  }

  /** A zero amount and an unregistered payee make checkout revert, and so does a paused hub until it is unpaused. */
  lemma CheckoutRejections(s: HubState)
    requires AfterSetup(s)
    ensures Step(s, CheckoutTx(CONSUMER, 6, MERCHANT, 0)) == Err(InvalidAmount)
    ensures Then(Step(s, ApproveTx(CONSUMER, HUB, Usdc(10))), CheckoutTx(CONSUMER, 7, ADMIN, Usdc(10))) == Err(NotMerchant)
    ensures var paused := Step(s, PauseTx(DEPLOYER));
      && paused.Ok? && paused.value.paused
      && Step(paused.value, CheckoutTx(CONSUMER, 8, MERCHANT, Usdc(10))) == Err(EnforcedPause)
      && Then(paused, UnpauseTx(DEPLOYER)) == Ok(s)
    ensures Deploy(DEPLOYER, HUB, USDC, FEE_ACCOUNT, 10001, EMPTY_TOKEN) == Err(FeeTooHigh)
  {
    PauseGatesCheckoutOnly(s, DEPLOYER, CONSUMER, 8, MERCHANT, Usdc(10), "");
  }

  /** Without a request, neither the merchant nor the admin can refund. */
  lemma RefundWithoutRequestReverts(s: HubState)
    requires AfterSetup(s)
    ensures var paid := PayMerchant(Ok(s), 9, Usdc(30));
      && Step(paid.value, MerchantRefundTx(MERCHANT, 9, Usdc(30))) == Err(RefundNotRequested)
      && Step(paid.value, AdminRefundTx(ADMIN, 9, Usdc(30))) == Err(RefundNotRequested)
  {
    PayMerchantSplits(s, 9, Usdc(30));
  }
}
