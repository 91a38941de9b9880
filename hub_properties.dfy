/**
 * What the payment hub promises, proved about the value-level model: exact fee splits, the
 * invariant every transaction keeps, the one-way lifecycle of a record, at-most-once checkout
 * and refund, the role and pause gates, and the scenarios of the contract's test suite.
 */
module HubProperties {
  import opened Common
  import opened TokenSpec
  import opened HubSpec

  // ---------------------------------------------------------------- fee arithmetic

  /**
   * At any admissible rate the split succeeds exactly when `amount * feeBps` fits in `uint256`;
   * then the fee is the rounded-down share, never more than the amount, and fee plus net is
   * exactly the amount.
   */
  lemma FeeSplitExact(feeBps: nat, amount: nat)
    requires feeBps <= MAX_FEE_BPS
    ensures ComputeFeeAndNet(feeBps, amount).Ok? <==> amount * feeBps <= UINT256_MAX
    ensures ComputeFeeAndNet(feeBps, amount).Ok? ==>
      var split := ComputeFeeAndNet(feeBps, amount).value;
      && split.fee + split.net == amount
      && split.fee <= amount
      && split.fee * BPS_DENOMINATOR <= amount * feeBps < (split.fee + 1) * BPS_DENOMINATOR
  {
    if amount * feeBps <= UINT256_MAX {
      var fee := amount * feeBps / BPS_DENOMINATOR;
      assert amount * feeBps <= amount * MAX_FEE_BPS by {
        MulMonotone(amount, feeBps, MAX_FEE_BPS);
      }
      assert fee <= amount;
    }
  }

  lemma MulMonotone(a: nat, b: nat, c: nat)
    requires b <= c
    ensures a * b <= a * c
  {}

  /** No amount up to `UINT256_MAX / 10000` can overflow the fee computation, at any admissible rate. */
  lemma FeeNeverOverflowsBelowBound(feeBps: nat, amount: nat)
    requires feeBps <= MAX_FEE_BPS
    requires amount <= UINT256_MAX / MAX_FEE_BPS
    ensures ComputeFeeAndNet(feeBps, amount).Ok?
  {
    MulMonotone(amount, feeBps, MAX_FEE_BPS);
    FeeSplitExact(feeBps, amount);
  }

  /** At 200 basis points the split rounds the fee down and gives the merchant the rest. */
  lemma FeeAtTwoPercent()
    ensures ComputeFeeAndNet(200, 100_000_000) == Ok(FeeSplit(2_000_000, 98_000_000))
    ensures ComputeFeeAndNet(200, 80_000_000) == Ok(FeeSplit(1_600_000, 78_400_000))
    ensures ComputeFeeAndNet(200, 149) == Ok(FeeSplit(2, 147))
    ensures ComputeFeeAndNet(200, 49) == Ok(FeeSplit(0, 49))
  {}

  // ---------------------------------------------------------------- deployment

  /**
   * Deployment fails with `FeeTooHigh` exactly when the rate exceeds 10000 (for non-zero
   * addresses); a deployed hub satisfies the invariant, is running, has no payments and
   * no merchants, and its deployer is its only admin.
   */
  lemma DeployOutcome(deployer: Address, hub: Address, usdc: Address, feeAccount: Address, feeBps: Uint256, token: TokenState)
    requires usdc != ZERO_ADDRESS && feeAccount != ZERO_ADDRESS
    ensures Deploy(deployer, hub, usdc, feeAccount, feeBps, token).Err? <==> feeBps > MAX_FEE_BPS
    ensures feeBps > MAX_FEE_BPS ==> Deploy(deployer, hub, usdc, feeAccount, feeBps, token) == Err(FeeTooHigh)
    ensures Deploy(deployer, hub, usdc, feeAccount, feeBps, token).Ok? ==>
      var s := Deploy(deployer, hub, usdc, feeAccount, feeBps, token).value;
      && Valid(s) && s.admins == {deployer} && s.merchants == {} && !s.paused && s.payments == map[]
      && s.token == token && s.feeBps == feeBps && s.feeAccount == feeAccount
  {}

  // ---------------------------------------------------------------- the invariant

  /** Every transaction keeps the hub's invariant. */
  lemma StepPreservesValid(s: HubState, tx: Tx)
    requires Valid(s)
    ensures Step(s, tx).Ok? ==> Valid(Step(s, tx).value)
  {
    match tx
    case CheckoutTx(caller, id, merchant, amount) =>
      if Step(s, tx).Ok? {
        var split := ComputeFeeAndNet(s.feeBps, amount).value;
        FeeSplitExact(s.feeBps, amount);
        assert WellFormed(Payment(caller, merchant, amount, split.fee, split.net, false, "", false), s.feeBps);
      }
    case _ =>
  }

  /** Any sequence of transactions keeps the invariant. */
  lemma {:induction false} RunPreservesValid(s: HubState, txs: seq<Tx>)
    requires Valid(s)
    ensures Valid(Run(s, txs))
    decreases |txs|
  {
    if txs != [] {
      StepPreservesValid(s, txs[0]);
      var next := match Step(s, txs[0]) case Ok(s') => s' case Err(_) => s;
      RunPreservesValid(next, txs[1..]);
    }
  }

  // ---------------------------------------------------------------- the lifecycle

  /**
   * How a record may change: its parties and amounts never, its refund request never
   * withdrawn, and nothing at all once it is refunded.
   */
  predicate RecordEvolves(p: Payment, q: Payment) {
    && q.consumer == p.consumer && q.merchant == p.merchant
    && q.amount == p.amount && q.fee == p.fee && q.merchantAmount == p.merchantAmount
    && (p.refundRequested ==> q.refundRequested)
    && (p.refunded ==> q == p)
  }

  /**
   * How the hub may change: the configuration is fixed, no record is ever deleted or
   * rewritten beyond `RecordEvolves`, and the event log only grows.
   */
  ghost predicate Evolves(s: HubState, s': HubState) {
    && s'.hub == s.hub && s'.feeAccount == s.feeAccount && s'.feeBps == s.feeBps
    && s.payments.Keys <= s'.payments.Keys
    && (forall id :: id in s.payments ==> RecordEvolves(s.payments[id], s'.payments[id]))
    && s.events <= s'.events
  }

  function StageRank(g: Stage): nat {
    match g case Processed => 0 case Requested => 1 case Refunded => 2
  }

  /** A record's stage never moves backwards. */
  lemma RecordEvolvesForward(p: Payment, q: Payment)
    requires RecordEvolves(p, q)
    ensures StageRank(StageOf(p)) <= StageRank(StageOf(q))
    ensures StageOf(p) == Refunded ==> StageOf(q) == Refunded
  {}

  /** One transaction changes the hub only as `Evolves` allows. */
  lemma StepEvolves(s: HubState, tx: Tx)
    ensures Step(s, tx).Ok? ==> Evolves(s, Step(s, tx).value)
  {
  }

  lemma {:induction false} EvolvesTransitive(a: HubState, b: HubState, c: HubState)
    requires Evolves(a, b) && Evolves(b, c)
    ensures Evolves(a, c)
  {
    forall id | id in a.payments
      ensures RecordEvolves(a.payments[id], c.payments[id])
    {
      assert id in b.payments;
    }
  }

  lemma EvolvesReflexive(s: HubState)
    ensures Evolves(s, s)
  {}

  /** Any sequence of transactions changes the hub only as `Evolves` allows. */
  lemma {:induction false} RunEvolves(s: HubState, txs: seq<Tx>)
    ensures Evolves(s, Run(s, txs))
    decreases |txs|
  {
    if txs == [] {
      EvolvesReflexive(s);
    } else {
      var next := match Step(s, txs[0]) case Ok(s') => s' case Err(_) => s;
      StepEvolves(s, txs[0]);
      EvolvesReflexive(s);
      RunEvolves(next, txs[1..]);
      EvolvesTransitive(s, next, Run(next, txs[1..]));
    }
  }

  // ---------------------------------------------------------------- checkout

  /**
   * Checkout succeeds exactly when every check passes and the caller's allowance to the hub
   * and balance both cover the amount; otherwise it reverts with the first failing check.
   */
  lemma CheckoutOutcome(s: HubState, caller: Address, id: PaymentId, merchant: Address, amount: Uint256)
    requires Valid(s)
    ensures var r := Checkout(s, caller, id, merchant, amount);
      && (r.Ok? <==> !s.paused && amount > 0 && merchant in s.merchants && id !in s.payments
                     && amount * s.feeBps <= UINT256_MAX
                     && Allowance(s.token, caller, s.hub) >= amount && Balance(s.token, caller) >= amount)
      && (s.paused ==> r == Err(EnforcedPause))
      && (!s.paused && amount == 0 ==> r == Err(InvalidAmount))
      && (!s.paused && amount > 0 && merchant !in s.merchants ==> r == Err(NotMerchant))
      && (!s.paused && amount > 0 && merchant in s.merchants && id in s.payments ==> r == Err(PaymentAlreadyProcessed))
  {
    FeeSplitExact(s.feeBps, amount);
  }

  /**
   * A successful checkout among distinct parties: the consumer pays `amount`, the merchant
   * receives `amount - fee`, the fee account `fee`, the hub keeps nothing, every other balance
   * and allowance is untouched, the caller's allowance to the hub drops by `amount`, the record
   * is created in the Processed stage and `PaymentProcessed` is the one new event.
   */
  lemma CheckoutEffects(s: HubState, caller: Address, id: PaymentId, merchant: Address, amount: Uint256)
    requires Valid(s)
    requires Checkout(s, caller, id, merchant, amount).Ok?
    requires caller != merchant && caller != s.feeAccount && caller != s.hub
    requires merchant != s.feeAccount && merchant != s.hub && s.feeAccount != s.hub
    ensures var s' := Checkout(s, caller, id, merchant, amount).value;
      var fee := amount * s.feeBps / BPS_DENOMINATOR;
      && Balance(s'.token, caller) == Balance(s.token, caller) - amount
      && Balance(s'.token, merchant) == Balance(s.token, merchant) + (amount - fee)
      && Balance(s'.token, s.feeAccount) == Balance(s.token, s.feeAccount) + fee
      && Balance(s'.token, s.hub) == Balance(s.token, s.hub)
      && (forall a :: a !in {caller, merchant, s.feeAccount, s.hub} ==> Balance(s'.token, a) == Balance(s.token, a))
      && Allowance(s'.token, caller, s.hub) == Allowance(s.token, caller, s.hub) - amount
      && (forall o: Address, sp: Address :: (o, sp) != (caller, s.hub) ==> Allowance(s'.token, o, sp) == Allowance(s.token, o, sp))
      && s'.payments == s.payments[id := Payment(caller, merchant, amount, fee, amount - fee, false, "", false)]
      && s'.events == s.events + [PaymentProcessed(id, caller, merchant, amount, fee, amount - fee)]
      && s'.admins == s.admins && s'.merchants == s.merchants && s'.paused == s.paused
  {
  }

  /**
   * A payment id is processed at most once: once recorded, every later checkout with that id,
   * after any transactions at all, reverts, and with `PaymentAlreadyProcessed` when the
   * earlier checks pass.
   */
  lemma CheckoutAtMostOnce(s: HubState, txs: seq<Tx>, caller: Address, id: PaymentId, merchant: Address, amount: Uint256)
    requires id in s.payments
    ensures var t := Run(s, txs);
      && Checkout(t, caller, id, merchant, amount).Err?
      && (!t.paused && amount > 0 && merchant in t.merchants ==>
            Checkout(t, caller, id, merchant, amount) == Err(PaymentAlreadyProcessed))
  {
    RunEvolves(s, txs);
  }

  /** A successful checkout records the id, so a repeat of the same call reverts. */
  lemma CheckoutTwice(s: HubState, caller: Address, id: PaymentId, merchant: Address, amount: Uint256)
    requires Checkout(s, caller, id, merchant, amount).Ok?
    ensures Checkout(Checkout(s, caller, id, merchant, amount).value, caller, id, merchant, amount) == Err(PaymentAlreadyProcessed)
  {}

  // ---------------------------------------------------------------- refund requests

  /**
   * Only the recorded consumer can request a refund, and only before it is refunded; any other
   * caller gets `NotPaymentConsumer`. A request sets the flag and the reason, emits
   * `RefundRequested(id, consumer, reason)` and changes nothing else.
   */
  lemma RequestRefundOutcome(s: HubState, caller: Address, id: PaymentId, reason: string)
    ensures var r := RequestRefund(s, caller, id, reason);
      && (r.Ok? <==> id in s.payments && caller == s.payments[id].consumer && !s.payments[id].refunded)
      && (id in s.payments && caller != s.payments[id].consumer ==> r == Err(NotPaymentConsumer))
      && (r.Ok? ==>
            && IsRefundRequested(r.value, id) && !IsRefunded(r.value, id)
            && r.value.payments[id].reason == reason
            && r.value.events == s.events + [RefundRequested(id, caller, reason)]
            && r.value.token == s.token
            && (forall other :: other != id && other in s.payments ==> r.value.payments[other] == s.payments[other])
            && r.value.payments.Keys == s.payments.Keys
            && r.value == s.(payments := s.payments[id := s.payments[id].(refundRequested := true, reason := reason)],
                             events := s.events + [RefundRequested(id, caller, reason)]))
  {}

  // ---------------------------------------------------------------- refunds

  /** Neither refund path succeeds unless a refund was requested and not yet issued. */
  lemma RefundNeedsRequest(s: HubState, caller: Address, id: PaymentId, amount: Uint256)
    requires Valid(s)
    ensures MerchantRefund(s, caller, id, amount).Ok? ==> IsRefundRequested(s, id) && !IsRefunded(s, id)
    ensures AdminRefund(s, caller, id, amount).Ok? ==> IsRefundRequested(s, id) && !IsRefunded(s, id)
    ensures id in s.payments && !s.payments[id].refundRequested ==>
      && (caller == s.payments[id].merchant ==> MerchantRefund(s, caller, id, amount) == Err(RefundNotRequested))
      && (caller in s.admins ==> AdminRefund(s, caller, id, amount) == Err(RefundNotRequested))
  {}

  /**
   * A refund (by either path) that succeeds: the refunding caller pays `amount` on its allowance
   * to the hub, the consumer receives it, the record is marked refunded, and
   * `RefundIssued(id, caller, consumer, amount)` is the one new event.
   */
  lemma RefundEffects(s: HubState, caller: Address, id: PaymentId, amount: Uint256, byAdmin: bool)
    requires Valid(s)
    requires var r := if byAdmin then AdminRefund(s, caller, id, amount) else MerchantRefund(s, caller, id, amount); r.Ok?
    ensures id in s.payments
    ensures var s' := (if byAdmin then AdminRefund(s, caller, id, amount) else MerchantRefund(s, caller, id, amount)).value;
      var consumer := s.payments[id].consumer;
      && IsRefunded(s', id)
      && s'.payments == s.payments[id := s.payments[id].(refunded := true)]
      && s'.events == s.events + [RefundIssued(id, caller, consumer, amount)]
      && Allowance(s'.token, caller, s.hub) == Allowance(s.token, caller, s.hub) - amount
      && (caller != consumer ==>
            && Balance(s'.token, caller) == Balance(s.token, caller) - amount
            && Balance(s'.token, consumer) == Balance(s.token, consumer) + amount)
      && (forall a :: a != caller && a != consumer ==> Balance(s'.token, a) == Balance(s.token, a))
      && s'.admins == s.admins && s'.merchants == s.merchants && s'.paused == s.paused
      && (!byAdmin ==> caller == s.payments[id].merchant && amount <= s.payments[id].merchantAmount)
      && (byAdmin ==> caller in s.admins)
  {}

  /**
   * A payment is refunded at most once: after its refund, whatever transactions follow, both
   * refund paths revert, the recorded merchant and every admin with `AlreadyRefunded`.
   */
  lemma RefundAtMostOnce(s: HubState, txs: seq<Tx>, caller: Address, id: PaymentId, amount: Uint256)
    requires Valid(s)
    requires IsRefunded(s, id)
    ensures var t := Run(s, txs);
      && MerchantRefund(t, caller, id, amount).Err?
      && AdminRefund(t, caller, id, amount).Err?
      && (caller == s.payments[id].merchant ==> MerchantRefund(t, caller, id, amount) == Err(AlreadyRefunded))
      && (caller in t.admins ==> AdminRefund(t, caller, id, amount) == Err(AlreadyRefunded))
  {
    RunEvolves(s, txs);
    var t := Run(s, txs);
    assert t.payments[id] == s.payments[id];
  }

  /** A successful refund leaves the record refunded, so repeating it reverts with `AlreadyRefunded`. */
  lemma RefundTwice(s: HubState, caller: Address, id: PaymentId, amount: Uint256)
    requires Valid(s)
    requires MerchantRefund(s, caller, id, amount).Ok?
    ensures MerchantRefund(MerchantRefund(s, caller, id, amount).value, caller, id, amount) == Err(AlreadyRefunded)
  {}

  // ---------------------------------------------------------------- pause and roles

  /**
   * While paused every checkout reverts with `EnforcedPause`; pausing and then unpausing by
   * an admin restores the hub exactly; refunds and refund requests ignore the pause flag.
   */
  lemma PauseGatesCheckoutOnly(s: HubState, admin: Address, caller: Address, id: PaymentId, merchant: Address, amount: Uint256, reason: string)
    requires admin in s.admins && !s.paused
    ensures Pause(s, admin).Ok? && Pause(s, admin).value.paused
    ensures Checkout(Pause(s, admin).value, caller, id, merchant, amount) == Err(EnforcedPause)
    ensures Unpause(Pause(s, admin).value, admin) == Ok(s)
    ensures var p := Pause(s, admin).value;
      && MerchantRefund(p, caller, id, amount) == (match MerchantRefund(s, caller, id, amount) case Ok(v) => Ok(v.(paused := true)) case Err(e) => Err(e))
      && AdminRefund(p, caller, id, amount) == (match AdminRefund(s, caller, id, amount) case Ok(v) => Ok(v.(paused := true)) case Err(e) => Err(e))
      && RequestRefund(p, caller, id, reason) == (match RequestRefund(s, caller, id, reason) case Ok(v) => Ok(v.(paused := true)) case Err(e) => Err(e))
  {}

  /**
   * Only admins change roles or the pause flag; `registerMerchant` grants exactly the merchant
   * role, and a merchant revoked afterwards can no longer be paid.
   */
  lemma RoleGates(s: HubState, caller: Address, account: Address, role: Role)
    ensures caller !in s.admins ==>
      && RegisterMerchant(s, caller, account) == Err(Unauthorized(caller, AdminRole))
      && RevokeMerchant(s, caller, account) == Err(Unauthorized(caller, AdminRole))
      && GrantRole(s, caller, role, account) == Err(Unauthorized(caller, AdminRole))
      && Pause(s, caller) == Err(Unauthorized(caller, AdminRole))
      && Unpause(s, caller) == Err(Unauthorized(caller, AdminRole))
    ensures caller in s.admins && account != ZERO_ADDRESS ==>
      && RegisterMerchant(s, caller, account) == Ok(s.(merchants := s.merchants + {account}))
      && HasRole(RegisterMerchant(s, caller, account).value, MerchantRole, account)
      && GrantRole(s, caller, role, account).Ok? && HasRole(GrantRole(s, caller, role, account).value, role, account)
    ensures caller in s.admins ==>
      GrantRole(s, caller, role, account) ==
        Ok(if role == AdminRole then s.(admins := s.admins + {account}) else s.(merchants := s.merchants + {account}))
    ensures caller in s.admins ==>
      forall c, id, amount: Uint256 :: !s.paused && amount > 0 ==>
        Checkout(RevokeMerchant(s, caller, account).value, c, id, account, amount) == Err(NotMerchant)
  {}
}
