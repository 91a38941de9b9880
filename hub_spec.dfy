/**
 * The payment hub as values: its storage, the outcome of every call, and the lifecycle of a
 * payment record (Processed, then RefundRequested, then Refunded).
 *
 * Every call is a function from the storage before it to `Ok(storage after)` or to
 * `Err(reason)`; an `Err` is a revert, which leaves all storage (the hub's and the token's)
 * as it was. The caller (`msg.sender`) is an explicit argument. Payment ids and role ids are
 * keccak hashes in the contract and are opaque here.
 */
module HubSpec {
  import opened Common
  import opened TokenSpec

  /** A caller-chosen `bytes32` payment identifier. */
  type PaymentId = nat

  /** Fees are in basis points: hundredths of a percent. */
  const BPS_DENOMINATOR: nat := 10000

  /** The largest fee rate the constructor accepts (100%). */
  const MAX_FEE_BPS: nat := 10000

  /** The two roles of the hub's access control. */
  datatype Role = AdminRole | MerchantRole

  /**
   * Why a call reverts: the hub's custom errors, the pausable guard, the access-control guard,
   * Solidity's checked-arithmetic panic, and a failed token transfer.
   */
  datatype HubError =
    | ZeroAddress
    | FeeTooHigh
    | NotMerchant
    | InvalidAmount
    | PaymentAlreadyProcessed
    | PaymentNotProcessed
    | AlreadyRefunded
    | RefundNotRequested
    | NotPaymentConsumer
    | NotPaymentMerchant
    | RefundAmountTooHigh
    | EnforcedPause
    | ExpectedPause
    | Unauthorized(account: Address, role: Role)
    | ArithmeticOverflow
    | TokenFailure(cause: TokenError)

  /** The custom errors the hub itself declares. */
  predicate IsCustomError(e: HubError) {
    !(e.EnforcedPause? || e.ExpectedPause? || e.Unauthorized? || e.ArithmeticOverflow? || e.TokenFailure?)
  }

  /** One payment record. Only the refund fields ever change after checkout. */
  datatype Payment = Payment(
    consumer: Address,
    merchant: Address,
    amount: nat,
    fee: nat,
    merchantAmount: nat,
    refundRequested: bool,
    reason: string,
    refunded: bool)

  /** The lifecycle stage of a record. */
  datatype Stage = Processed | Requested | Refunded

  function StageOf(p: Payment): Stage {
    if p.refunded then Refunded else if p.refundRequested then Requested else Processed
  }

  /** The hub's events, in emission order. */
  datatype Event =
    | PaymentProcessed(id: PaymentId, consumer: Address, merchant: Address, amount: nat, fee: nat, merchantAmount: nat)
    | RefundRequested(id: PaymentId, consumer: Address, reason: string)
    | RefundIssued(id: PaymentId, initiator: Address, consumer: Address, amount: nat)

  /** The result of `computeFeeAndNet`. */
  datatype FeeSplit = FeeSplit(fee: nat, net: nat)

  /** The storage of the hub together with that of the token it drives. */
  datatype HubState = HubState(
    hub: Address,
    feeAccount: Address,
    feeBps: nat,
    admins: set<Address>,
    merchants: set<Address>,
    paused: bool,
    payments: map<PaymentId, Payment>,
    events: seq<Event>,
    token: TokenState)

  /** A record as checkout creates it and as the later refund steps keep it. */
  predicate WellFormed(p: Payment, feeBps: nat) {
    && p.amount > 0
    && p.fee == p.amount * feeBps / BPS_DENOMINATOR
    && p.fee + p.merchantAmount == p.amount
    && (p.refunded ==> p.refundRequested)
  }

  /** The invariant of a deployed hub. */
  ghost predicate Valid(s: HubState) {
    && s.feeBps <= MAX_FEE_BPS
    && forall id :: id in s.payments ==> WellFormed(s.payments[id], s.feeBps)
  }

  // ---------------------------------------------------------------- queries

  /** `hasRole(role, account)` */
  function HasRole(s: HubState, role: Role, account: Address): bool {
    match role
    case AdminRole => account in s.admins
    case MerchantRole => account in s.merchants
  }

  /** `isRefundRequested(id)`: false for an id never processed. */
  function IsRefundRequested(s: HubState, id: PaymentId): bool {
    id in s.payments && s.payments[id].refundRequested
  }

  /** `isRefunded(id)`: false for an id never processed. */
  function IsRefunded(s: HubState, id: PaymentId): bool {
    id in s.payments && s.payments[id].refunded
  }

  /**
   * `computeFeeAndNet(amount)` at rate `feeBps`: `fee = amount * feeBps / 10000` rounded down,
   * `net = amount - fee`, both in checked `uint256` arithmetic (a product above the `uint256`
   * range, or a fee above the amount, is a panic).
   */
  function ComputeFeeAndNet(feeBps: nat, amount: nat): (r: Result<FeeSplit, HubError>)
    ensures r.Err? ==> r.error == ArithmeticOverflow
  {
    var product := amount * feeBps;
    if product > UINT256_MAX then Err(ArithmeticOverflow)
    else
      var fee := product / BPS_DENOMINATOR;
      if fee > amount then Err(ArithmeticOverflow) else Ok(FeeSplit(fee, amount - fee))
  }

  // ---------------------------------------------------------------- deployment and roles

  /**
   * The constructor `(usdc, feeAccount, feeBps)` sent by `deployer`, creating the hub at `hub`
   * beside a token whose storage is `token`. The deployer becomes the first admin.
   * That a zero token or fee-account address reverts with `ZeroAddress`, and that this check
   * precedes the fee check, is an assumption: the error is declared but its use is not shown.
   */
  function Deploy(deployer: Address, hub: Address, usdc: Address, feeAccount: Address, feeBps: Uint256, token: TokenState): Result<HubState, HubError> {
    if usdc == ZERO_ADDRESS || feeAccount == ZERO_ADDRESS then Err(ZeroAddress)
    else if feeBps > MAX_FEE_BPS then Err(FeeTooHigh)
    else Ok(HubState(hub, feeAccount, feeBps, {deployer}, {}, false, map[], [], token))
  }

  /** The `onlyRole(ADMIN_ROLE)` guard. */
  function OnlyAdmin(s: HubState, caller: Address): Option<HubError> {
    if caller in s.admins then None else Some(Unauthorized(caller, AdminRole))
  }

  /**
   * `registerMerchant(merchant)`: admin only. Rejecting the zero address with `ZeroAddress`
   * is an assumption.
   */
  function RegisterMerchant(s: HubState, caller: Address, merchant: Address): Result<HubState, HubError> {
    if OnlyAdmin(s, caller).Some? then Err(OnlyAdmin(s, caller).value)
    else if merchant == ZERO_ADDRESS then Err(ZeroAddress)
    else Ok(s.(merchants := s.merchants + {merchant}))
  }

  /** `revokeMerchant(merchant)`: admin only. */
  function RevokeMerchant(s: HubState, caller: Address, merchant: Address): Result<HubState, HubError> {
    if OnlyAdmin(s, caller).Some? then Err(OnlyAdmin(s, caller).value)
    else Ok(s.(merchants := s.merchants - {merchant}))
  }

  /**
   * `grantRole(role, account)`: only an admin may grant either role. Assumption: the access
   * control's `DEFAULT_ADMIN_ROLE`, which administers both roles, is merged into `AdminRole`, so
   * any holder of `AdminRole` may grant either role.
   */
  function GrantRole(s: HubState, caller: Address, role: Role, account: Address): Result<HubState, HubError> {
    if OnlyAdmin(s, caller).Some? then Err(OnlyAdmin(s, caller).value)
    else match role
      case AdminRole => Ok(s.(admins := s.admins + {account}))
      case MerchantRole => Ok(s.(merchants := s.merchants + {account}))
  }

  /** `pause()`: admin only; pausing a paused hub reverts. */
  function Pause(s: HubState, caller: Address): Result<HubState, HubError> {
    if OnlyAdmin(s, caller).Some? then Err(OnlyAdmin(s, caller).value)
    else if s.paused then Err(EnforcedPause)
    else Ok(s.(paused := true))
  }

  /** `unpause()`: admin only; unpausing a running hub reverts. */
  function Unpause(s: HubState, caller: Address): Result<HubState, HubError> {
    if OnlyAdmin(s, caller).Some? then Err(OnlyAdmin(s, caller).value)
    else if !s.paused then Err(ExpectedPause)
    else Ok(s.(paused := false))
  }

  // ---------------------------------------------------------------- checkout

  /**
   * `checkout(id, merchant, amount)` sent by `caller`. Checks in order (the first failure wins):
   * not paused, a positive amount, a registered merchant, an unused id, the fee in range; then
   * the hub pulls `amount` from the caller on the caller's allowance, pays the merchant the net
   * and the fee account the fee, records the payment and emits `PaymentProcessed`.
   */
  function Checkout(s: HubState, caller: Address, id: PaymentId, merchant: Address, amount: Uint256): Result<HubState, HubError> {
    if s.paused then Err(EnforcedPause)
    else if amount == 0 then Err(InvalidAmount)
    else if merchant !in s.merchants then Err(NotMerchant)
    else if id in s.payments then Err(PaymentAlreadyProcessed)
    else match ComputeFeeAndNet(s.feeBps, amount)
      case Err(e) => Err(e)
      case Ok(split) =>
        match TransferFrom(s.token, s.hub, caller, s.hub, amount)
        case Err(e) => Err(TokenFailure(e))
        case Ok(pulled) =>
          // the hub now holds at least `amount` = net + fee
          var paidMerchant := Move(pulled, s.hub, merchant, split.net);
          var paidFee := Move(paidMerchant, s.hub, s.feeAccount, split.fee);
          Ok(s.(payments := s.payments[id := Payment(caller, merchant, amount, split.fee, split.net, false, "", false)],
                events := s.events + [PaymentProcessed(id, caller, merchant, amount, split.fee, split.net)],
                token := paidFee))
  }

  // ---------------------------------------------------------------- refunds

  /**
   * `requestRefund(id, reason)` sent by `caller`: only the recorded consumer, and not after the
   * refund; a repeated request overwrites the reason. Reverting with `PaymentNotProcessed` for
   * an unknown id and with `AlreadyRefunded` after the refund are assumptions.
   */
  function RequestRefund(s: HubState, caller: Address, id: PaymentId, reason: string): Result<HubState, HubError> {
    if id !in s.payments then Err(PaymentNotProcessed)
    else
      var p := s.payments[id];
      if caller != p.consumer then Err(NotPaymentConsumer)
      else if p.refunded then Err(AlreadyRefunded)
      else Ok(s.(payments := s.payments[id := p.(refundRequested := true, reason := reason)],
                 events := s.events + [RefundRequested(id, p.consumer, reason)]))
  }

  /** The checks both refund paths share, after their caller checks: requested, then not yet refunded. */
  function RefundStageError(p: Payment): Option<HubError> {
    if !p.refundRequested then Some(RefundNotRequested)
    else if p.refunded then Some(AlreadyRefunded)
    else None
  }

  /**
   * The refund itself, once a path's checks have passed: the hub pulls `amount` from `caller`
   * on the caller's allowance and forwards it to the consumer, marks the record refunded and
   * emits `RefundIssued(id, caller, consumer, amount)`.
   */
  function IssueRefund(s: HubState, caller: Address, id: PaymentId, amount: Uint256): Result<HubState, HubError>
    requires id in s.payments
  {
    var p := s.payments[id];
    match TransferFrom(s.token, s.hub, caller, p.consumer, amount)
    case Err(e) => Err(TokenFailure(e))
    case Ok(t) =>
      Ok(s.(payments := s.payments[id := p.(refunded := true)],
            events := s.events + [RefundIssued(id, caller, p.consumer, amount)],
            token := t))
  }

  /**
   * `merchantRefund(id, amount)` sent by `caller`, funded by the caller. That an unknown id
   * reverts with `PaymentNotProcessed`, a caller other than the recorded merchant with
   * `NotPaymentMerchant`, and an amount above the merchant's net with `RefundAmountTooHigh`,
   * are assumptions.
   */
  function MerchantRefund(s: HubState, caller: Address, id: PaymentId, amount: Uint256): Result<HubState, HubError> {
    if id !in s.payments then Err(PaymentNotProcessed)
    else
      var p := s.payments[id];
      if caller != p.merchant then Err(NotPaymentMerchant)
      else if RefundStageError(p).Some? then Err(RefundStageError(p).value)
      else if amount > p.merchantAmount then Err(RefundAmountTooHigh)
      else IssueRefund(s, caller, id, amount)
  }

  /**
   * `adminRefund(id, amount)` sent by `caller`: admin only, funded from the admin's own
   * allowance, with no cap on the amount. `PaymentNotProcessed` for an unknown id is an assumption.
   */
  function AdminRefund(s: HubState, caller: Address, id: PaymentId, amount: Uint256): Result<HubState, HubError> {
    if OnlyAdmin(s, caller).Some? then Err(OnlyAdmin(s, caller).value)
    else if id !in s.payments then Err(PaymentNotProcessed)
    else if RefundStageError(s.payments[id]).Some? then Err(RefundStageError(s.payments[id]).value)
    else IssueRefund(s, caller, id, amount)
  }

  // ---------------------------------------------------------------- transactions

  /** Every state-changing call anyone can send to the hub or to its token. */
  datatype Tx =
    | FaucetTx(to: Address, amount: Uint256)
    | ApproveTx(owner: Address, spender: Address, amount: Uint256)
    | TransferTx(src: Address, dst: Address, amount: Uint256)
    | TransferFromTx(spender: Address, src: Address, dst: Address, amount: Uint256)
    | RegisterMerchantTx(caller: Address, account: Address)
    | RevokeMerchantTx(caller: Address, account: Address)
    | GrantRoleTx(caller: Address, role: Role, account: Address)
    | PauseTx(caller: Address)
    | UnpauseTx(caller: Address)
    | CheckoutTx(caller: Address, id: PaymentId, merchant: Address, amount: Uint256)
    | RequestRefundTx(caller: Address, id: PaymentId, reason: string)
    | MerchantRefundTx(caller: Address, id: PaymentId, amount: Uint256)
    | AdminRefundTx(caller: Address, id: PaymentId, amount: Uint256)

  /** The outcome of one transaction. */
  function Step(s: HubState, tx: Tx): Result<HubState, HubError> {
    match tx
    case FaucetTx(to, amount) => Ok(s.(token := Mint(s.token, to, amount)))
    case ApproveTx(owner, spender, amount) => Ok(s.(token := Approve(s.token, owner, spender, amount)))
    case TransferTx(src, dst, amount) =>
      (match Transfer(s.token, src, dst, amount)
       case Err(e) => Err(TokenFailure(e))
       case Ok(t) => Ok(s.(token := t)))
    case TransferFromTx(spender, src, dst, amount) =>
      (match TransferFrom(s.token, spender, src, dst, amount)
       case Err(e) => Err(TokenFailure(e))
       case Ok(t) => Ok(s.(token := t)))
    case RegisterMerchantTx(caller, account) => RegisterMerchant(s, caller, account)
    case RevokeMerchantTx(caller, account) => RevokeMerchant(s, caller, account)
    case GrantRoleTx(caller, role, account) => GrantRole(s, caller, role, account)
    case PauseTx(caller) => Pause(s, caller)
    case UnpauseTx(caller) => Unpause(s, caller)
    case CheckoutTx(caller, id, merchant, amount) => Checkout(s, caller, id, merchant, amount)
    case RequestRefundTx(caller, id, reason) => RequestRefund(s, caller, id, reason)
    case MerchantRefundTx(caller, id, amount) => MerchantRefund(s, caller, id, amount)
    case AdminRefundTx(caller, id, amount) => AdminRefund(s, caller, id, amount)
  }

  /** The storage after a sequence of transactions; a reverted one changes nothing. */
  function Run(s: HubState, txs: seq<Tx>): HubState
    decreases |txs|
  {
    if txs == [] then s
    else
      var next := match Step(s, txs[0]) case Ok(s') => s' case Err(_) => s;
      Run(next, txs[1..])
  }

  /** How an imperative call relates to its value-level outcome: commit the new storage, or revert. */
  ghost predicate Commits(before: HubState, after: HubState, out: Result<HubState, HubError>, r: Result<(), HubError>) {
    match out
    case Ok(s') => r == Ok(()) && after == s'
    case Err(e) => r == Err(e) && after == before
  }
}
