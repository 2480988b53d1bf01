/**
 * The escrow `Proposal` contract as a state machine over values.
 *
 * A `World` pairs one proposal's stored fields with the token ledger. Each
 * contract operation is a function from the world before the transaction,
 * the sender (`caller`) and the block timestamp (`now`) to either the world
 * after it or the reason the transaction reverts; a revert changes nothing,
 * which is why `Err` carries no world. The behaviour is the one the
 * repository's truffle suites pin down transaction by transaction.
 */
module Escrow {
  import opened Outcomes
  import opened States
  import opened Erc20

  /** Length of every revert window, in seconds: 24 hours. */
  const REVERT_WINDOW: nat := 24 * 60 * 60

  /** An IPFS content hash as the contract receives it (`"0x"` is the empty one). */
  type Bytes = seq<bv8>

  /** Why a transaction reverts. On chain every one of them is the same revert. */
  datatype Error =
    | Unauthorized
    | InvalidTransition
    | TimingViolation
    | InvalidParameters
    | InsufficientFunds
    | AlreadyInitialized

  /** The fields one deployed proposal stores. `self` is its own account on the token. */
  datatype Instance = Instance(
    self: Address,
    factory: Address,
    state: State,
    customer: Address,
    contractor: Address,
    arbiter: Address,
    contractorReward: nat,
    arbiterReward: nat,
    taskDeadline: nat,
    revertDeadline: nat,
    taskHash: Bytes,
    solutionHash: Bytes)

  datatype World = World(p: Instance, ledger: Ledger)

  /** What the sender of a transaction sees: it went through, or it reverted and why. */
  datatype Receipt = Success | Reverted(error: Error)

  function ReceiptOf(r: Result<World, Error>): (rc: Receipt)
    ensures rc.Success? <==> r.Ok?
    ensures r.Err? ==> rc == Reverted(r.error)
  {
    match r
    case Ok(_) => Success
    case Err(e) => Reverted(e)
  }

  /** A proposal just created by the factory, before `setup`: every field zero. */
  function Deployed(self: Address, factory: Address): (p: Instance)
    ensures p.state == ZS && p.self == self && p.factory == factory
  {
    Instance(self, factory, ZS, 0, 0, 0, 0, 0, 0, 0, [], [])
  }

  /** The states in which the proposal's account holds the escrow. */
  predicate Funded(s: State) {
    s == PREPAID || s == COMPLETED || s == DISPUTE
  }

  /** What the proposal's own account must hold. */
  function Escrowed(p: Instance): nat {
    if Funded(p.state) then p.contractorReward + p.arbiterReward else 0
  }

  predicate PartiesDistinct(p: Instance) {
    p.customer != p.contractor && p.customer != p.arbiter && p.contractor != p.arbiter
  }

  /** The proposal's own account is none of the parties (the EVM never gives a new contract a used address). */
  predicate OwnAccountApart(p: Instance) {
    p.self != p.customer && p.self != p.contractor && p.self != p.arbiter
  }

  /**
   * The fund-safety invariant: once set up, the parties are three different
   * accounts other than the proposal's, and the proposal's token balance is
   * exactly the escrow (both rewards while funded, nothing otherwise).
   */
  predicate Consistent(w: World) {
    && (w.p.state != ZS ==> PartiesDistinct(w.p) && OwnAccountApart(w.p))
    && BalanceOf(w.ledger, w.p.self) == Escrowed(w.p)
  }

  // ---------------------------------------------------------------------
  // The operations
  // ---------------------------------------------------------------------

  /**
   * `setup(arbiter, customer, arbiterReward, taskHash, contractor, token)`:
   * one time only, and only from the factory that deployed the proposal.
   */
  function Setup(w: World, caller: Address, arbiter: Address, customer: Address,
                 arbiterReward: nat, taskHash: Bytes, contractor: Address): (r: Result<World, Error>)
    ensures r.Ok? ==> r.value.ledger == w.ledger
  {
    var p := w.p;
    if p.state != ZS then Err(AlreadyInitialized)
    else if caller != p.factory then Err(Unauthorized)
    else if arbiterReward == 0 || taskHash == [] then Err(InvalidParameters)
    else if customer == contractor || customer == arbiter || contractor == arbiter then Err(InvalidParameters)
    else
      Ok(w.(p := p.(state := INIT, arbiter := arbiter, customer := customer, contractor := contractor,
                    arbiterReward := arbiterReward, taskHash := taskHash)))
  }

  /**
   * `responseToProposal(deadline, reward)`: the contractor states (or
   * restates) the terms while nothing is paid; the deadline must lie ahead.
   */
  function ResponseToProposal(w: World, caller: Address, now: nat, deadline: nat, reward: nat): (r: Result<World, Error>)
    ensures r.Ok? ==> r.value.ledger == w.ledger
  {
    var p := w.p;
    if p.state != INIT && p.state != PROPOSED then Err(InvalidTransition)
    else if caller != p.contractor then Err(Unauthorized)
    else if deadline <= now then Err(TimingViolation)
    else Ok(w.(p := p.(state := PROPOSED, taskDeadline := deadline, contractorReward := reward)))
  }

  /**
   * `pushToPrepaidState()`: the customer pays both rewards into the
   * proposal's account through its allowance, and the first revert window
   * starts. A sum that does not fit a uint256 reverts.
   */
  function PushToPrepaidState(w: World, caller: Address, now: nat): (r: Result<World, Error>)
    ensures r.Ok? ==> r.value.p == w.p.(state := PREPAID, revertDeadline := now + REVERT_WINDOW)
    ensures r.Ok? ==> forall a :: BalanceOf(r.value.ledger, a)
                                  == Moved(w.ledger, w.p.customer, w.p.self, w.p.contractorReward + w.p.arbiterReward, a)
  {
    var p := w.p;
    var escrow := p.contractorReward + p.arbiterReward;
    if p.state != PROPOSED then Err(InvalidTransition)
    else if caller != p.customer then Err(Unauthorized)
    else if !IsUint256(escrow) then Err(InvalidParameters)
    else
      match TransferFrom(w.ledger, p.self, p.customer, p.self, escrow)
      case None => Err(InsufficientFunds)
      case Some(l) => Ok(World(p.(state := PREPAID, revertDeadline := now + REVERT_WINDOW), l))
  }

  /**
   * `closeProposal()`: the customer withdraws an open proposal; the
   * contractor abandons a proposed one; the customer takes the escrow back
   * while the revert window after prepayment is open, or once the task
   * deadline has passed undelivered; and the customer settles a delivery it
   * did not contest within its window, or a dispute the arbiter let time
   * out, the contractor then receiving the full reward and the customer the
   * arbiter's fee.
   */
  function CloseProposal(w: World, caller: Address, now: nat): (r: Result<World, Error>)
    ensures r.Ok? ==> r.value.p == w.p.(state := CLOSED)
    ensures r.Ok? && !Funded(w.p.state) ==> r.value.ledger == w.ledger
  {
    var p := w.p;
    var closed := p.(state := CLOSED);
    match p.state
    case INIT =>
      if caller != p.customer then Err(Unauthorized) else Ok(w.(p := closed))
    case PROPOSED =>
      if caller != p.contractor then Err(Unauthorized) else Ok(w.(p := closed))
    case PREPAID =>
      if caller != p.customer then Err(Unauthorized)
      else if p.revertDeadline < now <= p.taskDeadline then Err(TimingViolation)
      else PayOut(w.ledger, closed, [Payment(p.customer, p.contractorReward + p.arbiterReward)])
    case COMPLETED | DISPUTE =>
      if caller != p.customer then Err(Unauthorized)
      else if now <= p.revertDeadline then Err(TimingViolation)
      else PayOut(w.ledger, closed, [Payment(p.contractor, p.contractorReward), Payment(p.customer, p.arbiterReward)])
    case _ => Err(InvalidTransition)
  }

  /**
   * `announceTaskCompleted(solutionHash)`: the contractor delivers, after the
   * customer's revert window and no later than the task deadline; the
   * customer's dispute window starts.
   */
  function AnnounceTaskCompleted(w: World, caller: Address, now: nat, solutionHash: Bytes): (r: Result<World, Error>)
    ensures r.Ok? ==> r.value.ledger == w.ledger
  {
    var p := w.p;
    if p.state != PREPAID then Err(InvalidTransition)
    else if caller != p.contractor then Err(Unauthorized)
    else if solutionHash == [] then Err(InvalidParameters)
    else if now <= p.revertDeadline || p.taskDeadline < now then Err(TimingViolation)
    else Ok(w.(p := p.(state := COMPLETED, solutionHash := solutionHash, revertDeadline := now + REVERT_WINDOW)))
  }

  /**
   * `startDispute(amount)`: inside the window after completion the customer
   * contests, offering the contractor strictly less than the agreed reward;
   * the arbiter's window starts.
   */
  function StartDispute(w: World, caller: Address, now: nat, amount: nat): (r: Result<World, Error>)
    ensures r.Ok? ==> r.value.ledger == w.ledger
  {
    var p := w.p;
    if p.state != COMPLETED then Err(InvalidTransition)
    else if caller != p.customer then Err(Unauthorized)
    else if p.revertDeadline < now then Err(TimingViolation)
    else if amount == 0 || p.contractorReward <= amount then Err(InvalidParameters)
    else Ok(w.(p := p.(state := DISPUTE, revertDeadline := now + REVERT_WINDOW)))
  }

  /**
   * `resolveDispute(decision, hash)`: inside its window the arbiter awards
   * the contractor `decision`, takes its own fee and returns the rest of the
   * contractor's reward to the customer.
   */
  function ResolveDispute(w: World, caller: Address, now: nat, decision: nat): (r: Result<World, Error>)
    ensures r.Ok? ==> r.value.p == w.p.(state := RESOLVED)
  {
    var p := w.p;
    if p.state != DISPUTE then Err(InvalidTransition)
    else if caller != p.arbiter then Err(Unauthorized)
    else if p.revertDeadline < now then Err(TimingViolation)
    else if decision == 0 || p.contractorReward <= decision then Err(InvalidParameters)
    else
      PayOut(w.ledger, p.(state := RESOLVED),
             [Payment(p.contractor, decision), Payment(p.arbiter, p.arbiterReward),
              Payment(p.customer, p.contractorReward - decision)])
  }

  /** The proposal pays out of its own account and moves to `next`. */
  function PayOut(l: Ledger, next: Instance, ps: seq<Payment>): (r: Result<World, Error>)
    ensures Total(ps) <= BalanceOf(l, next.self) ==> r.Ok?
    ensures r.Ok? ==> r.value.p == next
    ensures r.Ok? ==> forall a ::
      BalanceOf(r.value.ledger, a) == BalanceOf(l, a) - (if a == next.self then Total(ps) else 0) + Received(ps, a)
  {
    match Disburse(l, next.self, ps)
    case None => Err(InsufficientFunds)
    case Some(paid) => Ok(World(next, paid))
  }

  // ---------------------------------------------------------------------
  // Every operation at once
  // ---------------------------------------------------------------------

  /** One transaction sent to the proposal, with its arguments. */
  datatype Call =
    | SetupCall(arbiter: Address, customer: Address, arbiterReward: nat, taskHash: Bytes, contractor: Address)
    | RespondCall(deadline: nat, reward: nat)
    | PrepayCall
    | CloseCall
    | AnnounceCall(solutionHash: Bytes)
    | DisputeCall(amount: nat)
    | ResolveCall(decision: nat, evidenceHash: Bytes)

  /**
   * Any transaction: it succeeds only where its state admits it and only
   * when its one authorized account sends it.
   */
  function Apply(w: World, caller: Address, now: nat, call: Call): (r: Result<World, Error>)
    ensures r.Ok? ==> Enabled(w.p.state, call)
    ensures r.Ok? ==> caller == AuthorizedCaller(w.p, call)
  {
    match call
    case SetupCall(arbiter, customer, reward, hash, contractor) => Setup(w, caller, arbiter, customer, reward, hash, contractor)
    case RespondCall(deadline, reward) => ResponseToProposal(w, caller, now, deadline, reward)
    case PrepayCall => PushToPrepaidState(w, caller, now)
    case CloseCall => CloseProposal(w, caller, now)
    case AnnounceCall(hash) => AnnounceTaskCompleted(w, caller, now, hash)
    case DisputeCall(amount) => StartDispute(w, caller, now, amount)
    case ResolveCall(decision, _) => ResolveDispute(w, caller, now, decision)
  }

  /** Which call each state admits at all, whoever sends it. */
  predicate Enabled(s: State, call: Call) {
    match call
    case SetupCall(_, _, _, _, _) => s == ZS
    case RespondCall(_, _) => s == INIT || s == PROPOSED
    case PrepayCall => s == PROPOSED
    case CloseCall => s == INIT || s == PROPOSED || s == PREPAID || s == COMPLETED || s == DISPUTE
    case AnnounceCall(_) => s == PREPAID
    case DisputeCall(_) => s == COMPLETED
    case ResolveCall(_, _) => s == DISPUTE
  }

  /** The one account that may send `call` in the proposal's current state. */
  function AuthorizedCaller(p: Instance, call: Call): Address {
    match call
    case SetupCall(_, _, _, _, _) => p.factory
    case RespondCall(_, _) => p.contractor
    case PrepayCall => p.customer
    case CloseCall => if p.state == PROPOSED then p.contractor else p.customer
    case AnnounceCall(_) => p.contractor
    case DisputeCall(_) => p.customer
    case ResolveCall(_, _) => p.arbiter
  }

  /** The lifecycle's edges. */
  predicate Edge(from: State, to: State) {
    || (from == ZS && to == INIT)
    || (from == INIT && (to == PROPOSED || to == CLOSED))
    || (from == PROPOSED && (to == PROPOSED || to == PREPAID || to == CLOSED))
    || (from == PREPAID && (to == COMPLETED || to == CLOSED))
    || (from == COMPLETED && (to == DISPUTE || to == CLOSED))
    || (from == DISPUTE && (to == RESOLVED || to == CLOSED))
  }

  /** `setup` never changes the proposal's own account or the factory, and no other call changes who the parties are. */
  predicate IdentitiesKept(p: Instance, q: Instance) {
    && q.self == p.self && q.factory == p.factory
    && (p.state != ZS ==>
          q.customer == p.customer && q.contractor == p.contractor && q.arbiter == p.arbiter
          && q.arbiterReward == p.arbiterReward && q.taskHash == p.taskHash)
  }
}
