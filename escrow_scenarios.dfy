/**
 * The four truffle suites replayed on the contract objects: the accounts,
 * amounts and clock of blockchain/test/test_DISPUTE.js, test_PREPAID.js,
 * test_PROPOSED.js and test_INIT.js, one transaction per call, each
 * reverting or going through as the suite expects. The suites share their
 * opening, so the refusals in INIT, PROPOSED and PREPAID are one method
 * each.
 */
module EscrowScenarios {
  import opened Outcomes
  import opened States
  import opened Erc20
  import opened Escrow
  import opened Contracts

  const FACTORY_OWNER: Address := 0
  const CUSTOMER_1: Address := 1
  const CONTRACTOR_1: Address := 2
  const ARBITER: Address := 3
  const CONTRACTOR_2: Address := 4
  /** Where the factory and the proposal it creates live. */
  const FACTORY_AT: Address := 10
  const PROPOSAL_AT: Address := 11

  /** `"0x66012a0a"`, the task hash of the suite, and `"0x123"`, its solution and evidence hash. */
  const TASK_HASH: Bytes := [0x66, 0x01, 0x2a, 0x0a]
  const SOLUTION_HASH: Bytes := [0x01, 0x23]

  /** One hour, in seconds; the suite advances the clock by 25 of them past each window. */
  const HOUR: nat := 60 * 60

  /** The proposal of the suite: its address, its parties and the arbiter's fee of 10. */
  predicate Parties(p: Proposal)
    reads p
  {
    && p.self == PROPOSAL_AT && p.factory == FACTORY_AT
    && p.customer == CUSTOMER_1 && p.contractor == CONTRACTOR_1 && p.arbiter == ARBITER
    && p.arbiterReward == 10
  }

  /** What the customer, the contractor, the arbiter and the proposal hold. */
  predicate Holdings(t: Token, customer: nat, contractor: nat, arbiter: nat, escrow: nat)
    reads t
  {
    var l := t.Snapshot();
    && BalanceOf(l, CUSTOMER_1) == customer && BalanceOf(l, CONTRACTOR_1) == contractor
    && BalanceOf(l, ARBITER) == arbiter && BalanceOf(l, PROPOSAL_AT) == escrow
  }

  /**
   * From creation to resolution: the customer starts with 100000 tokens,
   * the arbiter's fee is 10, the contractor first asks 100, then by mistake
   * `100 - 500` (which arrives as 2^256 - 400 and makes prepayment revert),
   * then 50; the customer prepays 60, the contractor delivers after the
   * revert window, the customer disputes offering 10, and the arbiter awards
   * 20. The contractor ends with 20, the arbiter with 10, the customer with
   * 99970 and the proposal with nothing.
   */
  method DisputeSuite() returns (customer: nat, contractor: nat, arbiter: nat, escrow: nat, final: State)
    ensures customer == 99970 && contractor == 20 && arbiter == 10 && escrow == 0
    ensures final == RESOLVED
  {
    var p := Create(100000);
    RefuseInInit(p);
    var now := Negotiate(p);
    RefuseInPrepaid(p, now);
    now := Deliver(p, now);
    RefuseInCompleted(p, now);
    Contest(p, now);
    RefuseInDispute(p, now);
    Arbitrate(p, now);
    var l := p.token.Snapshot();
    customer, contractor, arbiter, escrow := BalanceOf(l, CUSTOMER_1), BalanceOf(l, CONTRACTOR_1), BalanceOf(l, ARBITER), BalanceOf(l, PROPOSAL_AT);
    final := p.state;
  }

  /**
   * The factory refuses a fee of 0 and an empty task hash, then creates the
   * proposal; nobody else can set it up again. The customer holds `funds`.
   */
  method Create(funds: nat) returns (p: Proposal)
    ensures fresh(p) && fresh(p.token)
    ensures p.Valid() && Parties(p) && p.state == INIT
    ensures Holdings(p.token, funds, 0, 0, 0)
  {
    var factory := new ProposalFactory(FACTORY_AT, FACTORY_OWNER, ARBITER);
    var token := new Token(Ledger(map[CUSTOMER_1 := funds], map[]));
    var _ := factory.RegisterProposalTemplate(FACTORY_OWNER, [0x60, 0x80]);

    var none, r := factory.CreateConfiguredProposal(CUSTOMER_1, 0, TASK_HASH, CONTRACTOR_1, token, PROPOSAL_AT);
    assert r == Reverted(InvalidParameters);
    none, r := factory.CreateConfiguredProposal(CUSTOMER_1, 10, [], CONTRACTOR_1, token, PROPOSAL_AT);
    assert r == Reverted(InvalidParameters);

    var created;
    created, r := factory.CreateConfiguredProposal(CUSTOMER_1, 10, TASK_HASH, CONTRACTOR_1, token, PROPOSAL_AT);
    assert r == Success;
    assert factory.created == [PROPOSAL_AT];
    p := created;

    r := p.Setup(8, ARBITER, CONTRACTOR_1, 10, TASK_HASH, CONTRACTOR_1);
    assert r == Reverted(AlreadyInitialized);
  }

  /** In INIT delivery, prepayment and both dispute calls are refused, and nothing changes. */
  method RefuseInInit(p: Proposal)
    requires p.Valid() && Parties(p) && p.state == INIT
    modifies p, p.token
    ensures p.Observed() == old(p.Observed())
  {
    var now := 1000;
    var r := p.AnnounceTaskCompleted(CONTRACTOR_1, now, SOLUTION_HASH);
    assert r == Reverted(InvalidTransition);
    r := p.PushToPrepaidState(CUSTOMER_1, now);
    assert r == Reverted(InvalidTransition);
    r := p.StartDispute(CUSTOMER_1, now, 100);
    assert r == Reverted(InvalidTransition);
    r := p.ResolveDispute(ARBITER, now, 10, SOLUTION_HASH);
    assert r == Reverted(InvalidTransition);
  }

  /** INIT to PREPAID: the contractor's terms, the refusals in PROPOSED, then the customer's prepayment. */
  method Negotiate(p: Proposal) returns (now: nat)
    requires p.Valid() && Parties(p) && p.state == INIT
    requires Holdings(p.token, 100000, 0, 0, 0)
    modifies p, p.token
    ensures p.Valid() && Parties(p) && p.state == PREPAID
    ensures p.contractorReward == 50 && p.taskDeadline == 101100 && p.revertDeadline == now + REVERT_WINDOW && now == 1010
    ensures Holdings(p.token, 99940, 0, 0, 60)
  {
    var start := Propose(p);
    RefuseInProposed(p, start);
    now := Prepay(p, start);
  }

  /**
   * INIT to PROPOSED: a stranger and a past deadline are refused, the
   * contractor asks 100, then `100 - 500` for a deadline 100 seconds later.
   */
  method Propose(p: Proposal) returns (now: nat)
    requires p.Valid() && Parties(p) && p.state == INIT
    requires Holdings(p.token, 100000, 0, 0, 0)
    modifies p
    ensures p.Valid() && Parties(p) && p.state == PROPOSED && now == 1000
    ensures p.contractorReward == AbiUint256(100 - 500) && p.taskDeadline == 101100
    ensures Holdings(p.token, 100000, 0, 0, 0)
  {
    now := 1000;
    var r := p.ResponseToProposal(CONTRACTOR_2, now, now + 100000, 100);
    assert r == Reverted(Unauthorized);
    r := p.ResponseToProposal(CONTRACTOR_1, now, 0, 100);
    assert r == Reverted(TimingViolation);
    r := p.ResponseToProposal(CONTRACTOR_1, now, now + 100000, 100);
    assert r == Success && p.taskDeadline == now + 100000;
    r := p.ResponseToProposal(CONTRACTOR_1, now, now + 100000 + 100, AbiUint256(100 - 500));
    assert r == Success;
  }

  /** In PROPOSED a second setup, delivery and both dispute calls are refused, and nothing changes. */
  method RefuseInProposed(p: Proposal, now: nat)
    requires p.Valid() && Parties(p) && p.state == PROPOSED
    modifies p, p.token
    ensures p.Observed() == old(p.Observed())
  {
    var r := p.Setup(CUSTOMER_1, ARBITER, CUSTOMER_1, 50, [0x12], CONTRACTOR_1);
    assert r == Reverted(AlreadyInitialized);
    r := p.AnnounceTaskCompleted(CONTRACTOR_1, now, [0x12, 0x12]);
    assert r == Reverted(InvalidTransition);
    r := p.StartDispute(CUSTOMER_1, now, 20);
    assert r == Reverted(InvalidTransition);
    r := p.ResolveDispute(ARBITER, now, 50, [0xff, 0xf1, 0x2f, 0xff]);
    assert r == Reverted(InvalidTransition);
  }

  /**
   * PROPOSED to PREPAID: the contractor cannot prepay; the customer cannot
   * prepay the wrapped reward although it approved its whole balance; the
   * contractor restates the deadline with a reward of 50, which the
   * customer prepays.
   */
  method Prepay(p: Proposal, start: nat) returns (now: nat)
    requires p.Valid() && Parties(p) && p.state == PROPOSED && start == 1000
    requires p.contractorReward == AbiUint256(100 - 500) && p.taskDeadline == 101100
    requires Holdings(p.token, 100000, 0, 0, 0)
    modifies p, p.token
    ensures p.Valid() && Parties(p) && p.state == PREPAID
    ensures p.contractorReward == 50 && p.taskDeadline == 101100 && p.revertDeadline == now + REVERT_WINDOW && now == 1010
    ensures Holdings(p.token, 99940, 0, 0, 60)
  {
    var r := p.PushToPrepaidState(CONTRACTOR_1, start);
    assert r == Reverted(Unauthorized);
    p.token.Approve(CUSTOMER_1, PROPOSAL_AT, 100000);
    r := p.PushToPrepaidState(CUSTOMER_1, start);
    assert r == Reverted(InsufficientFunds);

    r := p.ResponseToProposal(CONTRACTOR_1, start, p.taskDeadline, 50);
    assert r == Success;
    now := start + 10;
    r := p.PushToPrepaidState(CUSTOMER_1, now);
    assert r == Success;
  }

  /**
   * Just after prepayment new terms, a second prepayment, delivery inside
   * the revert window, both dispute calls and the contractor's close are
   * refused; 25 hours later the revert window is over but the task
   * deadline is not, and the customer's close is refused. Nothing changes.
   */
  method RefuseInPrepaid(p: Proposal, now: nat)
    requires p.Valid() && Parties(p) && p.state == PREPAID
    requires p.taskDeadline == 101100 && p.revertDeadline == now + REVERT_WINDOW && now == 1010
    modifies p, p.token
    ensures p.Observed() == old(p.Observed())
  {
    var r := p.ResponseToProposal(CONTRACTOR_1, now, 100000000000000, 10000000000);
    assert r == Reverted(InvalidTransition);
    r := p.PushToPrepaidState(CUSTOMER_1, now);
    assert r == Reverted(InvalidTransition);
    r := p.AnnounceTaskCompleted(CONTRACTOR_1, now, SOLUTION_HASH);
    assert r == Reverted(TimingViolation);
    r := p.StartDispute(CUSTOMER_1, now, 10);
    assert r == Reverted(InvalidTransition);
    r := p.ResolveDispute(ARBITER, now, 10, SOLUTION_HASH);
    assert r == Reverted(InvalidTransition);
    r := p.CloseProposal(CONTRACTOR_1, now);
    assert r == Reverted(Unauthorized);
    r := p.CloseProposal(CUSTOMER_1, now + 25 * HOUR);
    assert r == Reverted(TimingViolation);
  }

  /**
   * PREPAID to COMPLETED: inside the customer's revert window the contractor
   * cannot deliver; 25 hours later a stranger and an empty solution hash are
   * refused, and so is a delivery three years on, past the task deadline;
   * at 25 hours the contractor delivers.
   */
  method Deliver(p: Proposal, start: nat) returns (now: nat)
    requires p.Valid() && Parties(p) && p.state == PREPAID
    requires p.contractorReward == 50 && p.taskDeadline == 101100 && p.revertDeadline == start + REVERT_WINDOW && start == 1010
    requires Holdings(p.token, 99940, 0, 0, 60)
    modifies p, p.token
    ensures p.Valid() && Parties(p) && p.state == COMPLETED
    ensures p.contractorReward == 50 && p.revertDeadline == now + REVERT_WINDOW
    ensures Holdings(p.token, 99940, 0, 0, 60)
  {
    var r := p.AnnounceTaskCompleted(CONTRACTOR_1, start, SOLUTION_HASH);
    assert r == Reverted(TimingViolation);

    now := start + 25 * HOUR;
    r := p.AnnounceTaskCompleted(CONTRACTOR_2, now, SOLUTION_HASH);
    assert r == Reverted(Unauthorized);
    r := p.AnnounceTaskCompleted(CONTRACTOR_1, now, []);
    assert r == Reverted(InvalidParameters);
    r := p.AnnounceTaskCompleted(CONTRACTOR_1, now + 3 * 365 * 24 * HOUR, SOLUTION_HASH);
    assert r == Reverted(TimingViolation);
    r := p.AnnounceTaskCompleted(CONTRACTOR_1, now, SOLUTION_HASH);
    assert r == Success;
  }

  /**
   * Just after delivery new terms, a prepayment and a resolution are
   * refused, and so is the customer's close while the dispute window is
   * open; nothing changes.
   */
  method RefuseInCompleted(p: Proposal, now: nat)
    requires p.Valid() && Parties(p) && p.state == COMPLETED && p.revertDeadline == now + REVERT_WINDOW
    modifies p, p.token
    ensures p.Observed() == old(p.Observed())
  {
    var r := p.ResponseToProposal(CONTRACTOR_1, now, 100000000000000, 10000000000);
    assert r == Reverted(InvalidTransition);
    r := p.PushToPrepaidState(CUSTOMER_1, now);
    assert r == Reverted(InvalidTransition);
    r := p.ResolveDispute(ARBITER, now, 10, SOLUTION_HASH);
    assert r == Reverted(InvalidTransition);
    r := p.CloseProposal(CUSTOMER_1, now);
    assert r == Reverted(TimingViolation);
  }

  /**
   * COMPLETED to DISPUTE: the contractor cannot dispute, an offer of 100
   * and a late dispute are refused, and the customer disputes offering 10.
   */
  method Contest(p: Proposal, now: nat)
    requires p.Valid() && Parties(p) && p.state == COMPLETED
    requires p.contractorReward == 50 && p.revertDeadline == now + REVERT_WINDOW
    requires Holdings(p.token, 99940, 0, 0, 60)
    modifies p, p.token
    ensures p.Valid() && Parties(p) && p.state == DISPUTE
    ensures p.contractorReward == 50 && p.revertDeadline == now + REVERT_WINDOW
    ensures Holdings(p.token, 99940, 0, 0, 60)
  {
    var r := p.StartDispute(CONTRACTOR_1, now, 10);
    assert r == Reverted(Unauthorized);
    r := p.StartDispute(CUSTOMER_1, now, 100);
    assert r == Reverted(InvalidParameters);
    r := p.StartDispute(CUSTOMER_1, now + 25 * HOUR, 10);
    assert r == Reverted(TimingViolation);
    r := p.StartDispute(CUSTOMER_1, now, 10);
    assert r == Success;
  }

  /**
   * Just after the dispute opens the customer cannot close, the arbiter's
   * window being open, and new terms, a prepayment and a delivery are
   * refused; nothing changes.
   */
  method RefuseInDispute(p: Proposal, now: nat)
    requires p.Valid() && Parties(p) && p.state == DISPUTE && p.revertDeadline == now + REVERT_WINDOW
    modifies p, p.token
    ensures p.Observed() == old(p.Observed())
  {
    var r := p.CloseProposal(CUSTOMER_1, now);
    assert r == Reverted(TimingViolation);
    r := p.ResponseToProposal(CONTRACTOR_1, now, 1000000000000, 100);
    assert r == Reverted(InvalidTransition);
    r := p.PushToPrepaidState(CUSTOMER_1, now);
    assert r == Reverted(InvalidTransition);
    r := p.AnnounceTaskCompleted(CONTRACTOR_1, now, [0x12]);
    assert r == Reverted(InvalidTransition);
  }

  /**
   * DISPUTE to RESOLVED: decisions of 0 and 100 and a late one are refused,
   * and the arbiter awards 20.
   */
  method Arbitrate(p: Proposal, now: nat)
    requires p.Valid() && Parties(p) && p.state == DISPUTE
    requires p.contractorReward == 50 && p.revertDeadline == now + REVERT_WINDOW
    requires Holdings(p.token, 99940, 0, 0, 60)
    modifies p, p.token
    ensures p.state == RESOLVED
    ensures Holdings(p.token, 99970, 20, 10, 0)
  {
    var r := p.ResolveDispute(ARBITER, now, 0, SOLUTION_HASH);
    assert r == Reverted(InvalidParameters);
    r := p.ResolveDispute(ARBITER, now, 100, SOLUTION_HASH);
    assert r == Reverted(InvalidParameters);
    r := p.ResolveDispute(ARBITER, now + 25 * HOUR, 20, SOLUTION_HASH);
    assert r == Reverted(TimingViolation);
    PaymentsOfThree(Payment(CONTRACTOR_1, 20), Payment(ARBITER, 10), Payment(CUSTOMER_1, 30));
    r := p.ResolveDispute(ARBITER, now, 20, SOLUTION_HASH);
    assert r == Success;
  }

  /**
   * test_PREPAID.js: the opening of the dispute suite up to the refusals in
   * PREPAID; ten years on the customer closes and is back at 100000.
   */
  method PrepaidSuite() returns (customer: nat, escrow: nat, final: State)
    ensures customer == 100000 && escrow == 0 && final == CLOSED
  {
    var p := Create(100000);
    RefuseInInit(p);
    var now := Negotiate(p);
    RefuseInPrepaid(p, now);
    PaymentsOfOne(Payment(CUSTOMER_1, 60));
    var r := p.CloseProposal(CUSTOMER_1, now + 10 * 365 * 24 * HOUR);
    assert r == Success;
    customer, escrow := BalanceOf(p.token.Snapshot(), CUSTOMER_1), BalanceOf(p.token.Snapshot(), PROPOSAL_AT);
    final := p.state;
  }

  /**
   * test_PROPOSED.js: a stranger and a past deadline are refused, the
   * contractor proposes, then lowers its reward by 50 for a later deadline;
   * the refusals in PROPOSED follow, and the contractor abandons the task.
   * No token moves.
   */
  method ProposedSuite() returns (customer: nat, escrow: nat, final: State)
    ensures customer == 0 && escrow == 0 && final == CLOSED
  {
    var p := Create(0);
    RefuseInInit(p);
    var now := 1000;
    var r := p.ResponseToProposal(CONTRACTOR_2, now, 1000000000000000, 100);
    assert r == Reverted(Unauthorized);
    r := p.ResponseToProposal(CONTRACTOR_1, now, 0, 100);
    assert r == Reverted(TimingViolation);
    r := p.ResponseToProposal(CONTRACTOR_1, now, now + 100000, 100);
    assert r == Success && p.state == PROPOSED && p.taskDeadline == now + 100000;
    r := p.ResponseToProposal(CONTRACTOR_1, now, now + 100000 + 100, 100 - 50);
    assert r == Success && p.state == PROPOSED;
    RefuseInProposed(p, now);
    r := p.CloseProposal(CONTRACTOR_1, now);
    assert r == Success;
    customer, escrow := BalanceOf(p.token.Snapshot(), CUSTOMER_1), BalanceOf(p.token.Snapshot(), PROPOSAL_AT);
    final := p.state;
  }

  /**
   * test_INIT.js: the refusals in INIT; the factory's owner cannot close the
   * proposal, its customer can.
   */
  method InitSuite() returns (final: State)
    ensures final == CLOSED
  {
    var p := Create(0);
    RefuseInInit(p);
    var r := p.CloseProposal(FACTORY_OWNER, 1000);
    assert r == Reverted(Unauthorized);
    r := p.CloseProposal(CUSTOMER_1, 1000);
    assert r == Success;
    final := p.state;
  }
}
