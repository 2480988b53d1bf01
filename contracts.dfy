/**
 * The contracts as objects whose storage changes in place: the ERC-20
 * token, one `Proposal` and the `ProposalFactory` that deploys proposals.
 * Every transaction is a method taking its sender (`caller`) and the block
 * timestamp (`now`); each method is proved to leave exactly the storage the
 * state machine in module `Escrow` prescribes, and a reverted transaction to
 * leave everything as it was.
 */
module Contracts {
  import opened Outcomes
  import opened States
  import opened Erc20
  import opened Escrow
  import opened EscrowProperties

  /** The ERC-20 token: a balance per account and an allowance per (owner, spender). */
  class Token {
    var balances: map<Address, nat>
    var allowances: map<(Address, Address), nat>

    function Snapshot(): Ledger
      reads this
    {
      Ledger(balances, allowances)
    }

    constructor (initial: Ledger)
      ensures Snapshot() == initial
    {
      balances := initial.balances;
      allowances := initial.allowances;
    }

    method Transfer(sender: Address, to: Address, amount: nat) returns (ok: bool)
      modifies this
      ensures var r := Erc20.Transfer(old(Snapshot()), sender, to, amount);
        && ok == r.Some?
        && Snapshot() == (if ok then r.value else old(Snapshot()))
    {
      var held := if sender in balances then balances[sender] else 0;
      if amount > held {
        return false;
      }
      balances := balances[sender := held - amount];
      var got := if to in balances then balances[to] else 0;
      balances := balances[to := got + amount];
      return true;
    }

    method TransferFrom(spender: Address, from: Address, to: Address, amount: nat) returns (ok: bool)
      modifies this
      ensures var r := Erc20.TransferFrom(old(Snapshot()), spender, from, to, amount);
        && ok == r.Some?
        && Snapshot() == (if ok then r.value else old(Snapshot()))
    {
      var allowed := if (from, spender) in allowances then allowances[(from, spender)] else 0;
      if amount > allowed {
        return false;
      }
      ok := Transfer(from, to, amount);
      if ok {
        allowances := allowances[(from, spender) := allowed - amount];
      }
    }

    method Approve(owner: Address, spender: Address, amount: nat)
      modifies this
      ensures Snapshot() == Erc20.Approve(old(Snapshot()), owner, spender, amount)
    {
      allowances := allowances[(owner, spender) := amount];
    }
  }

  /** One escrow deal. Its address and factory are fixed at deployment, and so is the token it is paid in. */
  class Proposal {
    const self: Address
    const factory: Address
    const token: Token
    var state: State
    var customer: Address
    var contractor: Address
    var arbiter: Address
    var contractorReward: nat
    var arbiterReward: nat
    var taskDeadline: nat
    var revertDeadline: nat
    var taskHash: Bytes
    var solutionHash: Bytes

    function Snapshot(): Instance
      reads this
    {
      Instance(self, factory, state, customer, contractor, arbiter,
               contractorReward, arbiterReward, taskDeadline, revertDeadline, taskHash, solutionHash)
    }

    /** The proposal's storage together with the token's. */
    function Observed(): World
      reads this, token
    {
      World(Snapshot(), token.Snapshot())
    }

    /** The fund-safety invariant on the live objects. */
    predicate Valid()
      reads this, token
    {
      Consistent(Observed())
    }

    /** The transaction ended as `next` says, starting from `before`: its effect if it succeeded, no effect if it reverted. */
    predicate Committed(before: World, next: Result<World, Error>, r: Receipt)
      reads this, token
    {
      && r == ReceiptOf(next)
      && Observed() == (if next.Ok? then next.value else before)
    }

    /** Deployment at a fresh address, which no one has paid anything yet. */
    constructor (self: Address, factory: Address, token: Token)
      requires BalanceOf(token.Snapshot(), self) == 0
      ensures Snapshot() == Deployed(self, factory)
      ensures this.token == token
      ensures Valid()
    {
      this.self := self;
      this.factory := factory;
      this.token := token;
      state := ZS;
      customer, contractor, arbiter := 0, 0, 0;
      contractorReward, arbiterReward := 0, 0;
      taskDeadline, revertDeadline := 0, 0;
      taskHash, solutionHash := [], [];
    }

    method Setup(caller: Address, arbiter: Address, customer: Address,
                 arbiterReward: nat, taskHash: Bytes, contractor: Address) returns (r: Receipt)
      requires Valid()
      requires self != arbiter && self != customer && self != contractor
      modifies this
      ensures Valid()
      ensures Committed(old(Observed()), Escrow.Setup(old(Observed()), caller, arbiter, customer, arbiterReward, taskHash, contractor), r)
    {
      ghost var before := Observed();
      if state != ZS {
        return Reverted(AlreadyInitialized);
      }
      if caller != factory {
        return Reverted(Unauthorized);
      }
      if arbiterReward == 0 || taskHash == [] {
        return Reverted(InvalidParameters);
      }
      if customer == contractor || customer == arbiter || contractor == arbiter {
        return Reverted(InvalidParameters);
      }
      state := INIT;
      this.arbiter, this.customer, this.contractor := arbiter, customer, contractor;
      this.arbiterReward, this.taskHash := arbiterReward, taskHash;
      ApplyKeepsConsistent(before, caller, 0, SetupCall(arbiter, customer, arbiterReward, taskHash, contractor));
      r := Success;
    }

    method ResponseToProposal(caller: Address, now: nat, deadline: nat, reward: nat) returns (r: Receipt)
      requires Valid()
      modifies this
      ensures Valid()
      ensures Committed(old(Observed()), Escrow.ResponseToProposal(old(Observed()), caller, now, deadline, reward), r)
    {
      ghost var before := Observed();
      if state != INIT && state != PROPOSED {
        return Reverted(InvalidTransition);
      }
      if caller != contractor {
        return Reverted(Unauthorized);
      }
      if deadline <= now {
        return Reverted(TimingViolation);
      }
      state, taskDeadline, contractorReward := PROPOSED, deadline, reward;
      ApplyKeepsConsistent(before, caller, now, RespondCall(deadline, reward));
      r := Success;
    }

    method PushToPrepaidState(caller: Address, now: nat) returns (r: Receipt)
      requires Valid()
      modifies this, token
      ensures Valid()
      ensures Committed(old(Observed()), Escrow.PushToPrepaidState(old(Observed()), caller, now), r)
    {
      ghost var before := Observed();
      if state != PROPOSED {
        return Reverted(InvalidTransition);
      }
      if caller != customer {
        return Reverted(Unauthorized);
      }
      var escrow := contractorReward + arbiterReward;
      if !IsUint256(escrow) {
        return Reverted(InvalidParameters);
      }
      var paid := token.TransferFrom(self, customer, self, escrow);
      if !paid {
        return Reverted(InsufficientFunds);
      }
      state, revertDeadline := PREPAID, now + REVERT_WINDOW;
      ApplyKeepsConsistent(before, caller, now, PrepayCall);
      r := Success;
    }

    method CloseProposal(caller: Address, now: nat) returns (r: Receipt)
      requires Valid()
      modifies this, token
      ensures Valid()
      ensures Committed(old(Observed()), Escrow.CloseProposal(old(Observed()), caller, now), r)
    {
      ghost var before := Observed();
      if state == INIT {
        if caller != customer {
          return Reverted(Unauthorized);
        }
        state := CLOSED;
      } else if state == PROPOSED {
        if caller != contractor {
          return Reverted(Unauthorized);
        }
        state := CLOSED;
      } else if state == PREPAID {
        if caller != customer {
          return Reverted(Unauthorized);
        }
        if revertDeadline < now <= taskDeadline {
          return Reverted(TimingViolation);
        }
        // the escrow covers the refund, so the transfer cannot fail
        ghost var l0 := token.Snapshot();
        var refunded := token.Transfer(self, customer, contractorReward + arbiterReward);
        assert refunded;
        DisburseStep(l0, self, Payment(customer, contractorReward + arbiterReward), []);
        state := CLOSED;
      } else if state == COMPLETED || state == DISPUTE {
        if caller != customer {
          return Reverted(Unauthorized);
        }
        if now <= revertDeadline {
          return Reverted(TimingViolation);
        }
        ghost var l0 := token.Snapshot();
        var paid := token.Transfer(self, contractor, contractorReward);
        assert paid;
        ghost var l1 := token.Snapshot();
        var returned := token.Transfer(self, customer, arbiterReward);
        assert returned;
        DisburseStep(l1, self, Payment(customer, arbiterReward), []);
        DisburseStep(l0, self, Payment(contractor, contractorReward), [Payment(customer, arbiterReward)]);
        state := CLOSED;
      } else {
        return Reverted(InvalidTransition);
      }
      ApplyKeepsConsistent(before, caller, now, CloseCall);
      r := Success;
    }

    method AnnounceTaskCompleted(caller: Address, now: nat, solutionHash: Bytes) returns (r: Receipt)
      requires Valid()
      modifies this
      ensures Valid()
      ensures Committed(old(Observed()), Escrow.AnnounceTaskCompleted(old(Observed()), caller, now, solutionHash), r)
    {
      ghost var before := Observed();
      if state != PREPAID {
        return Reverted(InvalidTransition);
      }
      if caller != contractor {
        return Reverted(Unauthorized);
      }
      if solutionHash == [] {
        return Reverted(InvalidParameters);
      }
      if now <= revertDeadline || now > taskDeadline {
        return Reverted(TimingViolation);
      }
      state, this.solutionHash, revertDeadline := COMPLETED, solutionHash, now + REVERT_WINDOW;
      ApplyKeepsConsistent(before, caller, now, AnnounceCall(solutionHash));
      r := Success;
    }

    method StartDispute(caller: Address, now: nat, amount: nat) returns (r: Receipt)
      requires Valid()
      modifies this
      ensures Valid()
      ensures Committed(old(Observed()), Escrow.StartDispute(old(Observed()), caller, now, amount), r)
    {
      ghost var before := Observed();
      if state != COMPLETED {
        return Reverted(InvalidTransition);
      }
      if caller != customer {
        return Reverted(Unauthorized);
      }
      if now > revertDeadline {
        return Reverted(TimingViolation);
      }
      if amount == 0 || amount >= contractorReward {
        return Reverted(InvalidParameters);
      }
      state, revertDeadline := DISPUTE, now + REVERT_WINDOW;
      ApplyKeepsConsistent(before, caller, now, DisputeCall(amount));
      r := Success;
    }

    /** `resolveDispute(decision, evidenceHash)`; the evidence hash is only logged. */
    method ResolveDispute(caller: Address, now: nat, decision: nat, evidenceHash: Bytes) returns (r: Receipt)
      requires Valid()
      modifies this, token
      ensures Valid()
      ensures Committed(old(Observed()), Escrow.ResolveDispute(old(Observed()), caller, now, decision), r)
    {
      ghost var before := Observed();
      if state != DISPUTE {
        return Reverted(InvalidTransition);
      }
      if caller != arbiter {
        return Reverted(Unauthorized);
      }
      if now > revertDeadline {
        return Reverted(TimingViolation);
      }
      if decision == 0 || decision >= contractorReward {
        return Reverted(InvalidParameters);
      }
      // the three shares add up to the escrow, so no transfer can fail
      ghost var toContractor := Payment(contractor, decision);
      ghost var toArbiter := Payment(arbiter, arbiterReward);
      ghost var toCustomer := Payment(customer, contractorReward - decision);
      ghost var l0 := token.Snapshot();
      assert BalanceOf(l0, self) == decision + arbiterReward + (contractorReward - decision);
      var awarded := token.Transfer(self, contractor, decision);
      assert awarded;
      ghost var l1 := token.Snapshot();
      assert BalanceOf(l1, self) == arbiterReward + (contractorReward - decision);
      var fee := token.Transfer(self, arbiter, arbiterReward);
      assert fee;
      ghost var l2 := token.Snapshot();
      assert BalanceOf(l2, self) == contractorReward - decision;
      var rest := token.Transfer(self, customer, contractorReward - decision);
      assert rest;
      DisburseStep(l2, self, toCustomer, []);
      DisburseStep(l1, self, toArbiter, [toCustomer]);
      DisburseStep(l0, self, toContractor, [toArbiter, toCustomer]);
      assert [toContractor] + [toArbiter, toCustomer] == [toContractor, toArbiter, toCustomer];
      assert Erc20.Disburse(l0, self, [toContractor, toArbiter, toCustomer]) == Some(token.Snapshot());
      state := RESOLVED;
      ApplyKeepsConsistent(before, caller, now, ResolveCall(decision, evidenceHash));
      r := Success;
    }
  }

  /**
   * The factory: deployed once by its owner with a fixed arbiter, it keeps
   * a replaceable template and deploys one proposal per
   * `createConfiguredProposal`, logging a `ProposalCreated` event for each.
   */
  class ProposalFactory {
    const self: Address
    const owner: Address
    const arbiter: Address
    var currentProposalBytecode: Bytes
    /** The addresses carried by the `ProposalCreated` events, in order. */
    var created: seq<Address>

    constructor (self: Address, deployer: Address, arbiter: Address)
      ensures this.self == self && owner == deployer && this.arbiter == arbiter
      ensures currentProposalBytecode == [] && created == []
    {
      this.self, owner, this.arbiter := self, deployer, arbiter;
      currentProposalBytecode, created := [], [];
    }

    /** `registerProposalTemplate(bytecode)`: the owner replaces the template wholesale. */
    method RegisterProposalTemplate(caller: Address, bytecode: Bytes) returns (r: Receipt)
      modifies this
      ensures r == (if caller == owner then Success else Reverted(Unauthorized))
      ensures currentProposalBytecode == (if caller == owner then bytecode else old(currentProposalBytecode))
      ensures created == old(created)
    {
      if caller != owner {
        return Reverted(Unauthorized);
      }
      currentProposalBytecode := bytecode;
      r := Success;
    }

    /**
     * `createConfiguredProposal(arbiterReward, taskHash, contractor, token)`:
     * the sender becomes the customer of a new proposal at address `at`,
     * which the factory sets up with its own arbiter. Nothing is deployed or
     * logged when the parameters are refused.
     */
    method CreateConfiguredProposal(caller: Address, arbiterReward: nat, taskHash: Bytes, contractor: Address,
                                    token: Token, at: Address) returns (proposal: Proposal?, r: Receipt)
      requires at != caller && at != contractor && at != arbiter
      requires BalanceOf(token.Snapshot(), at) == 0
      modifies this
      ensures currentProposalBytecode == old(currentProposalBytecode)
      ensures var next := Escrow.Setup(World(Deployed(at, self), token.Snapshot()), self, arbiter, caller, arbiterReward, taskHash, contractor);
        && r == ReceiptOf(next)
        && (next.Ok? ==> proposal != null && fresh(proposal) && proposal.token == token && proposal.Observed() == next.value)
        && (next.Err? ==> proposal == null)
      ensures r.Success? <==>
        && arbiterReward > 0 && taskHash != []
        && caller != contractor && caller != arbiter && contractor != arbiter
      ensures r.Success? ==>
        && proposal != null && proposal.Valid()
        && proposal.state == INIT && proposal.self == at && proposal.factory == self
        && proposal.customer == caller && proposal.contractor == contractor && proposal.arbiter == arbiter
        && created == old(created) + [at]
      ensures r.Reverted? ==> r.error == InvalidParameters && created == old(created)
    {
      if arbiterReward == 0 || taskHash == [] {
        return null, Reverted(InvalidParameters);
      }
      var p := new Proposal(at, self, token);
      var setup := p.Setup(self, arbiter, caller, arbiterReward, taskHash, contractor);
      if setup.Reverted? {
        return null, setup;
      }
      created := created + [at];
      proposal, r := p, Success;
    }
  }
}
