/**
 * What the truffle suites establish about the escrow, stated for every
 * world, caller and time rather than for the one trace each suite replays.
 */
module EscrowProperties {
  import opened Outcomes
  import opened States
  import opened Erc20
  import opened Escrow

  /** `setup` hands the proposal none of its own account. */
  predicate SetupKeepsOwnAccountApart(w: World, call: Call) {
    call.SetupCall? ==>
      w.p.self != call.customer && w.p.self != call.contractor && w.p.self != call.arbiter
  }

  /**
   * Fund safety: every successful transaction keeps the proposal's balance
   * equal to the escrow its state calls for, so it is exactly both rewards
   * after prepayment and exactly zero once closed or resolved.
   */
  lemma {:induction false} ApplyKeepsConsistent(w: World, caller: Address, now: nat, call: Call)
    requires Consistent(w)
    requires SetupKeepsOwnAccountApart(w, call)
    requires Apply(w, caller, now, call).Ok?
    ensures Consistent(Apply(w, caller, now, call).value)
  {
    var w' := Apply(w, caller, now, call).value;
    var p := w.p;
    match call
    case SetupCall(_, _, _, _, _) =>
    case RespondCall(_, _) =>
    case PrepayCall =>
      assert BalanceOf(w'.ledger, p.self) == BalanceOf(w.ledger, p.self) + p.contractorReward + p.arbiterReward;
    case CloseCall =>
      CloseKeepsConsistent(w, caller, now);
    case AnnounceCall(_) =>
    case DisputeCall(_) =>
    case ResolveCall(decision, _) =>
      ResolveKeepsConsistent(w, caller, now, decision);
  }

  /** A close empties the proposal's account of exactly the escrow it held. */
  lemma {:induction false} CloseKeepsConsistent(w: World, caller: Address, now: nat)
    requires Consistent(w)
    requires CloseProposal(w, caller, now).Ok?
    ensures Consistent(CloseProposal(w, caller, now).value)
  {
    var p := w.p;
    if p.state == PREPAID {
      PaymentsOfOne(Payment(p.customer, p.contractorReward + p.arbiterReward));
    } else if p.state == COMPLETED || p.state == DISPUTE {
      PaymentsOfTwo(Payment(p.contractor, p.contractorReward), Payment(p.customer, p.arbiterReward));
    }
  }

  /** A resolution pays out the whole escrow. */
  lemma {:induction false} ResolveKeepsConsistent(w: World, caller: Address, now: nat, decision: nat)
    requires Consistent(w)
    requires ResolveDispute(w, caller, now, decision).Ok?
    ensures Consistent(ResolveDispute(w, caller, now, decision).value)
  {
    var p := w.p;
    PaymentsOfThree(Payment(p.contractor, decision), Payment(p.arbiter, p.arbiterReward),
                    Payment(p.customer, p.contractorReward - decision));
  }

  /** In a state that admits the call, any other sender is refused as unauthorised. */
  lemma {:induction false} WrongCallerIsUnauthorized(w: World, caller: Address, now: nat, call: Call)
    requires Enabled(w.p.state, call)
    requires caller != AuthorizedCaller(w.p, call)
    ensures Apply(w, caller, now, call) == Err(Unauthorized)
  {
    match call
    case CloseCall =>
      match w.p.state {
      case INIT =>
      case PROPOSED =>
      case PREPAID =>
      case COMPLETED =>
      case DISPUTE =>
      }
    case _ =>
  }

  /** Outside the states that admit it, a call is refused as an invalid transition, whoever sends it. */
  lemma {:induction false} DisabledCallIsInvalidTransition(w: World, caller: Address, now: nat, call: Call)
    requires !Enabled(w.p.state, call)
    requires !call.SetupCall?
    ensures Apply(w, caller, now, call) == Err(InvalidTransition)
  {
    match call
    case CloseCall =>
      match w.p.state {
      case ZS =>
      case RESOLVED =>
      case CLOSED =>
      }
    case _ =>
  }

  /** `setup` succeeds at most once: once set up, every further call reverts, whoever sends it. */
  lemma SetupAtMostOnce(w: World, caller: Address, now: nat, call: Call)
    requires call.SetupCall?
    requires w.p.state != ZS
    ensures Apply(w, caller, now, call) == Err(AlreadyInitialized)
  {
  }

  /**
   * Every successful transaction follows an edge of the lifecycle, never
   * changes who the parties are once set up, and leaves RESOLVED and CLOSED
   * for good.
   */
  lemma {:induction false} SuccessFollowsLifecycle(w: World, caller: Address, now: nat, call: Call)
    requires Apply(w, caller, now, call).Ok?
    ensures Edge(w.p.state, Apply(w, caller, now, call).value.p.state)
    ensures IdentitiesKept(w.p, Apply(w, caller, now, call).value.p)
  {
    match call
    case CloseCall =>
      match w.p.state {
      case INIT =>
      case PROPOSED =>
      case PREPAID =>
      case COMPLETED =>
      case DISPUTE =>
      }
    case ResolveCall(_, _) =>
    case _ =>
  }

  /**
   * After prepayment the terms are frozen: no transaction changes either
   * reward or the task deadline any more.
   */
  lemma {:induction false} TermsFrozenOncePrepaid(w: World, caller: Address, now: nat, call: Call)
    requires w.p.state != ZS && w.p.state != INIT && w.p.state != PROPOSED
    requires Apply(w, caller, now, call).Ok?
    ensures Apply(w, caller, now, call).value.p.contractorReward == w.p.contractorReward
    ensures Apply(w, caller, now, call).value.p.arbiterReward == w.p.arbiterReward
    ensures Apply(w, caller, now, call).value.p.taskDeadline == w.p.taskDeadline
  {
    match call
    case CloseCall =>
      match w.p.state {
      case PREPAID =>
      case COMPLETED =>
      case DISPUTE =>
      }
    case ResolveCall(_, _) =>
    case _ =>
  }

  /**
   * The contractor's response succeeds exactly from INIT or PROPOSED, from
   * the contractor, with a deadline ahead; it then records that deadline and
   * reward verbatim, whatever the reward, and the proposal is PROPOSED.
   */
  lemma ResponseRecordsTerms(w: World, caller: Address, now: nat, deadline: nat, reward: nat)
    ensures ResponseToProposal(w, caller, now, deadline, reward).Ok?
        <==> (w.p.state == INIT || w.p.state == PROPOSED) && caller == w.p.contractor && now < deadline
    ensures ResponseToProposal(w, caller, now, deadline, reward).Ok? ==>
              var q := ResponseToProposal(w, caller, now, deadline, reward).value.p;
              q.state == PROPOSED && q.taskDeadline == deadline && q.contractorReward == reward
  {
  }

  /**
   * Prepayment moves exactly both rewards from the customer to the
   * proposal, touches no other balance, and uses up that much of the
   * customer's allowance to the proposal.
   */
  lemma PrepayEscrowsExactly(w: World, caller: Address, now: nat)
    requires Consistent(w)
    requires PushToPrepaidState(w, caller, now).Ok?
    ensures var w' := PushToPrepaidState(w, caller, now).value;
      var escrow := w.p.contractorReward + w.p.arbiterReward;
      && w'.p.state == PREPAID
      && w'.p.revertDeadline == now + REVERT_WINDOW
      && BalanceOf(w'.ledger, w.p.self) == escrow
      && BalanceOf(w'.ledger, w.p.customer) == BalanceOf(w.ledger, w.p.customer) - escrow
      && (forall a :: a != w.p.self && a != w.p.customer ==> BalanceOf(w'.ledger, a) == BalanceOf(w.ledger, a))
      && AllowanceOf(w'.ledger, w.p.customer, w.p.self) == AllowanceOf(w.ledger, w.p.customer, w.p.self) - escrow
  {
  }

  /**
   * Prepayment succeeds, when the customer asks in PROPOSED, exactly when
   * the customer has approved and holds both rewards (and they fit a
   * uint256).
   */
  lemma PrepayNeedsApprovalAndBalance(w: World, now: nat)
    requires w.p.state == PROPOSED
    ensures var escrow := w.p.contractorReward + w.p.arbiterReward;
      PushToPrepaidState(w, w.p.customer, now).Ok? <==>
        && IsUint256(escrow)
        && escrow <= AllowanceOf(w.ledger, w.p.customer, w.p.self)
        && escrow <= BalanceOf(w.ledger, w.p.customer)
  {
  }

  /**
   * Round trip: a prepayment followed by the customer's close, while the
   * revert window after it is open or once the task deadline has passed,
   * always succeeds and leaves every balance, the customer's included,
   * where it was before the prepayment.
   */
  lemma {:induction false} RefundRestoresBalances(w: World, payAt: nat, closeAt: nat)
    requires Consistent(w)
    requires PushToPrepaidState(w, w.p.customer, payAt).Ok?
    requires closeAt <= payAt + REVERT_WINDOW || w.p.taskDeadline < closeAt
    ensures var w1 := PushToPrepaidState(w, w.p.customer, payAt).value;
      && CloseProposal(w1, w.p.customer, closeAt).Ok?
      && CloseProposal(w1, w.p.customer, closeAt).value.p.state == CLOSED
      && forall a :: BalanceOf(CloseProposal(w1, w.p.customer, closeAt).value.ledger, a) == BalanceOf(w.ledger, a)
  {
    var p := w.p;
    var w1 := PushToPrepaidState(w, p.customer, payAt).value;
    var escrow := p.contractorReward + p.arbiterReward;
    var ps := [Payment(p.customer, escrow)];
    assert Total(ps) == escrow;
    assert BalanceOf(w1.ledger, p.self) == escrow;
    var w2 := CloseProposal(w1, p.customer, closeAt).value;
    forall a
      ensures BalanceOf(w2.ledger, a) == BalanceOf(w.ledger, a)
    {
      assert Received(ps, a) == if a == p.customer then escrow else 0;
    }
  }

  /**
   * While PREPAID, a close succeeds exactly when the customer sends it
   * inside the revert window after prepayment or after the task deadline;
   * in between the customer is refused for timing, so the escrow cannot be
   * taken back from a contractor still inside the agreed time.
   */
  lemma {:induction false} PrepaidCloseGuards(w: World, caller: Address, now: nat)
    requires Consistent(w)
    requires w.p.state == PREPAID
    ensures CloseProposal(w, caller, now).Ok?
        <==> caller == w.p.customer && (now <= w.p.revertDeadline || w.p.taskDeadline < now)
    ensures caller == w.p.customer && w.p.revertDeadline < now <= w.p.taskDeadline ==>
              CloseProposal(w, caller, now) == Err(TimingViolation)
  {
    var p := w.p;
    assert Total([Payment(p.customer, p.contractorReward + p.arbiterReward)]) == p.contractorReward + p.arbiterReward;
  }

  /**
   * Once the revert window after prepayment is over, at every instant
   * exactly one side can end the PREPAID phase: the contractor by announcing
   * a (non-empty) solution up to the task deadline, or the customer by
   * closing after it.
   */
  lemma {:induction false} ExactlyOneExitAfterRevertWindow(w: World, now: nat, solutionHash: Bytes)
    requires Consistent(w)
    requires w.p.state == PREPAID
    requires w.p.revertDeadline < now
    requires solutionHash != []
    ensures AnnounceTaskCompleted(w, w.p.contractor, now, solutionHash).Ok?
        <==> !CloseProposal(w, w.p.customer, now).Ok?
  {
    var p := w.p;
    if p.taskDeadline < now {
      assert Total([Payment(p.customer, p.contractorReward + p.arbiterReward)]) == p.contractorReward + p.arbiterReward;
    }
  }

  /**
   * The contractor's announcement succeeds exactly from PREPAID, from the
   * contractor, with a non-empty solution hash, after the customer's revert
   * window and no later than the task deadline. It then records the
   * solution, opens the customer's dispute window of 24 hours and changes
   * nothing else, no balance included.
   */
  lemma AnnounceRecordsSolution(w: World, caller: Address, now: nat, solutionHash: Bytes)
    ensures AnnounceTaskCompleted(w, caller, now, solutionHash).Ok?
        <==> && w.p.state == PREPAID && caller == w.p.contractor && solutionHash != []
             && w.p.revertDeadline < now <= w.p.taskDeadline
    ensures AnnounceTaskCompleted(w, caller, now, solutionHash).Ok? ==>
              AnnounceTaskCompleted(w, caller, now, solutionHash).value
                == w.(p := w.p.(state := COMPLETED, solutionHash := solutionHash, revertDeadline := now + REVERT_WINDOW))
  {
  }

  /**
   * A dispute can be started only by the customer, inside the window after
   * completion, offering strictly between nothing and the agreed reward. It
   * then opens the arbiter's window of 24 hours and changes nothing else:
   * the offered amount is not stored.
   */
  lemma StartDisputeGuards(w: World, caller: Address, now: nat, amount: nat)
    requires w.p.state == COMPLETED
    ensures StartDispute(w, caller, now, amount).Ok?
        <==> caller == w.p.customer && now <= w.p.revertDeadline && 0 < amount < w.p.contractorReward
    ensures StartDispute(w, caller, now, amount).Ok? ==>
              StartDispute(w, caller, now, amount).value
                == w.(p := w.p.(state := DISPUTE, revertDeadline := now + REVERT_WINDOW))
  {
  }

  /**
   * After delivery the customer has, at every instant, exactly one way to
   * end COMPLETED: disputing (with an admissible offer) inside the window,
   * or settling with a close after it.
   */
  lemma {:induction false} ExactlyOneExitAfterDelivery(w: World, now: nat, amount: nat)
    requires Consistent(w)
    requires w.p.state == COMPLETED
    requires 0 < amount < w.p.contractorReward
    ensures StartDispute(w, w.p.customer, now, amount).Ok?
        <==> !CloseProposal(w, w.p.customer, now).Ok?
  {
    var p := w.p;
    if p.revertDeadline < now {
      PaymentsOfTwo(Payment(p.contractor, p.contractorReward), Payment(p.customer, p.arbiterReward));
    }
  }

  /**
   * A resolution succeeds exactly when the arbiter sends it inside its
   * window with a decision strictly between nothing and the contractor's
   * reward.
   */
  lemma {:induction false} ResolveDisputeGuards(w: World, caller: Address, now: nat, decision: nat)
    requires Consistent(w)
    requires w.p.state == DISPUTE
    ensures ResolveDispute(w, caller, now, decision).Ok?
        <==> caller == w.p.arbiter && now <= w.p.revertDeadline && 0 < decision < w.p.contractorReward
  {
    var p := w.p;
    if caller == p.arbiter && now <= p.revertDeadline && 0 < decision < p.contractorReward {
      PaymentsOfThree(Payment(p.contractor, decision), Payment(p.arbiter, p.arbiterReward),
                      Payment(p.customer, p.contractorReward - decision));
    }
  }

  /**
   * A resolution inside the arbiter's window pays the contractor exactly the
   * decision, the arbiter exactly its fee and the customer exactly the rest
   * of the contractor's reward, and empties the proposal's account; no other
   * balance moves.
   */
  lemma {:induction false} ResolvePaysExactly(w: World, caller: Address, now: nat, decision: nat)
    requires Consistent(w)
    requires w.p.state == DISPUTE
    requires caller == w.p.arbiter && now <= w.p.revertDeadline
    requires 0 < decision < w.p.contractorReward
    ensures ResolveDispute(w, caller, now, decision).Ok?
    ensures var w' := ResolveDispute(w, caller, now, decision).value;
      && w'.p.state == RESOLVED
      && BalanceOf(w'.ledger, w.p.self) == 0
      && BalanceOf(w'.ledger, w.p.contractor) == BalanceOf(w.ledger, w.p.contractor) + decision
      && BalanceOf(w'.ledger, w.p.arbiter) == BalanceOf(w.ledger, w.p.arbiter) + w.p.arbiterReward
      && BalanceOf(w'.ledger, w.p.customer) == BalanceOf(w.ledger, w.p.customer) + (w.p.contractorReward - decision)
      && forall a :: a !in {w.p.self, w.p.contractor, w.p.arbiter, w.p.customer} ==>
           BalanceOf(w'.ledger, a) == BalanceOf(w.ledger, a)
  {
    var p := w.p;
    PaymentsOfThree(Payment(p.contractor, decision), Payment(p.arbiter, p.arbiterReward),
                    Payment(p.customer, p.contractorReward - decision));
  }

  /**
   * Closing a funded proposal after its current window: in COMPLETED the
   * customer's window to dispute, in DISPUTE the arbiter's window to
   * resolve. The close succeeds exactly when the customer sends it after
   * the window, inside which the customer is refused for timing. It pays
   * the contractor the full reward and returns the arbiter's fee to the
   * customer, emptying the proposal's account; no other balance moves.
   */
  lemma {:induction false} TimeoutClosePaysContractor(w: World, caller: Address, now: nat)
    requires Consistent(w)
    requires w.p.state == COMPLETED || w.p.state == DISPUTE
    ensures CloseProposal(w, caller, now).Ok? <==> caller == w.p.customer && w.p.revertDeadline < now
    ensures caller == w.p.customer && now <= w.p.revertDeadline ==>
              CloseProposal(w, caller, now) == Err(TimingViolation)
    ensures CloseProposal(w, caller, now).Ok? ==>
      var w' := CloseProposal(w, caller, now).value;
      && w'.p.state == CLOSED
      && BalanceOf(w'.ledger, w.p.self) == 0
      && BalanceOf(w'.ledger, w.p.contractor) == BalanceOf(w.ledger, w.p.contractor) + w.p.contractorReward
      && BalanceOf(w'.ledger, w.p.customer) == BalanceOf(w.ledger, w.p.customer) + w.p.arbiterReward
      && forall a :: a !in {w.p.self, w.p.contractor, w.p.customer} ==>
           BalanceOf(w'.ledger, a) == BalanceOf(w.ledger, a)
  {
    var p := w.p;
    PaymentsOfTwo(Payment(p.contractor, p.contractorReward), Payment(p.customer, p.arbiterReward));
  }

  /**
   * Before anything is paid a close moves no token: in INIT it succeeds
   * exactly when the customer withdraws, in PROPOSED exactly when the
   * contractor abandons, at any time.
   */
  lemma UnfundedCloseGuards(w: World, caller: Address, now: nat)
    requires w.p.state == INIT || w.p.state == PROPOSED
    ensures w.p.state == INIT ==> (CloseProposal(w, caller, now).Ok? <==> caller == w.p.customer)
    ensures w.p.state == PROPOSED ==> (CloseProposal(w, caller, now).Ok? <==> caller == w.p.contractor)
    ensures CloseProposal(w, caller, now).Ok? ==> CloseProposal(w, caller, now).value == w.(p := w.p.(state := CLOSED))
  {
  }
}
