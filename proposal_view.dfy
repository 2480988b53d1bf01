/**
 * What `proposalView` decides for one proposal: its state label and the
 * buttons it offers, from the viewer's role and the proposal's state.
 * Dialogs, layout and the hook-held open flags are not part of it.
 */
module ProposalView {
  import Outcomes
  import opened States
  import opened ClientModel

  /** `stringState`: three states have a name, every other one reads "Unknown". */
  function StateLabel(s: State): (name: string)
    ensures name == "Open" <==> s == INIT
    ensures name == "Proposed" <==> s == PROPOSED
    ensures name == "Prepaid" <==> s == PREPAID
    ensures name == "Unknown" <==> s != INIT && s != PROPOSED && s != PREPAID
  {
    match s
    case INIT => "Open"
    case PROPOSED => "Proposed"
    case PREPAID => "Prepaid"
    case _ => "Unknown"
  }

  datatype Button = DownloadSolution | DownloadTask | Close | Respond | SubmitDone | Pay

  /** A button's place in the card's action bar, left to right. */
  function Position(b: Button): nat {
    match b
    case DownloadSolution => 0
    case DownloadTask => 1
    case Close => 2
    case Respond => 3
    case SubmitDone => 4
    case Pay => 5
  }

  predicate InLayoutOrder(bs: seq<Button>) {
    forall i, j :: 0 <= i < j < |bs| ==> Position(bs[i]) < Position(bs[j])
  }

  /** One conditional button of the action bar, placed after those already laid out. */
  function ShowIf(bs: seq<Button>, show: bool, b: Button): (r: seq<Button>)
    requires InLayoutOrder(bs)
    requires forall x :: x in bs ==> Position(x) < Position(b)
    ensures InLayoutOrder(r)
    ensures forall x :: x in r <==> x in bs || (show && x == b)
    ensures forall x :: x in r ==> Position(x) <= Position(b)
  {
    if show then bs + [b] else bs
  }

  /**
   * The buttons, in the order they are laid out. Each appears at most once;
   * "Download task" always, "Download solution" only in COMPLETED, "Close"
   * for the customer whatever the state, "Respond" for the contractor in
   * INIT, "Submit done" for the contractor in PREPAID, "Pay" for the
   * customer in PROPOSED.
   */
  function Buttons(role: Role, s: State): (bs: seq<Button>)
    ensures InLayoutOrder(bs)
    ensures forall i, j :: 0 <= i < j < |bs| ==> bs[i] != bs[j]
    ensures DownloadTask in bs
    ensures DownloadSolution in bs <==> s == COMPLETED
    ensures Close in bs <==> role == Customer
    ensures Respond in bs <==> role == Contractor && s == INIT
    ensures SubmitDone in bs <==> role == Contractor && s == PREPAID
    ensures Pay in bs <==> role == Customer && s == PROPOSED
  {
    var solution := ShowIf([], s == COMPLETED, DownloadSolution);
    var task := ShowIf(solution, true, DownloadTask);
    var close := ShowIf(task, role == Customer, Close);
    var respond := ShowIf(close, role == Contractor && s == INIT, Respond);
    var submit := ShowIf(respond, role == Contractor && s == PREPAID, SubmitDone);
    ShowIf(submit, role == Customer && s == PROPOSED, Pay)
  }

  /** What the card shows: the address, the state label, the role and the buttons. */
  datatype Card = Card(address: string, title: string, role: Role, buttons: seq<Button>)

  /** `ProposalView`: nothing at all for a proposal still in ZS. */
  function Render(p: ClientProposal, role: Role): (card: Outcomes.Option<Card>)
    ensures card.None? <==> p.currentState == ZS
    ensures card.Some? ==>
      && card.value.address == p.address && card.value.role == role
      && card.value.title == StateLabel(p.currentState)
      && card.value.buttons == Buttons(role, p.currentState)
  {
    if p.currentState == ZS then Outcomes.None
    else Outcomes.Some(Card(p.address, StateLabel(p.currentState), role, Buttons(role, p.currentState)))
  }
}

/**
 * The buttons of `proposalView` held against the contract: a button that
 * starts a transaction is offered to an account the contract lets send it,
 * except "Close", which the customer is offered in states where the
 * contract refuses it, while the contractor's own close of a proposed task
 * is never offered.
 */
module ViewAgainstContract {
  import opened States
  import opened Erc20
  import opened Escrow
  import opened ClientModel
  import opened ProposalView

  /** The role an account plays in a deployed proposal, the customer's first. */
  function RoleOf(p: Instance, who: Address): (role: Role)
    ensures role == Customer <==> who == p.customer
    ensures role == Contractor <==> who == p.contractor && who != p.customer
    ensures role == Arbiter <==> who == p.arbiter && who != p.customer && who != p.contractor
    ensures role == None <==> who != p.customer && who != p.contractor && who != p.arbiter
  {
    if who == p.customer then Customer
    else if who == p.contractor then Contractor
    else if who == p.arbiter then Arbiter
    else None
  }

  /** "Respond" is offered to the contractor of an open proposal; the contract then only asks for a deadline ahead. */
  lemma RespondOfferedToWhoMayRespond(w: World, who: Address, now: nat, deadline: nat, reward: nat)
    requires Respond in Buttons(RoleOf(w.p, who), w.p.state)
    ensures ResponseToProposal(w, who, now, deadline, reward).Ok? <==> now < deadline
  {
  }

  /** "Pay" is offered to the customer of a proposed task; the contract then only asks for the funds and the allowance. */
  lemma PayOfferedToWhoMayPay(w: World, who: Address, now: nat)
    requires Pay in Buttons(RoleOf(w.p, who), w.p.state)
    ensures var escrow := w.p.contractorReward + w.p.arbiterReward;
      PushToPrepaidState(w, who, now).Ok? <==>
        && IsUint256(escrow)
        && escrow <= AllowanceOf(w.ledger, w.p.customer, w.p.self)
        && escrow <= BalanceOf(w.ledger, w.p.customer)
  {
  }

  /** "Submit done" is offered to the contractor of a prepaid task; the contract then only asks for a hash and the right time. */
  lemma SubmitOfferedToWhoMaySubmit(w: World, who: Address, now: nat, solutionHash: Bytes)
    requires SubmitDone in Buttons(RoleOf(w.p, who), w.p.state)
    ensures AnnounceTaskCompleted(w, who, now, solutionHash).Ok? <==>
      solutionHash != [] && w.p.revertDeadline < now <= w.p.taskDeadline
  {
  }

  /**
   * "Close" is offered to the customer in PROPOSED, RESOLVED and CLOSED
   * too, and in COMPLETED while the dispute window is open, where every
   * close it sends reverts: a proposed task is the contractor's to abandon,
   * and a delivery can be settled only once the window is over.
   */
  lemma CloseOfferedWhereRefused(w: World, now: nat)
    requires PartiesDistinct(w.p)
    requires || w.p.state == PROPOSED || w.p.state == RESOLVED || w.p.state == CLOSED
             || (w.p.state == COMPLETED && now <= w.p.revertDeadline)
    ensures Close in Buttons(RoleOf(w.p, w.p.customer), w.p.state)
    ensures CloseProposal(w, w.p.customer, now).Err?
  {
  }

  /** The contractor may abandon a proposed task, but is offered no button for it. */
  lemma ContractorCloseNotOffered(w: World, now: nat)
    requires PartiesDistinct(w.p) && w.p.state == PROPOSED
    ensures Close !in Buttons(RoleOf(w.p, w.p.contractor), w.p.state)
    ensures CloseProposal(w, w.p.contractor, now).Ok?
  {
  }

  /** The arbiter is offered the downloads only, so a dispute is neither opened nor resolved from this view. */
  lemma ArbiterOnlyDownloads(s: State)
    ensures forall b :: b in Buttons(Arbiter, s) ==> b == DownloadTask || b == DownloadSolution
  {
  }
}
