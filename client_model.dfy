/**
 * The client's view of one proposal, and the role the viewing account plays
 * in it. The client works with the contract's own state numbering.
 */
module ClientModel {
  import opened States

  /** The viewer's part in a proposal; `None` for an account that is no party to it. */
  datatype Role = Customer | Contractor | Arbiter | None

  /** A proposal as the client stores it: keyed by its contract address, with the last state it read. */
  datatype ClientProposal = ClientProposal(address: string, currentState: State)
}
