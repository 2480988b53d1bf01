/**
 * The Redux actions of the client: a tag from the `Actions` enum and a
 * payload whose type the tag determines.
 */
module StoreActions {
  import opened ClientModel

  /** The `Actions` enum. */
  datatype ActionType = UPDATE_PROPOSALS | SET_WEB3 | SET_MY_ADDRESS

  /** The enum's numeric values, which are the tags Redux compares. */
  function ActionOrdinal(t: ActionType): (n: nat)
    ensures n < 3
    ensures n == 0 <==> t == UPDATE_PROPOSALS
    ensures n == 1 <==> t == SET_WEB3
    ensures n == 2 <==> t == SET_MY_ADDRESS
  {
    match t
    case UPDATE_PROPOSALS => 0
    case SET_WEB3 => 1
    case SET_MY_ADDRESS => 2
  }

  /** The three tags are told apart by their numbers. */
  lemma ActionOrdinalsDistinct(s: ActionType, t: ActionType)
    requires ActionOrdinal(s) == ActionOrdinal(t)
    ensures s == t
  {
  }

  /** The connection to the Ethereum node; the store only keeps it. */
  datatype Web3 = Web3(provider: string)

  datatype Payload =
    | ProposalList(proposals: seq<ClientProposal>)
    | Connection(web3: Web3)
    | Account(address: string)

  /** `BaseAction`: the tag (`type` in the source) and the payload. */
  datatype BaseAction = BaseAction(kind: ActionType, payload: Payload)

  /** The payload has the type the tag calls for, as `AppAction` guarantees. */
  predicate WellTyped(a: BaseAction) {
    match a.kind
    case UPDATE_PROPOSALS => a.payload.ProposalList?
    case SET_WEB3 => a.payload.Connection?
    case SET_MY_ADDRESS => a.payload.Account?
  }

  /** `action(type, payload)`: nothing is added, dropped or converted. */
  function Action(kind: ActionType, payload: Payload): (a: BaseAction)
    ensures a.kind == kind && a.payload == payload
  {
    BaseAction(kind, payload)
  }

  /** `actions.updateProposals(proposals)`. */
  function UpdateProposals(proposals: seq<ClientProposal>): (a: BaseAction)
    ensures a.kind == UPDATE_PROPOSALS && WellTyped(a) && a.payload.proposals == proposals
  {
    Action(UPDATE_PROPOSALS, ProposalList(proposals))
  }

  /** `actions.setWeb3(web3)`. */
  function SetWeb3(web3: Web3): (a: BaseAction)
    ensures a.kind == SET_WEB3 && WellTyped(a) && a.payload.web3 == web3
  {
    Action(SET_WEB3, Connection(web3))
  }

  /** `actions.setMyAddress(address)`. */
  function SetMyAddress(address: string): (a: BaseAction)
    ensures a.kind == SET_MY_ADDRESS && WellTyped(a) && a.payload.address == address
  {
    Action(SET_MY_ADDRESS, Account(address))
  }

  /** Every action the three constructors build is well typed, and the constructor can be read back from the tag. */
  lemma ConstructorsAreTagged(a: BaseAction)
    requires WellTyped(a)
    ensures a.kind == UPDATE_PROPOSALS ==> a == UpdateProposals(a.payload.proposals)
    ensures a.kind == SET_WEB3 ==> a == SetWeb3(a.payload.web3)
    ensures a.kind == SET_MY_ADDRESS ==> a == SetMyAddress(a.payload.address)
  {
  }
}
