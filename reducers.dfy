/**
 * The client's Redux store: `appReducer` merges the proposals it is sent
 * into the map it keeps, keyed by contract address, and records the web3
 * connection. States are values: the reducer builds a new map and never
 * alters the one it was given.
 */
module Reducers {
  import Outcomes
  import opened ClientModel
  import opened StoreActions
  import opened Sequences

  datatype AppState = AppState(proposals: map<string, ClientProposal>, web3: Outcomes.Option<Web3>)

  /** `initialState`: no proposals and no connection. */
  function InitialState(): (s: AppState)
    ensures s.proposals == map[] && s.web3.None?
  {
    AppState(map[], Outcomes.None)
  }

  /** The addresses a list of proposals mentions. */
  function AddressesIn(ps: seq<ClientProposal>): set<string> {
    set p | p in ps :: p.address
  }

  /** The index of the last proposal in `ps` stored under `a`, or -1 when there is none. */
  function LastIndex(ps: seq<ClientProposal>, a: string): (j: int)
    ensures -1 <= j < |ps|
    ensures j < 0 <==> a !in AddressesIn(ps)
    ensures 0 <= j ==> ps[j].address == a
    ensures forall i :: j < i < |ps| ==> ps[i].address != a
  {
    if ps == [] then -1
    else if ps[|ps| - 1].address == a then |ps| - 1
    else
      var prefix := ps[..|ps| - 1];
      assert ps == prefix + [ps[|ps| - 1]];
      LastIndex(prefix, a)
  }

  /**
   * Setting each proposal of `ps`, in order, under its address in a copy of
   * `m`. No key is dropped, every address of `ps` becomes a key, the last
   * proposal with an address is the one stored under it, and every other
   * key keeps its value.
   */
  function Merge(m: map<string, ClientProposal>, ps: seq<ClientProposal>): (r: map<string, ClientProposal>)
    ensures r.Keys == m.Keys + AddressesIn(ps)
    ensures forall k :: k in r ==> r[k] == (var j := LastIndex(ps, k); if 0 <= j then ps[j] else m[k])
    decreases |ps|
  {
    if ps == [] then m
    else
      var prefix := ps[..|ps| - 1];
      var last := ps[|ps| - 1];
      assert ps == prefix + [last];
      assert AddressesIn(ps) == AddressesIn(prefix) + {last.address};
      Merge(m, prefix)[last.address := last]
  }

  /** `appReducer` on a well-typed action: the state it returns. */
  function Reduce(state: AppState, action: BaseAction): (next: AppState)
    requires WellTyped(action)
    ensures state.proposals.Keys <= next.proposals.Keys
    ensures action.kind != UPDATE_PROPOSALS ==> next.proposals == state.proposals
    ensures action.kind != SET_WEB3 ==> next.web3 == state.web3
  {
    match action.kind
    case UPDATE_PROPOSALS => state.(proposals := Merge(state.proposals, action.payload.proposals))
    case SET_WEB3 => state.(web3 := Outcomes.Some(action.payload.web3))
    case SET_MY_ADDRESS => state
  }

  /** The first `forEach` of `UPDATE_PROPOSALS`: every key of `m`, one at a time, into a new map. */
  method CopyProposals(m: map<string, ClientProposal>) returns (copy: map<string, ClientProposal>)
    ensures copy == m
  {
    copy := map[];
    var keys := m.Keys;
    while keys != {}
      invariant keys <= m.Keys
      invariant copy.Keys == m.Keys - keys
      invariant forall k :: k in copy ==> copy[k] == m[k]
      decreases |keys|
    {
      var key :| key in keys;
      copy := copy[key := m[key]];
      keys := keys - {key};
    }
  }

  /** The second `forEach`: each payload proposal, in order, set under its address. */
  method SetEach(m: map<string, ClientProposal>, ps: seq<ClientProposal>) returns (r: map<string, ClientProposal>)
    ensures r == Merge(m, ps)
  {
    r := m;
    var i := 0;
    while i < |ps|
      invariant 0 <= i <= |ps|
      invariant r == Merge(m, ps[..i])
    {
      assert ps[..i + 1][..i] == ps[..i];
      r := r[ps[i].address := ps[i]];
      i := i + 1;
    }
    assert ps[..i] == ps;
  }

  /**
   * `appReducer(state = initialState, action)`: a fresh map holding the
   * old proposals and then the payload's for `UPDATE_PROPOSALS`, the new
   * connection for `SET_WEB3`, the state as it was otherwise.
   */
  method AppReducer(state: Outcomes.Option<AppState>, action: BaseAction) returns (next: AppState)
    requires WellTyped(action)
    ensures next == Reduce(if state.Some? then state.value else InitialState(), action)
  {
    var current := if state.Some? then state.value else InitialState();
    match action.kind
    case UPDATE_PROPOSALS =>
      var newProposals := CopyProposals(current.proposals);
      newProposals := SetEach(newProposals, action.payload.proposals);
      next := current.(proposals := newProposals);
    case SET_WEB3 =>
      next := current.(web3 := Outcomes.Some(action.payload.web3));
    case SET_MY_ADDRESS =>
      next := current;
  }

  /** Of two payload proposals with the same address, the later one is stored. */
  lemma {:induction false} LaterProposalWins(m: map<string, ClientProposal>, ps: seq<ClientProposal>, j: int)
    requires 0 <= j < |ps|
    requires forall i :: j < i < |ps| ==> ps[i].address != ps[j].address
    ensures ps[j].address in Merge(m, ps) && Merge(m, ps)[ps[j].address] == ps[j]
  {
    var a := ps[j].address;
    assert a in AddressesIn(ps);
    var last := LastIndex(ps, a);
    assert last == j;
  }

  /** Sending the same proposals twice stores what sending them once does. */
  lemma {:induction false} MergeIdempotent(m: map<string, ClientProposal>, ps: seq<ClientProposal>)
    ensures Merge(Merge(m, ps), ps) == Merge(m, ps)
  {
    var once := Merge(m, ps);
    var twice := Merge(once, ps);
    assert twice.Keys == once.Keys;
    forall k | k in twice
      ensures twice[k] == once[k]
    {
    }
  }

  /** `UPDATE_PROPOSALS` applied twice is applied once. */
  lemma {:induction false} UpdateProposalsIdempotent(state: AppState, ps: seq<ClientProposal>)
    ensures Reduce(Reduce(state, UpdateProposals(ps)), UpdateProposals(ps)) == Reduce(state, UpdateProposals(ps))
  {
    MergeIdempotent(state.proposals, ps);
  }

  /** The list `proposalView` sends after a close: every proposal except those at the closed address, in order. */
  function Without(ps: seq<ClientProposal>, address: string): (r: seq<ClientProposal>)
    ensures forall p :: p in r <==> p in ps && p.address != address
    ensures forall p :: multiset(r)[p] == if p.address != address then multiset(ps)[p] else 0
    ensures IsSubsequence(r, ps)
  {
    Filter(ps, (p: ClientProposal) => p.address != address)
  }

  /**
   * No update removes a key, so the shortened list sent after a close
   * leaves the closed proposal in the store, unchanged.
   */
  lemma {:induction false} ShortenedListRemovesNothing(state: AppState, ps: seq<ClientProposal>, closed: string)
    ensures state.proposals.Keys <= Reduce(state, UpdateProposals(Without(ps, closed))).proposals.Keys
    ensures closed in state.proposals ==>
      Reduce(state, UpdateProposals(Without(ps, closed))).proposals[closed] == state.proposals[closed]
  {
    var rest := Without(ps, closed);
    assert closed !in AddressesIn(rest);
    assert LastIndex(rest, closed) < 0;
  }

  /** `SET_WEB3` changes the connection and nothing else; `SET_MY_ADDRESS` changes nothing. */
  lemma OtherActions(state: AppState, web3: Web3, address: string)
    ensures Reduce(state, SetWeb3(web3)) == AppState(state.proposals, Outcomes.Some(web3))
    ensures Reduce(state, SetMyAddress(address)) == state
  {
  }
}
