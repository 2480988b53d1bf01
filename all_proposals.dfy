/**
 * The two lists of the `allProposals` page: "My tasks", the proposals the
 * viewer has a part in, and "Open tasks", the ones it has no part in that
 * are still open. The viewer's role in a proposal is given as a function.
 */
module AllProposals {
  import opened States
  import opened ClientModel
  import opened Sequences

  /** `myProposals`: the proposals in which the viewer has a role. */
  function MyProposals(ps: seq<ClientProposal>, roleOf: ClientProposal -> Role): (r: seq<ClientProposal>)
    ensures forall p :: p in r <==> p in ps && roleOf(p) != None
    ensures forall p :: multiset(r)[p] == if roleOf(p) != None then multiset(ps)[p] else 0
    ensures IsSubsequence(r, ps)
  {
    Filter(ps, p => roleOf(p) != None)
  }

  /** `openProposals`: the proposals in which the viewer has no role and whose state number is that of INIT. */
  function OpenProposals(ps: seq<ClientProposal>, roleOf: ClientProposal -> Role): (r: seq<ClientProposal>)
    ensures forall p :: p in r <==> p in ps && roleOf(p) == None && p.currentState == INIT
    ensures forall p :: multiset(r)[p] == if roleOf(p) == None && p.currentState == INIT then multiset(ps)[p] else 0
    ensures IsSubsequence(r, ps)
  {
    Filter(ps, p => roleOf(p) == None && Ordinal(p.currentState) == 1)
  }

  /** No proposal is listed twice. */
  lemma ListsDisjoint(ps: seq<ClientProposal>, roleOf: ClientProposal -> Role)
    ensures forall p :: !(p in MyProposals(ps, roleOf) && p in OpenProposals(ps, roleOf))
  {
  }

  /** A proposal is in neither list exactly when the viewer has no role in it and it is past INIT (or still in ZS). */
  lemma NeitherListed(ps: seq<ClientProposal>, roleOf: ClientProposal -> Role, p: ClientProposal)
    requires p in ps
    ensures (p !in MyProposals(ps, roleOf) && p !in OpenProposals(ps, roleOf)) <==>
      (roleOf(p) == None && p.currentState != INIT)
  {
  }
}
