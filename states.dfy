/**
 * The lifecycle states of a proposal. The contract stores them as a uint8
 * enum; the client declares the same enum in TypeScript and compares the
 * numbers it reads from the chain against it.
 */
module States {
  import opened Outcomes

  datatype State = ZS | INIT | PROPOSED | PREPAID | COMPLETED | DISPUTE | RESOLVED | CLOSED

  /** The number a state is stored and transmitted as. */
  function Ordinal(s: State): (n: nat)
    ensures n < 8
    ensures n == 0 <==> s == ZS
    ensures n == 1 <==> s == INIT
    ensures n == 7 <==> s == CLOSED
  {
    match s
    case ZS => 0
    case INIT => 1
    case PROPOSED => 2
    case PREPAID => 3
    case COMPLETED => 4
    case DISPUTE => 5
    case RESOLVED => 6
    case CLOSED => 7
  }

  /** Decodes a number read from the chain; numbers outside the enum decode to nothing. */
  function FromOrdinal(n: nat): (r: Option<State>)
    ensures r.Some? <==> n < 8
    ensures r.Some? ==> Ordinal(r.value) == n
  {
    if n == 0 then Some(ZS)
    else if n == 1 then Some(INIT)
    else if n == 2 then Some(PROPOSED)
    else if n == 3 then Some(PREPAID)
    else if n == 4 then Some(COMPLETED)
    else if n == 5 then Some(DISPUTE)
    else if n == 6 then Some(RESOLVED)
    else if n == 7 then Some(CLOSED)
    else None
  }

  /** Encoding a state and decoding the number gives the state back, so no two states share a number. */
  lemma OrdinalRoundTrip(s: State)
    ensures FromOrdinal(Ordinal(s)) == Some(s)
  {
    match s
    case ZS =>
    case INIT =>
    case PROPOSED =>
    case PREPAID =>
    case COMPLETED =>
    case DISPUTE =>
    case RESOLVED =>
    case CLOSED =>
  }

  lemma OrdinalInjective(s: State, t: State)
    requires Ordinal(s) == Ordinal(t)
    ensures s == t
  {
    OrdinalRoundTrip(s);
    OrdinalRoundTrip(t);
  }
}
