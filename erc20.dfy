/**
 * The ERC-20 token the escrow is paid in, reduced to what the proposal
 * contract and its tests observe: a balance per account, an allowance per
 * (owner, spender) pair, and the effects of transfer, transferFrom and
 * approve on them. Accounts are abstract identities.
 */
module Erc20 {
  import opened Outcomes

  type Address = nat

  /** 2^256: every uint256 argument and stored amount lies below it. */
  const UINT256_LIMIT: nat := 0x1_0000_0000_0000_0000_0000_0000_0000_0000_0000_0000_0000_0000_0000_0000_0000_0000

  predicate IsUint256(x: int) {
    0 <= x < UINT256_LIMIT
  }

  /**
   * How web3 turns a JavaScript number into a uint256 call argument: a
   * negative number is sent as its two's complement, so `100 - 500` arrives
   * as 2^256 - 400.
   */
  function AbiUint256(x: int): (r: nat)
    ensures IsUint256(r)
    ensures 0 <= x < UINT256_LIMIT ==> r == x
    ensures -(UINT256_LIMIT as int) <= x < 0 ==> r == UINT256_LIMIT + x
  {
    x % UINT256_LIMIT
  }

  datatype Ledger = Ledger(balances: map<Address, nat>, allowances: map<(Address, Address), nat>)

  /** `balanceOf`: an account never credited holds 0. */
  function BalanceOf(l: Ledger, a: Address): nat {
    if a in l.balances then l.balances[a] else 0
  }

  /** `allowance(owner, spender)`. */
  function AllowanceOf(l: Ledger, owner: Address, spender: Address): nat {
    if (owner, spender) in l.allowances then l.allowances[(owner, spender)] else 0
  }

  /** The balance an account has after `amount` moved from `from` to `to`. */
  function Moved(l: Ledger, from: Address, to: Address, amount: nat, a: Address): int {
    BalanceOf(l, a) - (if a == from then amount else 0) + (if a == to then amount else 0)
  }

  /** `transfer(to, amount)` sent by `from`: fails when `from` holds less than `amount`. */
  function Transfer(l: Ledger, from: Address, to: Address, amount: nat): (r: Option<Ledger>)
    ensures r.Some? <==> amount <= BalanceOf(l, from)
    ensures r.Some? ==> r.value.allowances == l.allowances
    ensures r.Some? ==> forall a :: BalanceOf(r.value, a) == Moved(l, from, to, amount, a)
  {
    if amount <= BalanceOf(l, from) then
      var debited := l.balances[from := BalanceOf(l, from) - amount];
      var credited := debited[to := (if to in debited then debited[to] else 0) + amount];
      Some(l.(balances := credited))
    else
      None
  }

  /**
   * `transferFrom(from, to, amount)` sent by `spender`: needs both the
   * allowance `from` granted to `spender` and the balance of `from`, and
   * uses up that much allowance.
   */
  function TransferFrom(l: Ledger, spender: Address, from: Address, to: Address, amount: nat): (r: Option<Ledger>)
    ensures r.Some? <==> amount <= AllowanceOf(l, from, spender) && amount <= BalanceOf(l, from)
    ensures r.Some? ==> forall a :: BalanceOf(r.value, a) == Moved(l, from, to, amount, a)
    ensures r.Some? ==> AllowanceOf(r.value, from, spender) == AllowanceOf(l, from, spender) - amount
    ensures r.Some? ==> forall o: Address, s: Address :: (o, s) != (from, spender) ==> AllowanceOf(r.value, o, s) == AllowanceOf(l, o, s)
  {
    if amount <= AllowanceOf(l, from, spender) then
      match Transfer(l, from, to, amount)
      case None => None
      case Some(moved) =>
        Some(moved.(allowances := l.allowances[(from, spender) := AllowanceOf(l, from, spender) - amount]))
    else
      None
  }

  /** `approve(spender, amount)` sent by `owner`: sets that one allowance and nothing else. */
  function Approve(l: Ledger, owner: Address, spender: Address, amount: nat): (r: Ledger)
    ensures AllowanceOf(r, owner, spender) == amount
    ensures forall o: Address, s: Address :: (o, s) != (owner, spender) ==> AllowanceOf(r, o, s) == AllowanceOf(l, o, s)
    ensures forall a :: BalanceOf(r, a) == BalanceOf(l, a)
  {
    l.(allowances := l.allowances[(owner, spender) := amount])
  }

  /** One outgoing payment of the escrow. */
  datatype Payment = Payment(to: Address, amount: nat)

  function Total(ps: seq<Payment>): nat {
    if ps == [] then 0 else ps[0].amount + Total(ps[1..])
  }

  /** What account `a` receives from a list of payments. */
  function Received(ps: seq<Payment>, a: Address): nat {
    if ps == [] then 0 else (if ps[0].to == a then ps[0].amount else 0) + Received(ps[1..], a)
  }

  /**
   * The escrow paying out from its own account with one `transfer` per
   * payment, in order. It succeeds whenever the account covers the total,
   * and then every account's balance moves by exactly what it receives,
   * less the total for the paying account.
   */
  function Disburse(l: Ledger, from: Address, ps: seq<Payment>): (r: Option<Ledger>)
    ensures Total(ps) <= BalanceOf(l, from) ==> r.Some?
    ensures r.Some? ==> r.value.allowances == l.allowances
    ensures r.Some? ==> forall a ::
      BalanceOf(r.value, a) == BalanceOf(l, a) - (if a == from then Total(ps) else 0) + Received(ps, a)
    decreases |ps|
  {
    if ps == [] then Some(l)
    else
      match Transfer(l, from, ps[0].to, ps[0].amount)
      case None => None
      case Some(next) => Disburse(next, from, ps[1..])
  }

  /** Paying a list that starts with `p` is one `transfer` of `p`, then paying the rest. */
  lemma DisburseStep(l: Ledger, from: Address, p: Payment, rest: seq<Payment>)
    ensures Disburse(l, from, [p] + rest) ==
      match Transfer(l, from, p.to, p.amount)
      case None => None
      case Some(next) => Disburse(next, from, rest)
  {
    assert ([p] + rest)[1..] == rest;
  }

  /** The totals of the one-, two- and three-payment lists the escrow makes. */
  lemma PaymentsOfOne(x: Payment)
    ensures Total([x]) == x.amount
    ensures forall a :: Received([x], a) == (if x.to == a then x.amount else 0)
  {
    assert [x][1..] == [];
  }

  lemma PaymentsOfTwo(x: Payment, y: Payment)
    ensures Total([x, y]) == x.amount + y.amount
    ensures forall a :: Received([x, y], a) == (if x.to == a then x.amount else 0) + (if y.to == a then y.amount else 0)
  {
    assert [x, y][1..] == [y];
    PaymentsOfOne(y);
  }

  lemma PaymentsOfThree(x: Payment, y: Payment, z: Payment)
    ensures Total([x, y, z]) == x.amount + y.amount + z.amount
    ensures forall a ::
      Received([x, y, z], a) == (if x.to == a then x.amount else 0) + (if y.to == a then y.amount else 0) + (if z.to == a then z.amount else 0)
  {
    assert [x, y, z][1..] == [y, z];
    PaymentsOfTwo(y, z);
  }
}
