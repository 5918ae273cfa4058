/** The records the whole application passes around: groups, their expenses, and
    the two shapes an expense's payer may take. */
module Ledger {
  import opened Wrappers

  /** One entry of a split payment: `{member, amount}`. */
  datatype Payment = Payment(member: string, amount: real)

  /** `paidBy` is either a bare member name (older records: that member paid the
      whole amount) or an array of payments. */
  datatype Payer = Single(name: string) | Split(payments: seq<Payment>)

  /** An expense as the store keeps it. `involvedMembers` is absent on older
      records; `category` is absent unless something set it. */
  datatype Expense = Expense(
    id: string,
    date: string,
    description: string,
    amount: real,
    paidBy: Payer,
    involvedMembers: Option<seq<string>>,
    category: Option<string>)

  datatype Group = Group(
    id: string,
    name: string,
    members: seq<string>,
    expenses: seq<Expense>,
    createdAt: string)

  /** What the expense form submits: `{description, amount, paidBy, involvedMembers}`. */
  datatype ExpenseData = ExpenseData(
    description: string,
    amount: real,
    paidBy: Payer,
    involvedMembers: seq<string>)

  /** No name listed twice. */
  predicate Distinct(s: seq<string>) {
    forall p, q :: 0 <= p < q < |s| ==> s[p] != s[q]
  }

  /** The sum of the payments made by `m`. */
  function PaidIn(ps: seq<Payment>, m: string): real {
    if ps == [] then 0.0
    else PaidIn(ps[..|ps| - 1], m) + (if ps[|ps| - 1].member == m then ps[|ps| - 1].amount else 0.0)
  }

  /** The sum of all payments. */
  function PaymentsTotal(ps: seq<Payment>): real {
    if ps == [] then 0.0 else PaymentsTotal(ps[..|ps| - 1]) + ps[|ps| - 1].amount
  }

  /** How much `m` fronted for expense `e`: a bare-name payer fronted the whole
      amount, a split payer's members fronted their own shares. */
  function PaidBy(e: Expense, m: string): real {
    match e.paidBy
    case Single(n) => if n == m then e.amount else 0.0
    case Split(ps) => PaidIn(ps, m)
  }

  /** The payer names an expense mentions. */
  predicate PayerIn(e: Expense, m: string) {
    match e.paidBy
    case Single(n) => n == m
    case Split(ps) => exists k :: 0 <= k < |ps| && ps[k].member == m
  }

  /** A bare-name payer is the same as a one-entry split for the whole amount. */
  lemma {:induction false} LegacyPayerAsSplit(e: Expense, n: string, m: string)
    requires e.paidBy == Single(n)
    ensures PaidBy(e, m) == PaidBy(e.(paidBy := Split([Payment(n, e.amount)])), m)
  {
    var ps := [Payment(n, e.amount)];
    assert ps[..|ps| - 1] == [];
    assert PaidIn(ps, m) == (if n == m then e.amount else 0.0);
  }

  /** Someone who is not among the payers fronted nothing. */
  lemma {:induction false} PaidInOthers(ps: seq<Payment>, m: string)
    requires forall k :: 0 <= k < |ps| ==> ps[k].member != m
    ensures PaidIn(ps, m) == 0.0
  {
    if ps != [] {
      PaidInOthers(ps[..|ps| - 1], m);
    }
  }
}
