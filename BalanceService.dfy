/** The balance and settlement engine: `calculateGroupStats` reduces a group to
    each member's net balance, and `calculateSettlements` turns the balances into
    a list of transfers found by greedy debtor/creditor matching. */
module BalanceService {
  import opened Wrappers
  import opened Ledger
  import Sorting

  /** The `balances` object: member name to net balance. Positive means the
      member is owed money, negative that the member owes. */
  type Balances = map<string, real>

  // ---------------------------------------------------------------------------
  // Net balances
  // ---------------------------------------------------------------------------

  /** Every member starts at 0. */
  function Zeros(members: seq<string>): Balances {
    map m | m in members :: 0.0
  }

  /** Who shares an expense: its `involvedMembers` when present and non-empty,
      otherwise every member of the group. */
  function Involved(members: seq<string>, e: Expense): seq<string> {
    if e.involvedMembers.Some? && |e.involvedMembers.value| > 0 then e.involvedMembers.value else members
  }

  /** The equal share of each of `n` participants: `amount / n`. */
  function Share(amount: real, n: nat): real
    requires n > 0
  {
    amount / n as real
  }

  /** How many times `m` occurs in `ms`. */
  function Occurrences(ms: seq<string>, m: string): (n: nat)
    ensures n > 0 <==> m in ms
  {
    if ms == [] then 0
    else
      assert ms == ms[..|ms| - 1] + [ms[|ms| - 1]];
      Occurrences(ms[..|ms| - 1], m) + (if ms[|ms| - 1] == m then 1 else 0)
  }

  /** `n` debits of `share`, added up. */
  function Times(n: nat, share: real): real {
    if n == 0 then 0.0 else Times(n - 1, share) + share
  }

  /** Credits each payment to its member, skipping names that have no balance. */
  function Credit(b: Balances, ps: seq<Payment>): (r: Balances)
    ensures r.Keys == b.Keys
  {
    if ps == [] then b
    else
      var p := ps[|ps| - 1];
      var r := Credit(b, ps[..|ps| - 1]);
      if p.member in r then r[p.member := r[p.member] + p.amount] else r
  }

  /** Credits the payer(s) of `e`: each share of a split payer, or the whole
      amount to a bare-name payer. */
  function CreditPayer(b: Balances, e: Expense): (r: Balances)
    ensures r.Keys == b.Keys
  {
    match e.paidBy
    case Split(ps) => Credit(b, ps)
    case Single(n) => if n in b then b[n := b[n] + e.amount] else b
  }

  /** Debits `share` from every listed name that has a balance, once per listing. */
  function Debit(b: Balances, ms: seq<string>, share: real): (r: Balances)
    ensures r.Keys == b.Keys
  {
    if ms == [] then b
    else
      var m := ms[|ms| - 1];
      var r := Debit(b, ms[..|ms| - 1], share);
      if m in r then r[m := r[m] - share] else r
  }

  /** What one expense does to the balance of `m`: what `m` fronted, less `m`'s
      equal shares of the amount. An expense nobody shares changes nothing. */
  function ExpenseEffect(members: seq<string>, e: Expense, m: string): real {
    var inv := Involved(members, e);
    if |inv| == 0 then 0.0
    else PaidBy(e, m) - Times(Occurrences(inv, m), Share(e.amount, |inv|))
  }

  /** The sum of the effects of a list of expenses on `m`. */
  function NetEffect(members: seq<string>, es: seq<Expense>, m: string): real {
    if es == [] then 0.0
    else NetEffect(members, es[..|es| - 1], m) + ExpenseEffect(members, es[|es| - 1], m)
  }

  /** One iteration of the expense loop: credit the payers, then debit each
      participant `amount / |participants|`. */
  function ApplyExpense(members: seq<string>, b: Balances, e: Expense): (r: Balances)
    ensures r.Keys == b.Keys
  {
    var inv := Involved(members, e);
    if |inv| == 0 then b else Debit(CreditPayer(b, e), inv, Share(e.amount, |inv|))
  }

  /** The expense loop over a prefix of the expenses. */
  function ApplyExpenses(members: seq<string>, b: Balances, es: seq<Expense>): (r: Balances)
    ensures r.Keys == b.Keys
  {
    if es == [] then b
    else ApplyExpense(members, ApplyExpenses(members, b, es[..|es| - 1]), es[|es| - 1])
  }

  /** The result of `calculateGroupStats(group)`: one key per member, and each
      member's balance is the sum of what every expense did to it. */
  function GroupBalances(g: Group): (r: Balances)
    ensures r.Keys == set m | m in g.members
  {
    ApplyExpenses(g.members, Zeros(g.members), g.expenses)
  }

  lemma {:induction false} CreditAt(b: Balances, ps: seq<Payment>, m: string)
    requires m in b
    ensures Credit(b, ps)[m] == b[m] + PaidIn(ps, m)
  {
    if ps != [] {
      CreditAt(b, ps[..|ps| - 1], m);
    }
  }

  lemma CreditPayerAt(b: Balances, e: Expense, m: string)
    requires m in b
    ensures CreditPayer(b, e)[m] == b[m] + PaidBy(e, m)
  {
    if e.paidBy.Split? {
      CreditAt(b, e.paidBy.payments, m);
    }
  }

  lemma {:induction false} DebitAt(b: Balances, ms: seq<string>, share: real, m: string)
    requires m in b
    ensures Debit(b, ms, share)[m] == b[m] - Times(Occurrences(ms, m), share)
  {
    if ms != [] {
      DebitAt(b, ms[..|ms| - 1], share, m);
    }
  }

  /** One expense moves the balance of each member by exactly its effect on
      that member. */
  lemma ApplyExpenseAt(members: seq<string>, b: Balances, e: Expense, m: string)
    requires m in b
    ensures ApplyExpense(members, b, e)[m] == b[m] + ExpenseEffect(members, e, m)
  {
    var inv := Involved(members, e);
    if |inv| != 0 {
      CreditPayerAt(b, e, m);
      DebitAt(CreditPayer(b, e), inv, Share(e.amount, |inv|), m);
    }
  }

  lemma {:induction false} ApplyExpensesAt(members: seq<string>, b: Balances, es: seq<Expense>, m: string)
    requires m in b
    ensures ApplyExpenses(members, b, es)[m] == b[m] + NetEffect(members, es, m)
  {
    if es != [] {
      ApplyExpensesAt(members, b, es[..|es| - 1], m);
      ApplyExpenseAt(members, ApplyExpenses(members, b, es[..|es| - 1]), es[|es| - 1], m);
    }
  }

  /** Each member's balance is the sum of what every expense did to it. */
  lemma BalanceOfMember(g: Group, m: string)
    requires m in g.members
    ensures m in GroupBalances(g)
    ensures GroupBalances(g)[m] == NetEffect(g.members, g.expenses, m)
  {
    ApplyExpensesAt(g.members, Zeros(g.members), g.expenses, m);
  }

  /** A member outside an expense's participants is only credited what they
      fronted; no share is debited. */
  lemma NonParticipantNotDebited(members: seq<string>, b: Balances, e: Expense, m: string)
    requires b.Keys == set x | x in members
    requires m in b && m !in Involved(members, e)
    ensures ApplyExpense(members, b, e)[m] == b[m] + PaidBy(e, m)
  {
    ApplyExpenseAt(members, b, e, m);
    assert m in members;
    assert Occurrences(Involved(members, e), m) == 0;
  }

  /** A bare-name payer acts exactly like a one-entry split for the whole amount. */
  lemma LegacyPayerEquivalent(members: seq<string>, b: Balances, e: Expense, n: string)
    requires e.paidBy == Single(n)
    ensures ApplyExpense(members, b, e)
         == ApplyExpense(members, b, e.(paidBy := Split([Payment(n, e.amount)])))
  {
    var e' := e.(paidBy := Split([Payment(n, e.amount)]));
    var r, r' := ApplyExpense(members, b, e), ApplyExpense(members, b, e');
    forall m | m in b ensures r[m] == r'[m] {
      ApplyExpenseAt(members, b, e, m);
      ApplyExpenseAt(members, b, e', m);
      LegacyPayerAsSplit(e, n, m);
    }
  }

  /** The order in which two expenses are processed does not matter. */
  lemma ExpenseOrderIrrelevant(members: seq<string>, b: Balances, e1: Expense, e2: Expense)
    ensures ApplyExpense(members, ApplyExpense(members, b, e1), e2)
         == ApplyExpense(members, ApplyExpense(members, b, e2), e1)
  {
    var b1, b2 := ApplyExpense(members, b, e1), ApplyExpense(members, b, e2);
    var r, r' := ApplyExpense(members, b1, e2), ApplyExpense(members, b2, e1);
    forall m | m in b ensures r[m] == r'[m] {
      ApplyExpenseAt(members, b, e1, m);
      ApplyExpenseAt(members, b, e2, m);
      ApplyExpenseAt(members, b1, e2, m);
      ApplyExpenseAt(members, b2, e1, m);
    }
  }

  // ---------------------------------------------------------------------------
  // Conservation of money
  // ---------------------------------------------------------------------------

  ghost function AnyMember(b: Balances): string
    requires b != map[]
  {
    var m :| m in b; m
  }

  /** The sum of all balances. */
  ghost function Sum(b: Balances): real
    decreases |b|
  {
    if b == map[] then 0.0
    else
      var m := AnyMember(b);
      assert (b - {m}).Keys == b.Keys - {m};
      b[m] + Sum(b - {m})
  }

  lemma {:induction false} SumWithout(b: Balances, m: string)
    requires m in b
    ensures Sum(b) == b[m] + Sum(b - {m})
    decreases |b|
  {
    var k := AnyMember(b);
    if k != m {
      assert (b - {k}).Keys == b.Keys - {k};
      assert (b - {m}).Keys == b.Keys - {m};
      SumWithout(b - {k}, m);
      SumWithout(b - {m}, k);
      assert b - {k} - {m} == b - {m} - {k};
    }
  }

  lemma SumAfterAdd(b: Balances, m: string, d: real)
    requires m in b
    ensures Sum(b[m := b[m] + d]) == Sum(b) + d
  {
    var b' := b[m := b[m] + d];
    SumWithout(b, m);
    SumWithout(b', m);
    assert b' - {m} == b - {m};
  }

  lemma {:induction false} SumOfZeros(b: Balances)
    requires forall m :: m in b ==> b[m] == 0.0
    ensures Sum(b) == 0.0
    decreases |b|
  {
    if b != map[] {
      var m := AnyMember(b);
      assert (b - {m}).Keys == b.Keys - {m};
      SumOfZeros(b - {m});
    }
  }

  lemma {:induction false} CreditSum(b: Balances, ps: seq<Payment>)
    requires forall k :: 0 <= k < |ps| ==> ps[k].member in b
    ensures Sum(Credit(b, ps)) == Sum(b) + PaymentsTotal(ps)
  {
    if ps != [] {
      var init := ps[..|ps| - 1];
      CreditSum(b, init);
      SumAfterAdd(Credit(b, init), ps[|ps| - 1].member, ps[|ps| - 1].amount);
    }
  }

  lemma {:induction false} DebitSum(b: Balances, ms: seq<string>, share: real)
    requires forall k :: 0 <= k < |ms| ==> ms[k] in b
    ensures Sum(Debit(b, ms, share)) == Sum(b) - Times(|ms|, share)
  {
    if ms != [] {
      var init := ms[..|ms| - 1];
      DebitSum(b, init, share);
      SumAfterAdd(Debit(b, init, share), ms[|ms| - 1], -share);
    }
  }

  lemma {:induction false} TimesShare(n: nat, amount: real)
    requires n > 0
    ensures Times(n, Share(amount, n)) == amount
  {
    var x := Share(amount, n);
    TimesIsProduct(n, x);
    assert n as real * (amount / n as real) == amount;
  }

  lemma {:induction false} TimesIsProduct(n: nat, x: real)
    ensures Times(n, x) == n as real * x
  {
    if n > 0 {
      TimesIsProduct(n - 1, x);
      assert n as real * x == (n - 1) as real * x + x;
    }
  }

  /** The expense records what the form and the store promise: every payer and
      participant is a member, and the shares of a split payer add up to the
      amount. */
  ghost predicate ConsistentExpense(members: seq<string>, e: Expense) {
    && (match e.paidBy
        case Single(n) => n in members
        case Split(ps) =>
          && (forall k :: 0 <= k < |ps| ==> ps[k].member in members)
          && PaymentsTotal(ps) == e.amount)
    && (forall m :: m in Involved(members, e) ==> m in members)
  }

  /** A consistent expense moves money between members and creates none. */
  lemma ApplyExpenseKeepsSum(members: seq<string>, b: Balances, e: Expense)
    requires b.Keys == set m | m in members
    requires ConsistentExpense(members, e)
    ensures Sum(ApplyExpense(members, b, e)) == Sum(b)
  {
    var inv := Involved(members, e);
    if |inv| != 0 {
      var credited := CreditPayer(b, e);
      match e.paidBy {
        case Split(ps) =>
          forall k | 0 <= k < |ps| ensures ps[k].member in b {
            assert ps[k].member in members;
          }
          CreditSum(b, ps);
        case Single(n) =>
          assert n in members;
          SumAfterAdd(b, n, e.amount);
      }
      assert Sum(credited) == Sum(b) + e.amount;
      forall k | 0 <= k < |inv| ensures inv[k] in credited {
        assert inv[k] in members;
      }
      DebitSum(credited, inv, Share(e.amount, |inv|));
      TimesShare(|inv|, e.amount);
    }
  }

  lemma {:induction false} ApplyExpensesKeepsSum(members: seq<string>, b: Balances, es: seq<Expense>)
    requires b.Keys == set m | m in members
    requires forall k :: 0 <= k < |es| ==> ConsistentExpense(members, es[k])
    ensures Sum(ApplyExpenses(members, b, es)) == Sum(b)
  {
    if es != [] {
      ApplyExpensesKeepsSum(members, b, es[..|es| - 1]);
      ApplyExpenseKeepsSum(members, ApplyExpenses(members, b, es[..|es| - 1]), es[|es| - 1]);
    }
  }

  /** Zero-sum: when every expense is consistent, the balances add up to 0. */
  lemma BalancesSumToZero(g: Group)
    requires forall k :: 0 <= k < |g.expenses| ==> ConsistentExpense(g.members, g.expenses[k])
    ensures Sum(GroupBalances(g)) == 0.0
  {
    SumOfZeros(Zeros(g.members));
    ApplyExpensesKeepsSum(g.members, Zeros(g.members), g.expenses);
  }

  /** `paidBy.forEach(...)`: adds each payment to its member's balance when the
      member has one. */
  method CreditPayments(b: Balances, payments: seq<Payment>) returns (balances: Balances)
    ensures balances == Credit(b, payments)
  {
    balances := b;
    for q := 0 to |payments|
      invariant balances == Credit(b, payments[..q])
    {
      assert payments[..q + 1][..q] == payments[..q];
      var payment := payments[q];
      if payment.member in balances {
        balances := balances[payment.member := balances[payment.member] + payment.amount];
      }
    }
    assert payments[..|payments|] == payments;
  }

  /** `involved.forEach(...)`: subtracts the share from each participant's
      balance when the participant has one. */
  method DebitParticipants(b: Balances, involved: seq<string>, splitAmount: real) returns (balances: Balances)
    ensures balances == Debit(b, involved, splitAmount)
  {
    balances := b;
    for q := 0 to |involved|
      invariant balances == Debit(b, involved[..q], splitAmount)
    {
      assert involved[..q + 1][..q] == involved[..q];
      var member := involved[q];
      if member in balances {
        balances := balances[member := balances[member] - splitAmount];
      }
    }
    assert involved[..|involved|] == involved;
  }

  /** `group.members.forEach(...)`: every member starts at 0. */
  method InitialBalances(members: seq<string>) returns (balances: Balances)
    ensures balances == Zeros(members)
  {
    balances := map[];
    for k := 0 to |members|
      invariant balances == Zeros(members[..k])
    {
      assert members[..k + 1] == members[..k] + [members[k]];
      balances := balances[members[k] := 0.0];
    }
    assert members[..|members|] == members;
  }

  /** One pass of `group.expenses.forEach(...)`: credit the payers, then debit
      the participants. */
  method ApplyOne(members: seq<string>, b: Balances, expense: Expense) returns (balances: Balances)
    ensures balances == ApplyExpense(members, b, expense)
  {
    balances := b;
    var amount := expense.amount;
    var involved := Involved(members, expense);
    if |involved| == 0 {
      return;
    }
    var splitAmount := Share(amount, |involved|);
    match expense.paidBy {
      case Split(payments) =>
        balances := CreditPayments(balances, payments);
      case Single(payer) =>
        if payer in balances {
          balances := balances[payer := balances[payer] + amount];
        }
    }
    balances := DebitParticipants(balances, involved, splitAmount);
  }

  method CalculateGroupStats(group: Group) returns (balances: Balances)
    ensures balances == GroupBalances(group)
  {
    balances := InitialBalances(group.members);
    ghost var start := balances;
    for k := 0 to |group.expenses|
      invariant balances == ApplyExpenses(group.members, start, group.expenses[..k])
    {
      assert group.expenses[..k + 1][..k] == group.expenses[..k];
      balances := ApplyOne(group.members, balances, group.expenses[k]);
    }
    assert group.expenses[..|group.expenses|] == group.expenses;
  }

  // ---------------------------------------------------------------------------
  // Settlement plan
  // ---------------------------------------------------------------------------

  /** One `[member, amount]` pair of `Object.entries(balances)`, and the shape of
      the `{member, amount}` records in the debtor and creditor lists. */
  datatype Entry = Entry(member: string, amount: real)

  /** A proposed transfer: `from` pays `amount` to `to`. */
  datatype Settlement = Settlement(from: string, to: string, amount: real)

  /** Balances closer to 0 than this count as settled. */
  const Tolerance: real := 0.01

  /** A whole number of cents. */
  predicate IsCents(x: real) {
    (x * 100.0).Floor as real == x * 100.0
  }

  /** `Math.round(x * 100) / 100`: the nearest whole number of cents, halves
      rounded up. */
  function RoundCents(x: real): (r: real)
    ensures IsCents(r)
    ensures x - 0.005 < r <= x + 0.005
  {
    ((x * 100.0 + 0.5).Floor as real) / 100.0
  }

  function RoundEntry(e: Entry): Entry {
    Entry(e.member, RoundCents(e.amount))
  }

  /** The entries with their amounts rounded to cents, in the same order. */
  function Rounded(es: seq<Entry>): (r: seq<Entry>)
    ensures |r| == |es|
    ensures forall k :: 0 <= k < |es| ==> r[k] == RoundEntry(es[k])
  {
    seq(|es|, k requires 0 <= k < |es| => RoundEntry(es[k]))
  }

  /** Which list a rounded balance joins: the debtors when below `-Tolerance`,
      the creditors when above `Tolerance`. */
  predicate Joins(v: real, owing: bool) {
    if owing then v < -Tolerance else v > Tolerance
  }

  /** The debtor list (`owing`) or the creditor list as the entries loop builds
      it, before sorting: rounded entries, in entry order. */
  function Side(es: seq<Entry>, owing: bool): seq<Entry> {
    if es == [] then []
    else
      var v := RoundEntry(es[|es| - 1]);
      Side(es[..|es| - 1], owing) + (if Joins(v.amount, owing) then [v] else [])
  }

  /** The side lists hold exactly the rounded entries that join them. */
  lemma {:induction false} SideMembers(es: seq<Entry>, owing: bool, x: Entry)
    ensures x in Side(es, owing) <==> x in Rounded(es) && Joins(x.amount, owing)
  {
    if es != [] {
      var init := es[..|es| - 1];
      SideMembers(init, owing, x);
      assert Rounded(es) == Rounded(init) + [RoundEntry(es[|es| - 1])];
    }
  }

  lemma SideAmounts(es: seq<Entry>, owing: bool)
    ensures forall x :: x in Side(es, owing) ==> Joins(x.amount, owing) && IsCents(x.amount)
  {
    forall x | x in Side(es, owing) ensures Joins(x.amount, owing) && IsCents(x.amount) {
      SideMembers(es, owing, x);
      var k :| 0 <= k < |Rounded(es)| && Rounded(es)[k] == x;
    }
  }

  /** A reordering of a side keeps the amounts that side admits. */
  lemma PermutedSide(es: seq<Entry>, owing: bool, r: seq<Entry>)
    requires multiset(r) == multiset(Side(es, owing))
    ensures forall k :: 0 <= k < |r| ==> Joins(r[k].amount, owing) && IsCents(r[k].amount)
  {
    SideAmounts(es, owing);
    forall k | 0 <= k < |r| ensures Joins(r[k].amount, owing) && IsCents(r[k].amount) {
      assert r[k] in multiset(Side(es, owing));
    }
  }

  function AmountOf(e: Entry): real { e.amount }

  function NegatedAmountOf(e: Entry): real { -e.amount }

  /** `debtors` after `debtors.sort((a, b) => a.amount - b.amount)`: every
      amount is a whole number of cents below `-Tolerance`, most negative first. */
  function Debtors(es: seq<Entry>): (r: seq<Entry>)
    ensures forall k :: 0 <= k < |r| ==> r[k].amount < -Tolerance && IsCents(r[k].amount)
    ensures Sorting.SortedBy(r, AmountOf)
    ensures multiset(r) == multiset(Side(es, true))
  {
    var r := Sorting.SortBy(Side(es, true), AmountOf);
    PermutedSide(es, true, r);
    r
  }

  /** `creditors` after `creditors.sort((a, b) => b.amount - a.amount)`: every
      amount is a whole number of cents above `Tolerance`, largest first. */
  function Creditors(es: seq<Entry>): (r: seq<Entry>)
    ensures forall k :: 0 <= k < |r| ==> r[k].amount > Tolerance && IsCents(r[k].amount)
    ensures Sorting.SortedBy(r, NegatedAmountOf)
    ensures multiset(r) == multiset(Side(es, false))
  {
    var r := Sorting.SortBy(Side(es, false), NegatedAmountOf);
    PermutedSide(es, false, r);
    r
  }

  function Abs(x: real): real { if x < 0.0 then -x else x }

  function Min(x: real, y: real): real { if x <= y then x else y }

  /** The state the matching loop keeps: the cursors are in range, every debtor
      not yet passed still owes and every creditor not yet passed is still owed. */
  ghost predicate Pending(debtors: seq<Entry>, creditors: seq<Entry>, i: nat, j: nat) {
    && i <= |debtors| && j <= |creditors|
    && (forall k :: i <= k < |debtors| ==> debtors[k].amount < 0.0)
    && (forall k :: j <= k < |creditors| ==> creditors[k].amount > 0.0)
  }

  /** The members of a list of entries, in order. */
  function Names(es: seq<Entry>): (r: seq<string>)
    ensures |r| == |es| && forall k :: 0 <= k < |es| ==> r[k] == es[k].member
  {
    seq(|es|, k requires 0 <= k < |es| => es[k].member)
  }

  /** The transfers the matching loop still emits from cursors `i` and `j`: the
      current debtor pays the current creditor `min(|debt|, credit)`, both are
      reduced by that much, and a cursor moves on once its balance is below
      `Tolerance` in absolute value. */
  function Greedy(debtors: seq<Entry>, creditors: seq<Entry>, i: nat, j: nat): seq<Settlement>
    requires Pending(debtors, creditors, i, j)
    decreases (|debtors| - i) + (|creditors| - j)
  {
    if i == |debtors| || j == |creditors| then []
    else
      var debtor, creditor := debtors[i], creditors[j];
      var amount := Min(Abs(debtor.amount), creditor.amount);
      var debtors' := debtors[i := debtor.(amount := debtor.amount + amount)];
      var creditors' := creditors[j := creditor.(amount := creditor.amount - amount)];
      var i' := if Abs(debtors'[i].amount) < Tolerance then i + 1 else i;
      var j' := if creditors'[j].amount < Tolerance then j + 1 else j;
      [Settlement(debtor.member, creditor.member, amount)] + Greedy(debtors', creditors', i', j')
  }

  /** Every transfer is positive, is paid by one of `payers` and received by
      one of `payees`. */
  ghost predicate Transfers(plan: seq<Settlement>, payers: seq<string>, payees: seq<string>) {
    forall n :: 0 <= n < |plan| ==>
      plan[n].amount > 0.0 && plan[n].from in payers && plan[n].to in payees
  }

  lemma SuffixMembers(s: seq<string>, i: nat, i': nat, x: string)
    requires i <= i' <= |s| && x in s[i'..]
    ensures x in s[i..]
  {
    var a :| 0 <= a < |s[i'..]| && s[i'..][a] == x;
    assert s[i..][a + (i' - i)] == x;
  }

  /** Every transfer the loop emits is positive and goes from a debtor at or
      after `i` to a creditor at or after `j`. */
  lemma {:induction false} GreedyTransfers(debtors: seq<Entry>, creditors: seq<Entry>, i: nat, j: nat)
    requires Pending(debtors, creditors, i, j)
    ensures Transfers(Greedy(debtors, creditors, i, j), Names(debtors)[i..], Names(creditors)[j..])
    decreases (|debtors| - i) + (|creditors| - j)
  {
    if i < |debtors| && j < |creditors| {
      var amount := Min(Abs(debtors[i].amount), creditors[j].amount);
      var debtors' := debtors[i := debtors[i].(amount := debtors[i].amount + amount)];
      var creditors' := creditors[j := creditors[j].(amount := creditors[j].amount - amount)];
      var i' := if Abs(debtors'[i].amount) < Tolerance then i + 1 else i;
      var j' := if creditors'[j].amount < Tolerance then j + 1 else j;
      GreedyStep(debtors, creditors, i, j, debtors', creditors', i', j');
      GreedyTransfers(debtors', creditors', i', j');
      NamesKept(debtors, i, debtors[i].amount + amount);
      NamesKept(creditors, j, creditors[j].amount - amount);
      var payers, payees := Names(debtors), Names(creditors);
      var rest := Greedy(debtors', creditors', i', j');
      var plan := [Settlement(debtors[i].member, creditors[j].member, amount)] + rest;
      forall n | 0 <= n < |plan|
        ensures plan[n].amount > 0.0 && plan[n].from in payers[i..] && plan[n].to in payees[j..]
      {
        if n == 0 {
          assert payers[i..][0] == debtors[i].member && payees[j..][0] == creditors[j].member;
        } else {
          assert plan[n] == rest[n - 1];
          SuffixMembers(payers, i, i', plan[n].from);
          SuffixMembers(payees, j, j', plan[n].to);
        }
      }
    }
  }

  /** Changing an amount keeps the names. */
  lemma NamesKept(es: seq<Entry>, i: nat, v: real)
    requires i < |es|
    ensures Names(es[i := es[i].(amount := v)]) == Names(es)
  {
  }

  /** There are fewer transfers than remaining debtors and creditors together:
      each round settles at least one of the two, and the last round settles
      both or exhausts a list. */
  lemma {:induction false} GreedyCount(debtors: seq<Entry>, creditors: seq<Entry>, i: nat, j: nat)
    requires Pending(debtors, creditors, i, j)
    ensures var plan := Greedy(debtors, creditors, i, j);
            |plan| == 0 || |plan| < (|debtors| - i) + (|creditors| - j)
    decreases (|debtors| - i) + (|creditors| - j)
  {
    if i < |debtors| && j < |creditors| {
      var debtor, creditor := debtors[i], creditors[j];
      var amount := Min(Abs(debtor.amount), creditor.amount);
      var debtors' := debtors[i := debtor.(amount := debtor.amount + amount)];
      var creditors' := creditors[j := creditor.(amount := creditor.amount - amount)];
      var i' := if Abs(debtors'[i].amount) < Tolerance then i + 1 else i;
      var j' := if creditors'[j].amount < Tolerance then j + 1 else j;
      assert i' > i || j' > j;
      GreedyCount(debtors', creditors', i', j');
    }
  }

  /** The result of `calculateSettlements` on the entries of `balances`. */
  function SettlementPlan(es: seq<Entry>): seq<Settlement> {
    Greedy(Debtors(es), Creditors(es), 0, 0)
  }

  /** Every proposed transfer is positive and goes from a debtor to a creditor,
      and there are at most `|debtors| + |creditors| - 1` of them. */
  lemma SettlementsShape(es: seq<Entry>)
    ensures Transfers(SettlementPlan(es), Names(Debtors(es)), Names(Creditors(es)))
    ensures |SettlementPlan(es)| == 0 || |SettlementPlan(es)| < |Debtors(es)| + |Creditors(es)|
  {
    var debtors, creditors := Debtors(es), Creditors(es);
    assert SettlementPlan(es) == Greedy(debtors, creditors, 0, 0);
    GreedyTransfers(debtors, creditors, 0, 0);
    GreedyCount(debtors, creditors, 0, 0);
    assert Names(debtors)[0..] == Names(debtors) && Names(creditors)[0..] == Names(creditors);
  }

  /** One round of the matching loop: it emits the first transfer of `Greedy`
      and leaves the loop in the state the rest of `Greedy` starts from. */
  lemma GreedyStep(debtors: seq<Entry>, creditors: seq<Entry>, i: nat, j: nat,
                   debtors': seq<Entry>, creditors': seq<Entry>, i': nat, j': nat)
    requires Pending(debtors, creditors, i, j) && i < |debtors| && j < |creditors|
    requires debtors' == debtors[i := debtors[i].(amount := debtors[i].amount + Min(Abs(debtors[i].amount), creditors[j].amount))]
    requires creditors' == creditors[j := creditors[j].(amount := creditors[j].amount - Min(Abs(debtors[i].amount), creditors[j].amount))]
    requires i' == if Abs(debtors'[i].amount) < Tolerance then i + 1 else i
    requires j' == if creditors'[j].amount < Tolerance then j + 1 else j
    ensures Pending(debtors', creditors', i', j')
    ensures Greedy(debtors, creditors, i, j)
         == [Settlement(debtors[i].member, creditors[j].member, Min(Abs(debtors[i].amount), creditors[j].amount))]
            + Greedy(debtors', creditors', i', j')
  {
  }

  /** The `Object.entries(balances).forEach` loop of `calculateSettlements`:
      rounds each balance and files it as a debtor or a creditor. */
  method Partition(balances: seq<Entry>) returns (debtors: seq<Entry>, creditors: seq<Entry>)
    ensures debtors == Side(balances, true)
    ensures creditors == Side(balances, false)
  {
    debtors, creditors := [], [];
    for k := 0 to |balances|
      invariant debtors == Side(balances[..k], true)
      invariant creditors == Side(balances[..k], false)
    {
      assert balances[..k + 1][..k] == balances[..k];
      var member, amount := balances[k].member, balances[k].amount;
      var val := RoundCents(amount);
      if val < -Tolerance { debtors := debtors + [Entry(member, val)]; }
      if val > Tolerance { creditors := creditors + [Entry(member, val)]; }
    }
    assert balances[..|balances|] == balances;
  }

  /** The `while` loop of `calculateSettlements` over the sorted lists. */
  method Match(owing: seq<Entry>, owed: seq<Entry>) returns (settlements: seq<Settlement>)
    requires Pending(owing, owed, 0, 0)
    ensures settlements == Greedy(owing, owed, 0, 0)
  {
    settlements := [];
    var debtors, creditors, i, j := owing, owed, 0, 0;
    while i < |debtors| && j < |creditors|
      invariant Pending(debtors, creditors, i, j)
      invariant settlements + Greedy(debtors, creditors, i, j) == Greedy(owing, owed, 0, 0)
      decreases (|debtors| - i) + (|creditors| - j)
    {
      ghost var done, before := settlements, Greedy(debtors, creditors, i, j);
      ghost var debtors0, creditors0, i0, j0 := debtors, creditors, i, j;
      var debtor, creditor := debtors[i], creditors[j];
      var amount := Min(Abs(debtor.amount), creditor.amount);
      var settlement := Settlement(debtor.member, creditor.member, amount);
      settlements := settlements + [settlement];
      debtors := debtors[i := debtor.(amount := debtor.amount + amount)];
      creditors := creditors[j := creditor.(amount := creditor.amount - amount)];
      if Abs(debtors[i].amount) < Tolerance { i := i + 1; }
      if creditors[j].amount < Tolerance { j := j + 1; }
      GreedyStep(debtors0, creditors0, i0, j0, debtors, creditors, i, j);
      AppendShift(done, settlement, Greedy(debtors, creditors, i, j));
    }
  }

  lemma AppendShift<T>(done: seq<T>, x: T, rest: seq<T>)
    ensures (done + [x]) + rest == done + ([x] + rest)
  {
  }

  /** `calculateSettlements(balances)`, given `Object.entries(balances)`. */
  method CalculateSettlements(balances: seq<Entry>) returns (settlements: seq<Settlement>)
    ensures settlements == SettlementPlan(balances)
  {
    var debtors, creditors := Partition(balances);
    debtors := Sorting.SortBy(debtors, AmountOf);
    creditors := Sorting.SortBy(creditors, NegatedAmountOf);
    assert debtors == Debtors(balances) && creditors == Creditors(balances);
    settlements := Match(debtors, creditors);
  }

  // ---------------------------------------------------------------------------
  // What the settlement plan means
  // ---------------------------------------------------------------------------

  /** The debtor list holds exactly the rounded entries below `-Tolerance`, and
      the creditor list exactly those above `Tolerance` (each as often as it
      occurs among the rounded entries). */
  lemma DebtorsAndCreditorsExactly(es: seq<Entry>, x: Entry)
    ensures x in Debtors(es) <==> x in Rounded(es) && x.amount < -Tolerance
    ensures x in Creditors(es) <==> x in Rounded(es) && x.amount > Tolerance
  {
    SideMembers(es, true, x);
    SideMembers(es, false, x);
    assert x in Debtors(es) <==> x in multiset(Side(es, true));
    assert x in Creditors(es) <==> x in multiset(Side(es, false));
  }

  /** Balances that all round to within a cent of zero need no transfer. */
  lemma NothingToSettle(es: seq<Entry>)
    requires forall k :: 0 <= k < |es| ==> -0.015 <= es[k].amount < 0.015
    ensures SettlementPlan(es) == []
  {
    SmallBalancesOweNothing(es);
    assert |Debtors(es)| == |multiset(Debtors(es))| == 0;
  }

  lemma {:induction false} SmallBalancesOweNothing(es: seq<Entry>)
    requires forall k :: 0 <= k < |es| ==> -0.015 <= es[k].amount
    ensures Side(es, true) == []
  {
    if es != [] {
      SmallBalancesOweNothing(es[..|es| - 1]);
      var n := (es[|es| - 1].amount * 100.0 + 0.5).Floor;
      assert n >= -1;
    }
  }

  /** What `m` pays over a list of transfers. */
  function Sent(plan: seq<Settlement>, m: string): real {
    if plan == [] then 0.0
    else (if plan[0].from == m then plan[0].amount else 0.0) + Sent(plan[1..], m)
  }

  /** What `m` receives over a list of transfers. */
  function Received(plan: seq<Settlement>, m: string): real {
    if plan == [] then 0.0
    else (if plan[0].to == m then plan[0].amount else 0.0) + Received(plan[1..], m)
  }

  /** The amounts of `m`'s entries, added up. */
  function AmountFor(es: seq<Entry>, m: string): real {
    if es == [] then 0.0
    else (if es[0].member == m then es[0].amount else 0.0) + AmountFor(es[1..], m)
  }

  /** The amounts of all entries, added up. */
  function Total(es: seq<Entry>): real {
    if es == [] then 0.0 else es[0].amount + Total(es[1..])
  }

  lemma SumsAt(es: seq<Entry>, i: nat, m: string)
    requires i < |es|
    ensures Total(es[i..]) == es[i].amount + Total(es[i + 1..])
    ensures AmountFor(es[i..], m) == (if es[i].member == m then es[i].amount else 0.0) + AmountFor(es[i + 1..], m)
  {
    assert es[i..][1..] == es[i + 1..];
  }

  lemma TransferTotals(s: Settlement, rest: seq<Settlement>, m: string)
    ensures Sent([s] + rest, m) == (if s.from == m then s.amount else 0.0) + Sent(rest, m)
    ensures Received([s] + rest, m) == (if s.to == m then s.amount else 0.0) + Received(rest, m)
  {
    assert ([s] + rest)[1..] == rest;
  }

  /** Debts add up to at most zero and credits to at least zero; a non-empty
      list of debts (credits) adds up to a negative (positive) total. */
  lemma {:induction false} SignedSums(es: seq<Entry>, i: nat, m: string, owing: bool)
    requires i <= |es|
    requires forall k :: i <= k < |es| ==> if owing then es[k].amount < 0.0 else es[k].amount > 0.0
    ensures owing ==> AmountFor(es[i..], m) <= 0.0 && (i < |es| ==> Total(es[i..]) < 0.0)
    ensures !owing ==> AmountFor(es[i..], m) >= 0.0 && (i < |es| ==> Total(es[i..]) > 0.0)
    decreases |es| - i
  {
    if i < |es| {
      SumsAt(es, i, m);
      SignedSums(es, i + 1, m, owing);
    }
  }

  lemma CentsArithmetic(a: real, b: real)
    requires IsCents(a) && IsCents(b)
    ensures IsCents(a + b) && IsCents(a - b)
  {
    var x, y := (a * 100.0).Floor, (b * 100.0).Floor;
    assert a * 100.0 == x as real && b * 100.0 == y as real;
    assert (a + b) * 100.0 == (x + y) as real;
    assert (a - b) * 100.0 == (x - y) as real;
    FloorOfWhole(x + y);
    FloorOfWhole(x - y);
  }

  lemma FloorOfWhole(n: int)
    ensures (n as real).Floor == n
  {
  }

  lemma CentsNearZero(x: real)
    requires IsCents(x) && -Tolerance < x < Tolerance
    ensures x == 0.0
  {
    var n := (x * 100.0).Floor;
    assert -1 < n < 1;
  }

  /** Nobody pays more than they owe and nobody receives more than they are
      owed, whatever the balances. */
  lemma {:induction false} GreedyWithinBalances(debtors: seq<Entry>, creditors: seq<Entry>, i: nat, j: nat, m: string)
    requires Pending(debtors, creditors, i, j)
    ensures Sent(Greedy(debtors, creditors, i, j), m) <= -AmountFor(debtors[i..], m)
    ensures Received(Greedy(debtors, creditors, i, j), m) <= AmountFor(creditors[j..], m)
    decreases (|debtors| - i) + (|creditors| - j)
  {
    if i == |debtors| || j == |creditors| {
      SignedSums(debtors, i, m, true);
      SignedSums(creditors, j, m, false);
    } else {
      var debtor, creditor := debtors[i], creditors[j];
      var amount := Min(Abs(debtor.amount), creditor.amount);
      var debtors' := debtors[i := debtor.(amount := debtor.amount + amount)];
      var creditors' := creditors[j := creditor.(amount := creditor.amount - amount)];
      var i' := if Abs(debtors'[i].amount) < Tolerance then i + 1 else i;
      var j' := if creditors'[j].amount < Tolerance then j + 1 else j;
      var rest := Greedy(debtors', creditors', i', j');
      assert Greedy(debtors, creditors, i, j) == [Settlement(debtor.member, creditor.member, amount)] + rest;
      TransferTotals(Settlement(debtor.member, creditor.member, amount), rest, m);
      GreedyWithinBalances(debtors', creditors', i', j', m);
      SumsAt(debtors, i, m);
      SumsAt(debtors', i, m);
      SumsAt(creditors, j, m);
      SumsAt(creditors', j, m);
      assert debtors'[i + 1..] == debtors[i + 1..];
      assert creditors'[j + 1..] == creditors[j + 1..];
    }
  }

  /** The loop state when the remaining debts and credits are whole cents and
      cancel out. */
  ghost predicate Balanced(debtors: seq<Entry>, creditors: seq<Entry>, i: nat, j: nat) {
    && Pending(debtors, creditors, i, j)
    && (forall k :: i <= k < |debtors| ==> IsCents(debtors[k].amount))
    && (forall k :: j <= k < |creditors| ==> IsCents(creditors[k].amount))
    && Total(debtors[i..]) + Total(creditors[j..]) == 0.0
  }

  /** When the remaining debts and credits cancel out, every debtor pays exactly
      what they owe and every creditor receives exactly what they are owed. */
  lemma {:induction false} GreedySettlesExactly(debtors: seq<Entry>, creditors: seq<Entry>, i: nat, j: nat, m: string)
    requires Balanced(debtors, creditors, i, j)
    ensures Sent(Greedy(debtors, creditors, i, j), m) == -AmountFor(debtors[i..], m)
    ensures Received(Greedy(debtors, creditors, i, j), m) == AmountFor(creditors[j..], m)
    decreases (|debtors| - i) + (|creditors| - j)
  {
    if i == |debtors| || j == |creditors| {
      SignedSums(debtors, i, m, true);
      SignedSums(creditors, j, m, false);
      assert debtors[i..] == [] ==> Total(debtors[i..]) == 0.0;
      assert creditors[j..] == [] ==> Total(creditors[j..]) == 0.0;
    } else {
      var debtor, creditor := debtors[i], creditors[j];
      var amount := Min(Abs(debtor.amount), creditor.amount);
      var debtors' := debtors[i := debtor.(amount := debtor.amount + amount)];
      var creditors' := creditors[j := creditor.(amount := creditor.amount - amount)];
      var i' := if Abs(debtors'[i].amount) < Tolerance then i + 1 else i;
      var j' := if creditors'[j].amount < Tolerance then j + 1 else j;
      BalancedStep(debtors, creditors, i, j, debtors', creditors', i', j');
      var rest := Greedy(debtors', creditors', i', j');
      assert Greedy(debtors, creditors, i, j) == [Settlement(debtor.member, creditor.member, amount)] + rest;
      TransferTotals(Settlement(debtor.member, creditor.member, amount), rest, m);
      GreedySettlesExactly(debtors', creditors', i', j', m);
      AmountForUpdate(debtors, i, debtor.amount + amount, m);
      AmountForUpdate(creditors, j, creditor.amount - amount, m);
    }
  }

  /** A round keeps the balances in whole cents, moves a cursor only past an
      entry that is exactly zero, and keeps debts and credits cancelling out. */
  lemma BalancedStep(debtors: seq<Entry>, creditors: seq<Entry>, i: nat, j: nat,
                     debtors': seq<Entry>, creditors': seq<Entry>, i': nat, j': nat)
    requires Balanced(debtors, creditors, i, j) && i < |debtors| && j < |creditors|
    requires debtors' == debtors[i := debtors[i].(amount := debtors[i].amount + Min(Abs(debtors[i].amount), creditors[j].amount))]
    requires creditors' == creditors[j := creditors[j].(amount := creditors[j].amount - Min(Abs(debtors[i].amount), creditors[j].amount))]
    requires i' == if Abs(debtors'[i].amount) < Tolerance then i + 1 else i
    requires j' == if creditors'[j].amount < Tolerance then j + 1 else j
    ensures Balanced(debtors', creditors', i', j')
    ensures i' > i ==> debtors'[i].amount == 0.0
    ensures j' > j ==> creditors'[j].amount == 0.0
  {
    var d, c := debtors[i].amount, creditors[j].amount;
    var amount := Min(Abs(d), c);
    assert IsCents(-d) by { CentsArithmetic(0.0, d); }
    assert IsCents(amount);
    CentsArithmetic(d, amount);
    CentsArithmetic(c, amount);
    if i' > i { CentsNearZero(debtors'[i].amount); }
    if j' > j { CentsNearZero(creditors'[j].amount); }
    TotalUpdate(debtors, i, d + amount);
    TotalUpdate(creditors, j, c - amount);
  }

  /** Changing one amount changes what the suffix from it holds for its member
      by the difference, and the suffix after it not at all. */
  lemma AmountForUpdate(es: seq<Entry>, i: nat, v: real, m: string)
    requires i < |es|
    ensures var es' := es[i := es[i].(amount := v)];
            && AmountFor(es'[i..], m) == AmountFor(es[i..], m) + (if es[i].member == m then v - es[i].amount else 0.0)
            && AmountFor(es'[i + 1..], m) == AmountFor(es'[i..], m) - (if es[i].member == m then v else 0.0)
  {
    var es' := es[i := es[i].(amount := v)];
    SumsAt(es, i, m);
    SumsAt(es', i, m);
    assert es'[i + 1..] == es[i + 1..];
  }

  /** Changing one amount changes the total of the suffix from it by the
      difference, and not the total after it. */
  lemma TotalUpdate(es: seq<Entry>, i: nat, v: real)
    requires i < |es|
    ensures var es' := es[i := es[i].(amount := v)];
            && Total(es'[i..]) == Total(es[i..]) - es[i].amount + v
            && Total(es'[i + 1..]) == Total(es[i + 1..])
  {
    var es' := es[i := es[i].(amount := v)];
    SumsAt(es, i, "");
    SumsAt(es', i, "");
    assert es'[i + 1..] == es[i + 1..];
  }

  lemma {:induction false} AmountForConcat(a: seq<Entry>, b: seq<Entry>, m: string)
    ensures AmountFor(a + b, m) == AmountFor(a, m) + AmountFor(b, m)
  {
    if a == [] {
      assert a + b == b;
    } else {
      assert (a + b)[1..] == a[1..] + b;
      AmountForConcat(a[1..], b, m);
    }
  }

  /** Reordering the entries (as the sorts do) changes no member's amount. */
  lemma {:induction false} AmountForPermutation(a: seq<Entry>, b: seq<Entry>, m: string)
    requires multiset(a) == multiset(b)
    ensures AmountFor(a, m) == AmountFor(b, m)
    decreases |a|
  {
    if a == [] {
      assert |b| == |multiset(b)| == 0;
    } else {
      var k := Sorting.PermutationSplit(a, b);
      var rest := b[k + 1..];
      AmountForPermutation(a[1..], b[..k] + rest, m);
      AmountForConcat(b[..k], [a[0]] + rest, m);
      AmountForConcat(b[..k], rest, m);
      assert b == b[..k] + ([a[0]] + rest);
      assert ([a[0]] + rest)[1..] == rest;
    }
  }

  /** No two entries for the same member, as in the entries of an object. */
  ghost predicate DistinctMembers(es: seq<Entry>) {
    forall p, q :: 0 <= p < q < |es| ==> es[p].member != es[q].member
  }

  lemma {:induction false} AmountForAbsent(es: seq<Entry>, m: string)
    requires forall x :: x in es ==> x.member != m
    ensures AmountFor(es, m) == 0.0
  {
    if es != [] {
      assert forall x :: x in es[1..] ==> x in es;
      AmountForAbsent(es[1..], m);
    }
  }

  /** With one entry per member, a member's amount in a side list is its
      rounded balance when that joins the list, and zero otherwise. */
  lemma {:induction false} SideAmountFor(es: seq<Entry>, owing: bool, k: nat)
    requires DistinctMembers(es) && k < |es|
    ensures var v := RoundCents(es[k].amount);
            AmountFor(Side(es, owing), es[k].member) == if Joins(v, owing) then v else 0.0
  {
    var init, last := es[..|es| - 1], RoundEntry(es[|es| - 1]);
    var m := es[k].member;
    var tail := if Joins(last.amount, owing) then [last] else [];
    AmountForConcat(Side(init, owing), tail, m);
    assert tail != [] ==> tail[1..] == [];
    if k == |es| - 1 {
      forall x | x in Side(init, owing) ensures x.member != m {
        SideMembers(init, owing, x);
        var p :| 0 <= p < |Rounded(init)| && Rounded(init)[p] == x;
        assert init[p] == es[p];
      }
      AmountForAbsent(Side(init, owing), m);
    } else {
      assert es[|es| - 1].member != m;
      assert init[k] == es[k];
      SideAmountFor(init, owing, k);
    }
  }

  /** A member's total in the sorted debtor (creditor) list: its rounded
      balance if below `-Tolerance` (above `Tolerance`), else zero. */
  lemma MemberAmounts(es: seq<Entry>, k: nat)
    requires DistinctMembers(es) && k < |es|
    ensures var v := RoundCents(es[k].amount);
            && AmountFor(Debtors(es), es[k].member) == (if v < -Tolerance then v else 0.0)
            && AmountFor(Creditors(es), es[k].member) == (if v > Tolerance then v else 0.0)
  {
    SideAmountFor(es, true, k);
    SideAmountFor(es, false, k);
    AmountForPermutation(Debtors(es), Side(es, true), es[k].member);
    AmountForPermutation(Creditors(es), Side(es, false), es[k].member);
  }

  /** Whatever the balances, no member pays more than their rounded debt nor
      receives more than their rounded credit, and members whose rounded
      balance is within the tolerance neither pay nor receive. */
  lemma PlanWithinBalances(es: seq<Entry>, k: nat)
    requires DistinctMembers(es) && k < |es|
    ensures var v, m, plan := RoundCents(es[k].amount), es[k].member, SettlementPlan(es);
            && 0.0 <= Sent(plan, m) <= (if v < -Tolerance then -v else 0.0)
            && 0.0 <= Received(plan, m) <= (if v > Tolerance then v else 0.0)
  {
    var m := es[k].member;
    GreedyWithinBalances(Debtors(es), Creditors(es), 0, 0, m);
    assert Debtors(es)[0..] == Debtors(es) && Creditors(es)[0..] == Creditors(es);
    MemberAmounts(es, k);
    SettlementsShape(es);
    SentNonNegative(SettlementPlan(es), m);
  }

  lemma {:induction false} SentNonNegative(plan: seq<Settlement>, m: string)
    requires forall n :: 0 <= n < |plan| ==> plan[n].amount > 0.0
    ensures Sent(plan, m) >= 0.0 && Received(plan, m) >= 0.0
  {
    if plan != [] {
      SentNonNegative(plan[1..], m);
    }
  }

  /** When the rounded debts and credits cancel out, carrying out the plan
      brings every member whose rounded balance is beyond the tolerance to
      exactly zero and leaves everyone else's rounded balance as it was. */
  lemma PlanSettlesEveryone(es: seq<Entry>, k: nat)
    requires DistinctMembers(es) && k < |es|
    requires Total(Debtors(es)) + Total(Creditors(es)) == 0.0
    ensures var v, m, plan := RoundCents(es[k].amount), es[k].member, SettlementPlan(es);
            v + Sent(plan, m) - Received(plan, m) == if -Tolerance <= v <= Tolerance then v else 0.0
  {
    var m := es[k].member;
    assert Debtors(es)[0..] == Debtors(es) && Creditors(es)[0..] == Creditors(es);
    GreedySettlesExactly(Debtors(es), Creditors(es), 0, 0, m);
    MemberAmounts(es, k);
  }

  // ---------------------------------------------------------------------------
  // From the balance object to its entries
  // ---------------------------------------------------------------------------

  /** The keys of the balance object in insertion order: each member once, at
      its first occurrence in `members`. */
  function Unique(members: seq<string>): (r: seq<string>)
    ensures forall x :: x in r <==> x in members
    ensures Distinct(r)
  {
    if members == [] then []
    else
      var init, last := members[..|members| - 1], members[|members| - 1];
      assert forall x :: x in members <==> x in init || x == last;
      if last in init then Unique(init) else Unique(init) + [last]
  }

  /** The position of the first occurrence of `x` in `s`. */
  function FirstIndex(s: seq<string>, x: string): (k: nat)
    requires x in s
    ensures k < |s| && s[k] == x
    ensures forall p :: 0 <= p < k ==> s[p] != x
  {
    if s[0] == x then 0 else 1 + FirstIndex(s[1..], x)
  }

  /** Appending to a list does not move the first occurrence of a name it
      already holds. */
  lemma FirstIndexPrefix(s: seq<string>, y: string, x: string)
    requires x in s
    ensures FirstIndex(s + [y], x) == FirstIndex(s, x)
  {
    var t := s + [y];
    var i, j := FirstIndex(t, x), FirstIndex(s, x);
    assert t[j] == x;
    assert i <= j;
    assert s[i] == t[i];
  }

  /** Appending to `s` keeps the first-occurrence order of names it holds. */
  lemma OrderAfterAppend(s: seq<string>, y: string, u: seq<string>)
    requires forall x :: x in u ==> x in s
    requires forall p, q :: 0 <= p < q < |u| ==> FirstIndex(s, u[p]) < FirstIndex(s, u[q])
    ensures forall p, q :: 0 <= p < q < |u| ==> FirstIndex(s + [y], u[p]) < FirstIndex(s + [y], u[q])
  {
    forall p, q | 0 <= p < q < |u| ensures FirstIndex(s + [y], u[p]) < FirstIndex(s + [y], u[q]) {
      FirstIndexPrefix(s, y, u[p]);
      FirstIndexPrefix(s, y, u[q]);
    }
  }

  /** A name new to `s` first occurs after every name `s` holds. */
  lemma OrderWithNew(s: seq<string>, y: string, u: seq<string>)
    requires y !in s && forall x :: x in u ==> x in s
    requires forall p, q :: 0 <= p < q < |u| ==> FirstIndex(s + [y], u[p]) < FirstIndex(s + [y], u[q])
    ensures forall p, q :: 0 <= p < q < |u| + 1 ==>
              FirstIndex(s + [y], (u + [y])[p]) < FirstIndex(s + [y], (u + [y])[q])
  {
    var t, r := s + [y], u + [y];
    assert FirstIndex(t, y) == |s|;
    forall p, q | 0 <= p < q < |r| ensures FirstIndex(t, r[p]) < FirstIndex(t, r[q]) {
      assert r[p] == u[p] && u[p] in u;
      FirstIndexPrefix(s, y, u[p]);
      if q < |u| {
        assert r[q] == u[q];
      }
    }
  }

  /** The keys come in the order in which the members first occur, which is
      the order `Object.entries` lists them. */
  lemma {:induction false} UniqueInFirstOrder(members: seq<string>)
    ensures forall p, q :: 0 <= p < q < |Unique(members)| ==>
              FirstIndex(members, Unique(members)[p]) < FirstIndex(members, Unique(members)[q])
    decreases |members|
  {
    if members != [] {
      var init, last := members[..|members| - 1], members[|members| - 1];
      assert members == init + [last];
      UniqueInFirstOrder(init);
      OrderAfterAppend(init, last, Unique(init));
      if last !in init {
        OrderWithNew(init, last, Unique(init));
      }
    }
  }

  /** `Object.entries(balances)` for a balance object built over `members`. */
  function BalanceEntries(members: seq<string>, b: Balances): (r: seq<Entry>)
    requires forall m :: m in members ==> m in b
    ensures DistinctMembers(r)
    ensures Names(r) == Unique(members)
    ensures forall k :: 0 <= k < |r| ==> r[k].amount == b[r[k].member]
  {
    var keys := Unique(members);
    seq(|keys|, k requires 0 <= k < |keys| => Entry(keys[k], b[keys[k]]))
  }

  /** The settlements a group page shows: `calculateSettlements` applied to the
      result of `calculateGroupStats`. */
  function GroupSettlements(g: Group): seq<Settlement> {
    SettlementPlan(BalanceEntries(g.members, GroupBalances(g)))
  }

  /** For a group, each member pays at most their rounded debt and receives at
      most their rounded credit; members settled to within a cent take no part. */
  lemma GroupSettlementsWithinBalances(g: Group, m: string)
    requires m in g.members
    ensures var v, plan := RoundCents(GroupBalances(g)[m]), GroupSettlements(g);
            && 0.0 <= Sent(plan, m) <= (if v < -Tolerance then -v else 0.0)
            && 0.0 <= Received(plan, m) <= (if v > Tolerance then v else 0.0)
  {
    var es := BalanceEntries(g.members, GroupBalances(g));
    assert m in Unique(g.members);
    var k :| 0 <= k < |Unique(g.members)| && Unique(g.members)[k] == m;
    assert es[k].member == m;
    PlanWithinBalances(es, k);
  }
}
