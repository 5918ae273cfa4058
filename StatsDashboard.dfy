/** The figures of a group's statistics page: the total and the average spent,
    the spending per category and the spending per payer, both largest first.
    Debt settlements recorded as expenses are left out of every figure. */
module StatsDashboard {
  import opened Wrappers
  import opened Ledger
  import Text
  import Sorting
  import BalanceService

  /** Expenses with this description record a settlement, not spending. */
  const SettlementMarker: string := "Saldo Debiti"

  /** `group.expenses.filter(e => e.description !== "Saldo Debiti")`. */
  function ValidExpenses(es: seq<Expense>): (r: seq<Expense>)
    ensures |r| <= |es|
    ensures forall k :: 0 <= k < |r| ==> r[k].description != SettlementMarker
  {
    if es == [] then []
    else (if es[0].description != SettlementMarker then [es[0]] else []) + ValidExpenses(es[1..])
  }

  /** The filter keeps every other expense. */
  lemma {:induction false} ValidExpensesExactly(es: seq<Expense>, e: Expense)
    ensures e in ValidExpenses(es) <==> e in es && e.description != SettlementMarker
  {
    if es != [] {
      ValidExpensesExactly(es[1..], e);
      assert es == [es[0]] + es[1..];
    }
  }

  /** Filtering two lists joined is filtering each: the kept expenses stay in
      their order, each as often as it was listed, so the count is exact. */
  lemma {:induction false} ValidExpensesConcat(a: seq<Expense>, b: seq<Expense>)
    ensures ValidExpenses(a + b) == ValidExpenses(a) + ValidExpenses(b)
  {
    if a != [] {
      ValidExpensesConcat(a[1..], b);
      assert (a + b)[1..] == a[1..] + b;
    } else {
      assert a + b == b;
    }
  }

  /** A single expense is kept exactly when it is not a settlement. */
  lemma ValidExpensesSingle(e: Expense)
    ensures ValidExpenses([e]) == if e.description != SettlementMarker then [e] else []
  {
    assert [e][1..] == [];
  }

  /** `reduce((sum, e) => sum + e.amount, 0)`. */
  function Spent(es: seq<Expense>): real {
    if es == [] then 0.0 else Spent(es[..|es| - 1]) + es[|es| - 1].amount
  }

  /** `group.members.length || 1`. */
  function Divisor(members: seq<string>): (n: nat)
    ensures n >= 1
    ensures |members| > 0 ==> n == |members|
  {
    if |members| == 0 then 1 else |members|
  }

  /** The average per member, `total / (members.length || 1)`: a group without
      members divides by one. */
  function Average(total: real, members: seq<string>): (r: real)
    ensures |members| == 0 ==> r == total
  {
    BalanceService.Share(total, Divisor(members))
  }

  // ---------------------------------------------------------------------------
  // Insertion-ordered tallies (the `categoryMap` and `spenderMap` objects)
  // ---------------------------------------------------------------------------

  /** One key of a tally object with its running value and what was stored
      alongside it when the key was created. */
  datatype Tally<I> = Tally(name: string, value: real, info: I)

  function Names<I>(ts: seq<Tally<I>>): (r: seq<string>)
    ensures |r| == |ts| && forall k :: 0 <= k < |ts| ==> r[k] == ts[k].name
  {
    seq(|ts|, k requires 0 <= k < |ts| => ts[k].name)
  }

  /** The value under `name`, 0 when the key is missing (`map[name] || 0`). */
  function ValueOf<I>(ts: seq<Tally<I>>, name: string): real {
    if ts == [] then 0.0
    else (if ts[0].name == name then ts[0].value else 0.0) + ValueOf(ts[1..], name)
  }

  /** The values of all keys added up. */
  function TallyTotal<I>(ts: seq<Tally<I>>): real {
    if ts == [] then 0.0 else ts[0].value + TallyTotal(ts[1..])
  }

  /** `map[name] = (map[name] || 0) + amount`: an existing key grows in place, a
      new key is appended with `info`. */
  function Add<I>(ts: seq<Tally<I>>, name: string, amount: real, info: I): seq<Tally<I>> {
    if ts == [] then [Tally(name, amount, info)]
    else if ts[0].name == name then [ts[0].(value := ts[0].value + amount)] + ts[1..]
    else [ts[0]] + Add(ts[1..], name, amount, info)
  }

  /** Adding to a key keeps the key order and appends a key seen for the first
      time; the value under `name` grows by `amount` and no other value changes;
      the values still add up to everything added. */
  lemma AddEffect<I>(ts: seq<Tally<I>>, name: string, amount: real, info: I, x: string)
    ensures Names(Add(ts, name, amount, info)) == if name in Names(ts) then Names(ts) else Names(ts) + [name]
    ensures ValueOf(Add(ts, name, amount, info), x) == ValueOf(ts, x) + (if x == name then amount else 0.0)
    ensures TallyTotal(Add(ts, name, amount, info)) == TallyTotal(ts) + amount
  {
    AddNames(ts, name, amount, info);
    AddValue(ts, name, amount, info, x);
    AddTotal(ts, name, amount, info);
  }

  lemma NamesCons<I>(ts: seq<Tally<I>>)
    requires ts != []
    ensures Names(ts) == [ts[0].name] + Names(ts[1..])
  {
  }

  lemma {:induction false} AddNames<I>(ts: seq<Tally<I>>, name: string, amount: real, info: I)
    ensures Names(Add(ts, name, amount, info)) == if name in Names(ts) then Names(ts) else Names(ts) + [name]
  {
    if ts == [] {
      assert Names(Add(ts, name, amount, info)) == [name];
    } else {
      var r := Add(ts, name, amount, info);
      NamesCons(ts);
      NamesCons(r);
      if ts[0].name != name {
        AddNames(ts[1..], name, amount, info);
        assert r[1..] == Add(ts[1..], name, amount, info);
      } else {
        assert r[1..] == ts[1..];
      }
    }
  }

  lemma {:induction false} AddValue<I>(ts: seq<Tally<I>>, name: string, amount: real, info: I, x: string)
    ensures ValueOf(Add(ts, name, amount, info), x) == ValueOf(ts, x) + (if x == name then amount else 0.0)
  {
    if ts != [] {
      var r := Add(ts, name, amount, info);
      if ts[0].name != name {
        AddValue(ts[1..], name, amount, info, x);
        assert r[0] == ts[0] && r[1..] == Add(ts[1..], name, amount, info);
      } else {
        assert r[0].value == ts[0].value + amount && r[1..] == ts[1..];
      }
    }
  }

  lemma {:induction false} AddTotal<I>(ts: seq<Tally<I>>, name: string, amount: real, info: I)
    ensures TallyTotal(Add(ts, name, amount, info)) == TallyTotal(ts) + amount
  {
    if ts != [] {
      var r := Add(ts, name, amount, info);
      if ts[0].name != name {
        AddTotal(ts[1..], name, amount, info);
        assert r[0] == ts[0] && r[1..] == Add(ts[1..], name, amount, info);
      } else {
        assert r[0].value == ts[0].value + amount && r[1..] == ts[1..];
      }
    }
  }

  lemma AddDistinct<I>(ts: seq<Tally<I>>, name: string, amount: real, info: I)
    requires Distinct(Names(ts))
    ensures Distinct(Names(Add(ts, name, amount, info)))
  {
    AddNames(ts, name, amount, info);
    var n := Names(ts);
    if name !in n {
      var r := n + [name];
      forall p, q | 0 <= p < q < |r| ensures r[p] != r[q] {
        if q < |n| {
          assert r[p] == n[p] && r[q] == n[q];
        } else {
          assert r[p] == n[p] && r[q] == name;
        }
      }
    }
  }

  lemma {:induction false} TallyTotalConcat<I>(a: seq<Tally<I>>, b: seq<Tally<I>>)
    ensures TallyTotal(a + b) == TallyTotal(a) + TallyTotal(b)
  {
    if a == [] {
      assert a + b == b;
    } else {
      assert (a + b)[1..] == a[1..] + b;
      TallyTotalConcat(a[1..], b);
    }
  }

  /** Reordering the keys (as the sorts do) keeps their total. */
  lemma {:induction false} TallyTotalPermutation<I>(a: seq<Tally<I>>, b: seq<Tally<I>>)
    requires multiset(a) == multiset(b)
    ensures TallyTotal(a) == TallyTotal(b)
    decreases |a|
  {
    if a == [] {
      assert |b| == |multiset(b)| == 0;
    } else {
      var k := Sorting.PermutationSplit(a, b);
      var rest := b[k + 1..];
      TallyTotalPermutation(a[1..], b[..k] + rest);
      TallyTotalConcat(b[..k], [a[0]] + rest);
      TallyTotalConcat(b[..k], rest);
      assert b == b[..k] + ([a[0]] + rest);
      assert ([a[0]] + rest)[1..] == rest;
    }
  }

  function NegatedValue<I>(t: Tally<I>): real { -t.value }

  // ---------------------------------------------------------------------------
  // Categories
  // ---------------------------------------------------------------------------

  /** A label and a colour for the chart. */
  datatype Category = Category(title: string, color: string)

  /** `CATEGORY_CONFIG[key]`, for the ten configured keys. */
  function Config(key: string): Option<Category> {
    match key
    case "food" => Some(Category("Cibo & Drink", "#EF4444"))
    case "transport" => Some(Category("Trasporti", "#3B82F6"))
    case "housing" => Some(Category("Casa & Bollette", "#10B981"))
    case "shopping" => Some(Category("Shopping", "#8B5CF6"))
    case "health" => Some(Category("Salute", "#EC4899"))
    case "fun" => Some(Category("Svago", "#F59E0B"))
    case "travel" => Some(Category("Viaggi", "#0EA5E9"))
    case "pets" => Some(Category("Animali", "#A855F7"))
    case "gifts" => Some(Category("Regali", "#F43F5E"))
    case "other" => Some(Category("Altro", "#64748B"))
    case _ => None
  }

  /** The colour of the ad-hoc categories made from a description. */
  const DescriptionColor: string := "#94A3B8"

  /** `e.category || 'other'`: an absent or empty category counts as `other`. */
  function CategoryKey(e: Expense): string {
    if e.category.Some? && e.category.value != "" then e.category.value else "other"
  }

  /** The label and colour an expense is counted under. */
  function CategoryOf(e: Expense): Category {
    var key := CategoryKey(e);
    if key == "other" then Category(Text.Capitalize(e.description) + " (Altro)", DescriptionColor)
    else if Config(key).Some? then Config(key).value
    else Config("other").value
  }

  /** How categories fall back: an expense without a category, with an empty
      one, or with `other` gets an ad-hoc category named after its capitalised
      description; a configured key gets its configured title and colour; any
      other key is counted under the configured `other` entry ("Altro"). */
  lemma CategoryFallbacks(e: Expense)
    ensures e.category.None? || e.category == Some("") || e.category == Some("other") ==>
              CategoryOf(e) == Category(Text.Capitalize(e.description) + " (Altro)", DescriptionColor)
    ensures e.category.Some? && e.category.value != "other" && Config(e.category.value).Some? ==>
              CategoryOf(e) == Config(e.category.value).value
    ensures e.category.Some? && e.category.value != "" && Config(e.category.value).None? ==>
              CategoryOf(e) == Category("Altro", "#64748B")
  {
  }

  /** `categoryMap` after the loop over `es`. */
  function Classified(es: seq<Expense>): seq<Tally<string>> {
    if es == [] then []
    else
      var e := es[|es| - 1];
      Add(Classified(es[..|es| - 1]), CategoryOf(e).title, e.amount, CategoryOf(e).color)
  }

  /** The amounts of the expenses counted under `label`, added up. */
  function LabelTotal(es: seq<Expense>, title: string): real {
    if es == [] then 0.0
    else
      var e := es[|es| - 1];
      LabelTotal(es[..|es| - 1], title) + (if CategoryOf(e).title == title then e.amount else 0.0)
  }

  /** Each label occurs once, its value is the spending under that label, and
      the values add up to the total spent. */
  lemma {:induction false} ClassifiedMeaning(es: seq<Expense>, title: string)
    ensures Distinct(Names(Classified(es)))
    ensures ValueOf(Classified(es), title) == LabelTotal(es, title)
    ensures TallyTotal(Classified(es)) == Spent(es)
  {
    if es != [] {
      var init, e := es[..|es| - 1], es[|es| - 1];
      ClassifiedMeaning(init, title);
      AddEffect(Classified(init), CategoryOf(e).title, e.amount, CategoryOf(e).color, title);
      AddDistinct(Classified(init), CategoryOf(e).title, e.amount, CategoryOf(e).color);
    }
  }

  /** The label of each expense, in order. */
  function Labels(es: seq<Expense>): (r: seq<string>)
    ensures |r| == |es| && forall k :: 0 <= k < |es| ==> r[k] == CategoryOf(es[k]).title
  {
    if es == [] then [] else Labels(es[..|es| - 1]) + [CategoryOf(es[|es| - 1]).title]
  }

  /** The labels listed are exactly those of the expenses. */
  lemma {:induction false} ClassifiedLabels(es: seq<Expense>, title: string)
    ensures title in Names(Classified(es)) <==> title in Labels(es)
  {
    if es != [] {
      var init, e := es[..|es| - 1], es[|es| - 1];
      var c := CategoryOf(e);
      ClassifiedLabels(init, title);
      AddNames(Classified(init), c.title, e.amount, c.color);
      assert title in Labels(init) + [c.title] <==> title in Labels(init) || title == c.title;
    }
  }

  /** The `validExpenses.forEach` loop that fills `categoryMap`. */
  method CategoryTotals(valid: seq<Expense>) returns (categoryMap: seq<Tally<string>>)
    ensures categoryMap == Classified(valid)
  {
    categoryMap := [];
    for k := 0 to |valid|
      invariant categoryMap == Classified(valid[..k])
    {
      assert valid[..k + 1][..k] == valid[..k];
      var e := valid[k];
      var labelName, color;
      var catKey := CategoryKey(e);
      if catKey == "other" {
        labelName := Text.Capitalize(e.description) + " (Altro)";
        color := DescriptionColor;
      } else {
        var config := if Config(catKey).Some? then Config(catKey).value else Config("other").value;
        labelName := config.title;
        color := config.color;
      }
      categoryMap := Add(categoryMap, labelName, e.amount, color);
    }
    assert valid[..|valid|] == valid;
  }

  // ---------------------------------------------------------------------------
  // Spenders
  // ---------------------------------------------------------------------------

  /** `spenderMap` after crediting each payment to its member. */
  function CreditPayments(ts: seq<Tally<()>>, ps: seq<Payment>): seq<Tally<()>> {
    if ps == [] then ts
    else Add(CreditPayments(ts, ps[..|ps| - 1]), ps[|ps| - 1].member, ps[|ps| - 1].amount, ())
  }

  /** `spenderMap` after the loop over `es`: a split payer credits each
      payment, a bare-name payer is credited the whole amount. */
  function Spending(es: seq<Expense>): seq<Tally<()>> {
    if es == [] then []
    else
      var before, e := Spending(es[..|es| - 1]), es[|es| - 1];
      match e.paidBy
      case Split(ps) => CreditPayments(before, ps)
      case Single(n) => Add(before, n, e.amount, ())
  }

  /** What `m` fronted over the expenses. */
  function Fronted(es: seq<Expense>, m: string): real {
    if es == [] then 0.0 else Fronted(es[..|es| - 1], m) + PaidBy(es[|es| - 1], m)
  }

  lemma {:induction false} CreditPaymentsEffect(ts: seq<Tally<()>>, ps: seq<Payment>, m: string)
    requires Distinct(Names(ts))
    ensures Distinct(Names(CreditPayments(ts, ps)))
    ensures ValueOf(CreditPayments(ts, ps), m) == ValueOf(ts, m) + PaidIn(ps, m)
    ensures TallyTotal(CreditPayments(ts, ps)) == TallyTotal(ts) + PaymentsTotal(ps)
  {
    if ps != [] {
      var init, p := ps[..|ps| - 1], ps[|ps| - 1];
      CreditPaymentsEffect(ts, init, m);
      AddEffect(CreditPayments(ts, init), p.member, p.amount, (), m);
      AddDistinct(CreditPayments(ts, init), p.member, p.amount, ());
    }
  }

  /** Each payer occurs once and their value is everything they fronted. */
  lemma {:induction false} SpendingMeaning(es: seq<Expense>, m: string)
    ensures Distinct(Names(Spending(es)))
    ensures ValueOf(Spending(es), m) == Fronted(es, m)
  {
    if es != [] {
      var init, e := es[..|es| - 1], es[|es| - 1];
      SpendingMeaning(init, m);
      match e.paidBy
      case Split(ps) =>
        CreditPaymentsEffect(Spending(init), ps, m);
      case Single(n) =>
        AddEffect(Spending(init), n, e.amount, (), m);
        AddDistinct(Spending(init), n, e.amount, ());
    }
  }

  /** The inner `e.paidBy.forEach` loop. */
  method AddPayments(spenderMap: seq<Tally<()>>, payments: seq<Payment>) returns (r: seq<Tally<()>>)
    ensures r == CreditPayments(spenderMap, payments)
  {
    r := spenderMap;
    for q := 0 to |payments|
      invariant r == CreditPayments(spenderMap, payments[..q])
    {
      assert payments[..q + 1][..q] == payments[..q];
      r := Add(r, payments[q].member, payments[q].amount, ());
    }
    assert payments[..|payments|] == payments;
  }

  /** The `validExpenses.forEach` loop that fills `spenderMap`. */
  method SpenderTotals(valid: seq<Expense>) returns (spenderMap: seq<Tally<()>>)
    ensures spenderMap == Spending(valid)
  {
    spenderMap := [];
    for k := 0 to |valid|
      invariant spenderMap == Spending(valid[..k])
    {
      assert valid[..k + 1][..k] == valid[..k];
      var e := valid[k];
      match e.paidBy {
        case Split(ps) =>
          spenderMap := AddPayments(spenderMap, ps);
        case Single(n) =>
          spenderMap := Add(spenderMap, n, e.amount, ());
      }
    }
    assert valid[..|valid|] == valid;
  }

  // ---------------------------------------------------------------------------
  // The whole computation
  // ---------------------------------------------------------------------------

  /** What the page computes; the spending timeline is not part of this model. */
  datatype Stats = Stats(
    total: real,
    average: real,
    categoryData: seq<Tally<string>>,
    topSpenders: seq<Tally<()>>,
    count: nat)

  /** The page's figures for a group. */
  function StatsOf(g: Group): Stats {
    var valid := ValidExpenses(g.expenses);
    var total := Spent(valid);
    Stats(total, Average(total, g.members),
          Sorting.SortBy(Classified(valid), NegatedValue),
          Sorting.SortBy(Spending(valid), NegatedValue),
          |valid|)
  }

  /** The `useMemo` body of the statistics page. */
  method ComputeStats(g: Group) returns (stats: Stats)
    ensures stats == StatsOf(g)
  {
    var validExpenses := ValidExpenses(g.expenses);
    var total := Spent(validExpenses);
    var average := total / Divisor(g.members) as real;
    assert average == Average(total, g.members);
    var categoryMap := CategoryTotals(validExpenses);
    var categoryData := Sorting.SortBy(categoryMap, NegatedValue);
    var spenderMap := SpenderTotals(validExpenses);
    var topSpenders := Sorting.SortBy(spenderMap, NegatedValue);
    stats := Stats(total, average, categoryData, topSpenders, |validExpenses|);
  }

  /** The count is the number of expenses that are not settlements, the total
      is what they add up to, and one average per member (one in all for a group
      without members) adds back up to the total. */
  lemma StatsTotals(g: Group)
    ensures var s, valid := StatsOf(g), ValidExpenses(g.expenses);
            && s.count == |valid|
            && s.total == Spent(valid)
            && BalanceService.Times(Divisor(g.members), s.average) == s.total
  {
    var s := StatsOf(g);
    BalanceService.TimesShare(Divisor(g.members), s.total);
  }

  /** The categories are listed largest first, each label once; their values
      add up to the total and each is the spending under its label,
      settlements excluded. */
  lemma StatsCategories(g: Group, title: string)
    ensures var s, valid := StatsOf(g), ValidExpenses(g.expenses);
            && Sorting.SortedBy(s.categoryData, NegatedValue)
            && Distinct(Names(s.categoryData))
            && TallyTotal(s.categoryData) == s.total
            && ValueOf(s.categoryData, title) == LabelTotal(valid, title)
  {
    var valid := ValidExpenses(g.expenses);
    var cs := Classified(valid);
    var data := Sorting.SortBy(cs, NegatedValue);
    assert StatsOf(g).categoryData == data && StatsOf(g).total == Spent(valid);
    ClassifiedMeaning(valid, title);
    TallyTotalPermutation(data, cs);
    SortedKeepsMeaning(cs, title);
  }

  /** The spenders are listed largest first, each once, and a spender's value is
      everything they fronted, settlements excluded. */
  lemma StatsSpenders(g: Group, m: string)
    ensures var s, valid := StatsOf(g), ValidExpenses(g.expenses);
            && Sorting.SortedBy(s.topSpenders, NegatedValue)
            && Distinct(Names(s.topSpenders))
            && ValueOf(s.topSpenders, m) == Fronted(valid, m)
  {
    var valid := ValidExpenses(g.expenses);
    SpendingMeaning(valid, m);
    SortedKeepsMeaning(Spending(valid), m);
  }

  /** Sorting a tally with one entry per key keeps every value and the
      one-entry-per-key property. */
  lemma SortedKeepsMeaning<I>(ts: seq<Tally<I>>, name: string)
    requires Distinct(Names(ts))
    ensures var r := Sorting.SortBy(ts, NegatedValue);
            Distinct(Names(r)) && ValueOf(r, name) == ValueOf(ts, name)
  {
    var r := Sorting.SortBy(ts, NegatedValue);
    forall p, q | 0 <= p < q < |r| ensures Names(r)[p] != Names(r)[q] {
      PermutationNames(r, ts, p, q);
    }
    PermutationValue(r, ts, name);
  }

  /** In a reordering of a tally with one entry per key, two positions hold
      different keys. */
  lemma PermutationNames<I>(a: seq<Tally<I>>, b: seq<Tally<I>>, p: nat, q: nat)
    requires multiset(a) == multiset(b) && Distinct(Names(b))
    requires p < q < |a|
    ensures a[p].name != a[q].name
  {
    if a[p].name == a[q].name {
      assert a[p] in multiset(b) && a[q] in multiset(b);
      var p' :| 0 <= p' < |b| && b[p'] == a[p];
      var q' :| 0 <= q' < |b| && b[q'] == a[q];
      if p' == q' {
        TwiceInSequence(a, p, q);
        MultiplicityOfUnique(b, p');
      }
      assert false;
    }
  }

  lemma TwiceInSequence<T>(a: seq<T>, p: nat, q: nat)
    requires p < q < |a| && a[p] == a[q]
    ensures multiset(a)[a[p]] >= 2
  {
    assert a == a[..q] + [a[q]] + a[q + 1..];
    assert a[..q][p] == a[p];
    assert multiset(a) == multiset(a[..q]) + multiset{a[q]} + multiset(a[q + 1..]);
  }

  lemma MultiplicityOfUnique<I>(b: seq<Tally<I>>, k: nat)
    requires k < |b| && Distinct(Names(b))
    ensures multiset(b)[b[k]] == 1
  {
    assert b == b[..k] + [b[k]] + b[k + 1..];
    forall p | 0 <= p < |b| && p != k ensures b[p] != b[k] {
      assert Names(b)[p] != Names(b)[k];
    }
    assert b[k] !in b[..k];
    assert b[k] !in b[k + 1..];
    assert multiset(b) == multiset(b[..k]) + multiset{b[k]} + multiset(b[k + 1..]);
  }

  lemma {:induction false} ValueOfConcat<I>(a: seq<Tally<I>>, b: seq<Tally<I>>, name: string)
    ensures ValueOf(a + b, name) == ValueOf(a, name) + ValueOf(b, name)
  {
    if a == [] {
      assert a + b == b;
    } else {
      assert (a + b)[1..] == a[1..] + b;
      ValueOfConcat(a[1..], b, name);
    }
  }

  lemma {:induction false} PermutationValue<I>(a: seq<Tally<I>>, b: seq<Tally<I>>, name: string)
    requires multiset(a) == multiset(b)
    ensures ValueOf(a, name) == ValueOf(b, name)
    decreases |a|
  {
    if a == [] {
      assert |b| == |multiset(b)| == 0;
    } else {
      var k := Sorting.PermutationSplit(a, b);
      var rest := b[k + 1..];
      PermutationValue(a[1..], b[..k] + rest, name);
      ValueOfConcat(b[..k], [a[0]] + rest, name);
      ValueOfConcat(b[..k], rest, name);
      assert b == b[..k] + ([a[0]] + rest);
      assert ([a[0]] + rest)[1..] == rest;
    }
  }
}
