/** The group store: the list of groups the application keeps, and the actions
    that replace it. Each action computes a new list from the previous one; the
    store object holds the current list. */
module GroupContext {
  import opened Wrappers
  import opened Ledger
  import BalanceService

  // ---------------------------------------------------------------------------
  // The list transforms
  // ---------------------------------------------------------------------------

  /** `prev.filter(g => g.id !== id)`. */
  function WithoutGroup(gs: seq<Group>, id: string): (r: seq<Group>)
    ensures |r| <= |gs|
    ensures forall g :: g in r ==> g.id != id
  {
    if gs == [] then []
    else (if gs[0].id != id then [gs[0]] else []) + WithoutGroup(gs[1..], id)
  }

  /** Deleting a group keeps every other group, in order, and only them. */
  lemma {:induction false} WithoutGroupKeepsOthers(gs: seq<Group>, id: string, g: Group)
    ensures g in WithoutGroup(gs, id) <==> g in gs && g.id != id
  {
    if gs != [] {
      WithoutGroupKeepsOthers(gs[1..], id, g);
      assert gs == [gs[0]] + gs[1..];
    }
  }

  /** Deleting from two lists joined is deleting from each: the kept groups
      stay in their order, each as often as it was listed. */
  lemma {:induction false} WithoutGroupConcat(a: seq<Group>, b: seq<Group>, id: string)
    ensures WithoutGroup(a + b, id) == WithoutGroup(a, id) + WithoutGroup(b, id)
  {
    if a != [] {
      WithoutGroupConcat(a[1..], b, id);
      assert (a + b)[1..] == a[1..] + b;
    } else {
      assert a + b == b;
    }
  }

  /** A single group is kept exactly when its id differs. */
  lemma WithoutGroupSingle(g: Group, id: string)
    ensures WithoutGroup([g], id) == if g.id != id then [g] else []
  {
    assert [g][1..] == [];
  }

  /** Deleting an id no group has leaves the list as it is. */
  lemma {:induction false} WithoutAbsentGroup(gs: seq<Group>, id: string)
    requires forall k :: 0 <= k < |gs| ==> gs[k].id != id
    ensures WithoutGroup(gs, id) == gs
  {
    if gs != [] {
      WithoutAbsentGroup(gs[1..], id);
      assert gs == [gs[0]] + gs[1..];
    }
  }

  /** `groups.find(g => g.id === id)`: the first group with that id, if any. */
  function FindGroup(gs: seq<Group>, id: string): (r: Option<Group>)
    ensures r.None? <==> forall k :: 0 <= k < |gs| ==> gs[k].id != id
    ensures r.Some? ==> r.value in gs && r.value.id == id
  {
    if gs == [] then None
    else if gs[0].id == id then Some(gs[0])
    else FindGroup(gs[1..], id)
  }

  /** `find` returns the earliest match. */
  lemma {:induction false} FindGroupFirst(gs: seq<Group>, id: string, k: nat)
    requires k < |gs| && gs[k].id == id
    requires forall p :: 0 <= p < k ==> gs[p].id != id
    ensures FindGroup(gs, id) == Some(gs[k])
  {
    if k > 0 {
      FindGroupFirst(gs[1..], id, k - 1);
    }
  }

  /** A group just added is the one found under its id. */
  lemma FindAddedGroup(gs: seq<Group>, g: Group)
    ensures FindGroup([g] + gs, g.id) == Some(g)
  {
  }

  /** After a delete, nothing is found under the deleted id. */
  lemma FindDeletedGroup(gs: seq<Group>, id: string)
    ensures FindGroup(WithoutGroup(gs, id), id) == None
  {
    var r := WithoutGroup(gs, id);
    assert forall k :: 0 <= k < |r| ==> r[k] in r;
  }

  /** What an expense action does to its target group. */
  datatype ExpenseAction =
    | Add(expense: Expense)
    | Delete(expenseId: string)
    | Edit(expenseId: string, data: ExpenseData)

  /** `{ id, date, ...expenseData }`: the id and date come from the caller. */
  function NewExpense(id: string, date: string, data: ExpenseData): (e: Expense)
    ensures e.id == id && e.date == date && e.category == None
    ensures e.involvedMembers == Some(data.involvedMembers)
    ensures Patched(e, data)
  {
    Expense(id, date, data.description, data.amount, data.paidBy, Some(data.involvedMembers), None)
  }

  /** The fields of `data` have been written onto `e`. */
  predicate Patched(e: Expense, data: ExpenseData) {
    && e.description == data.description
    && e.amount == data.amount
    && e.paidBy == data.paidBy
    && e.involvedMembers == Some(data.involvedMembers)
  }

  /** `{ ...e, ...updatedData }` for the data the expense form submits. */
  function Merge(e: Expense, data: ExpenseData): (r: Expense)
    ensures Patched(r, data)
    ensures r.id == e.id && r.date == e.date && r.category == e.category
  {
    e.(description := data.description, amount := data.amount, paidBy := data.paidBy,
       involvedMembers := Some(data.involvedMembers))
  }

  /** `group.expenses.filter(e => e.id !== expenseId)`. */
  function WithoutExpense(es: seq<Expense>, id: string): (r: seq<Expense>)
    ensures |r| <= |es|
    ensures forall e :: e in r ==> e.id != id
  {
    if es == [] then []
    else (if es[0].id != id then [es[0]] else []) + WithoutExpense(es[1..], id)
  }

  lemma {:induction false} WithoutExpenseKeepsOthers(es: seq<Expense>, id: string, e: Expense)
    ensures e in WithoutExpense(es, id) <==> e in es && e.id != id
  {
    if es != [] {
      WithoutExpenseKeepsOthers(es[1..], id, e);
      assert es == [es[0]] + es[1..];
    }
  }

  /** Deleting from two lists joined is deleting from each: the kept expenses
      stay in their order, each as often as it was listed. */
  lemma {:induction false} WithoutExpenseConcat(a: seq<Expense>, b: seq<Expense>, id: string)
    ensures WithoutExpense(a + b, id) == WithoutExpense(a, id) + WithoutExpense(b, id)
  {
    if a != [] {
      WithoutExpenseConcat(a[1..], b, id);
      assert (a + b)[1..] == a[1..] + b;
    } else {
      assert a + b == b;
    }
  }

  /** A single expense is kept exactly when its id differs. */
  lemma WithoutExpenseSingle(e: Expense, id: string)
    ensures WithoutExpense([e], id) == if e.id != id then [e] else []
  {
    assert [e][1..] == [];
  }

  /** Deleting an expense just added, under an id no other expense has, gives
      the expenses back as they were. */
  lemma {:induction false} DeleteUndoesAdd(es: seq<Expense>, e: Expense)
    requires forall k :: 0 <= k < |es| ==> es[k].id != e.id
    ensures WithoutExpense([e] + es, e.id) == es
  {
    assert ([e] + es)[1..] == es;
    WithoutAbsentExpense(es, e.id);
  }

  lemma {:induction false} WithoutAbsentExpense(es: seq<Expense>, id: string)
    requires forall k :: 0 <= k < |es| ==> es[k].id != id
    ensures WithoutExpense(es, id) == es
  {
    if es != [] {
      WithoutAbsentExpense(es[1..], id);
      assert es == [es[0]] + es[1..];
    }
  }

  /** `group.expenses.map(e => e.id === expenseId ? { ...e, ...updatedData } : e)`. */
  function EditedExpenses(es: seq<Expense>, id: string, data: ExpenseData): (r: seq<Expense>)
    ensures |r| == |es|
  {
    if es == [] then []
    else [if es[0].id == id then Merge(es[0], data) else es[0]] + EditedExpenses(es[1..], id, data)
  }

  /** Editing rewrites the described fields of the matching expenses, keeps
      their id, date and category, and leaves every other expense alone. */
  lemma {:induction false} EditedExpensesAt(es: seq<Expense>, id: string, data: ExpenseData, k: nat)
    requires k < |es|
    ensures var r := EditedExpenses(es, id, data);
            && r[k].id == es[k].id && r[k].date == es[k].date && r[k].category == es[k].category
            && (es[k].id == id ==> Patched(r[k], data))
            && (es[k].id != id ==> r[k] == es[k])
  {
    if k > 0 {
      EditedExpensesAt(es[1..], id, data, k - 1);
    }
  }

  /** Saving the same edit twice is the same as saving it once. */
  lemma {:induction false} EditIdempotent(es: seq<Expense>, id: string, data: ExpenseData)
    ensures EditedExpenses(EditedExpenses(es, id, data), id, data) == EditedExpenses(es, id, data)
  {
    if es != [] {
      EditIdempotent(es[1..], id, data);
    }
  }

  /** The new version of one group under an action. */
  function Perform(g: Group, action: ExpenseAction): Group {
    match action
    case Add(e) => g.(expenses := [e] + g.expenses)
    case Delete(eid) => g.(expenses := WithoutExpense(g.expenses, eid))
    case Edit(eid, data) => g.(expenses := EditedExpenses(g.expenses, eid, data))
  }

  /** `prev.map(group => group.id !== groupId ? group : …)`. */
  function UpdateGroup(gs: seq<Group>, id: string, action: ExpenseAction): (r: seq<Group>)
    ensures |r| == |gs|
  {
    if gs == [] then []
    else [if gs[0].id != id then gs[0] else Perform(gs[0], action)] + UpdateGroup(gs[1..], id, action)
  }

  /** An expense action changes only the expenses of the groups with the target
      id: every other group is left as it was, and a target keeps its id, name,
      members and creation date. */
  lemma {:induction false} OnlyTargetChanges(gs: seq<Group>, id: string, action: ExpenseAction, k: nat)
    requires k < |gs|
    ensures var r := UpdateGroup(gs, id, action);
            && (gs[k].id != id ==> r[k] == gs[k])
            && (gs[k].id == id ==> r[k] == Perform(gs[k], action))
            && r[k].id == gs[k].id && r[k].name == gs[k].name
            && r[k].members == gs[k].members && r[k].createdAt == gs[k].createdAt
  {
    if k > 0 {
      OnlyTargetChanges(gs[1..], id, action, k - 1);
    }
  }

  /** An action on an id no group has leaves the list as it is. */
  lemma {:induction false} UpdateAbsentGroup(gs: seq<Group>, id: string, action: ExpenseAction)
    requires forall k :: 0 <= k < |gs| ==> gs[k].id != id
    ensures UpdateGroup(gs, id, action) == gs
  {
    if gs != [] {
      UpdateAbsentGroup(gs[1..], id, action);
      assert gs == [gs[0]] + gs[1..];
    }
  }

  lemma {:induction false} NetEffectPrepend(members: seq<string>, e: Expense, es: seq<Expense>, m: string)
    ensures BalanceService.NetEffect(members, [e] + es, m)
         == BalanceService.ExpenseEffect(members, e, m) + BalanceService.NetEffect(members, es, m)
    decreases |es|
  {
    if es != [] {
      var init := es[..|es| - 1];
      assert ([e] + es)[..|[e] + es| - 1] == [e] + init;
      NetEffectPrepend(members, e, init, m);
    } else {
      assert ([e] + es)[..0] == [];
    }
  }

  /** Adding an expense to a group moves each member's balance by exactly that
      expense's effect on them. */
  lemma AddedExpenseEffect(g: Group, e: Expense, m: string)
    requires m in g.members
    ensures BalanceService.GroupBalances(Perform(g, Add(e)))[m]
         == BalanceService.GroupBalances(g)[m] + BalanceService.ExpenseEffect(g.members, e, m)
  {
    var g' := Perform(g, Add(e));
    BalanceService.BalanceOfMember(g, m);
    BalanceService.BalanceOfMember(g', m);
    NetEffectPrepend(g.members, e, g.expenses, m);
  }

  // ---------------------------------------------------------------------------
  // The store
  // ---------------------------------------------------------------------------

  /** The provider's state: the current list of groups, newest first. */
  class GroupStore {
    var groups: seq<Group>

    /** The initial state: the saved list when there is one, else empty. */
    constructor(saved: Option<seq<Group>>)
      ensures groups == if saved.Some? then saved.value else []
    {
      groups := if saved.Some? then saved.value else [];
    }

    /** `addGroup(name, members)`: the new group, with no expenses, goes first. */
    method AddGroup(id: string, name: string, members: seq<string>, createdAt: string)
      modifies this
      ensures groups == [Group(id, name, members, [], createdAt)] + old(groups)
    {
      var newGroup := Group(id, name, members, [], createdAt);
      groups := [newGroup] + groups;
    }

    /** `deleteGroup(id)`. */
    method DeleteGroup(id: string)
      modifies this
      ensures groups == WithoutGroup(old(groups), id)
    {
      groups := WithoutGroup(groups, id);
    }

    /** `getGroup(id)`: the first group with that id; the list is unchanged. */
    method GetGroup(id: string) returns (r: Option<Group>)
      ensures r == FindGroup(groups, id)
      ensures r.Some? ==> r.value in groups && r.value.id == id
    {
      r := FindGroup(groups, id);
    }

    /** `addExpense(groupId, expenseData)`: the new expense goes first in the
        target group's list. */
    method AddExpense(groupId: string, id: string, date: string, data: ExpenseData)
      modifies this
      ensures groups == UpdateGroup(old(groups), groupId, Add(NewExpense(id, date, data)))
    {
      groups := UpdateGroup(groups, groupId, Add(NewExpense(id, date, data)));
    }

    /** `deleteExpense(groupId, expenseId)`. */
    method DeleteExpense(groupId: string, expenseId: string)
      modifies this
      ensures groups == UpdateGroup(old(groups), groupId, Delete(expenseId))
    {
      groups := UpdateGroup(groups, groupId, Delete(expenseId));
    }

    /** `editExpense(groupId, expenseId, updatedData)`. */
    method EditExpense(groupId: string, expenseId: string, data: ExpenseData)
      modifies this
      ensures groups == UpdateGroup(old(groups), groupId, Edit(expenseId, data))
    {
      groups := UpdateGroup(groups, groupId, Edit(expenseId, data));
    }
  }
}
