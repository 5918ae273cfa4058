# SmartSplit: a verified model of the expense-splitting core

SmartSplit keeps groups of people and the expenses they share. It does three things with them:

- It reduces a group to one net balance per member.
- It proposes a short list of transfers that settles those balances. Debtors and creditors are matched greedily.
- It shows a statistics page: the total, the average, spending per category and spending per payer.

The groups live in a store. The store offers six actions: add, delete and look up a group, and add, delete and edit an expense. Two forms feed it. One form creates a group from a list of name fields. The other form records an expense and who shares it.

This project models that core in Dafny and proves the properties its code promises.

| module | file | models |
|---|---|---|
| `Wrappers` | Wrappers.dfy | `Option` and `Result` |
| `Sorting` | Sorting.dfy | `Array.prototype.sort` as a stable sort by a numeric key |
| `Text` | Text.dfy | `String.prototype.trim` and the `capitalize` helper |
| `Ledger` | Ledger.dfy | groups, expenses, and the two payer shapes (a bare name, or an array of payments) |
| `BalanceService` | BalanceService.dfy | `calculateGroupStats` and `calculateSettlements` |
| `GroupContext` | GroupContext.dfy | the group store and its actions |
| `StatsDashboard` | StatsDashboard.dfy | the `stats` computation of the statistics page |
| `AddExpenseForm` | AddExpenseForm.dfy | participant toggling, the edit prefill, and submit validation |
| `CreateGroup` | CreateGroup.dfy | the member-field editor and submit validation |

Modelling choices:

- Amounts are exact `real`s. `Math.round(x * 100) / 100` is floor(100x + 1/2) / 100.
- A JavaScript object used as a dictionary becomes a Dafny `map` when only lookups matter. The balances are an example.
- When insertion order matters, it becomes an ordered list of entries. Examples are `Object.entries(balances)` and the category and spender maps.
- Each loop in the source is a `method` with a loop, proved equal to a recursive specification function:
  - the `forEach` loops of `calculateGroupStats`;
  - the cursor loop of `calculateSettlements`;
  - the map-building loops of the statistics page;
  - the per-field error loop of the group form.
- The properties are proved as lemmas about those functions.
- The store and the two forms are classes. Their fields are replaced by the actions, as React state is.
- Ids, dates and the result of `parseFloat` are parameters.

## Model

| member | source | states |
|---|---|---|
| BalanceService.GroupBalances | src/services/balanceService.js:5-7 | the balances have exactly one key per group member; names outside the group never add a key |
| BalanceService.BalanceOfMember | src/services/balanceService.js:1-49 | a member's balance is the sum over all expenses of what they fronted minus their shares |
| BalanceService.ApplyExpenseAt | src/services/balanceService.js:10-45 | one expense moves a member's balance by what they fronted minus their share |
| BalanceService.CreditAt | src/services/balanceService.js:27-31 | an array payer credits each member the sum of their own payment entries, and only members with a key |
| BalanceService.CreditPayerAt | src/services/balanceService.js:24-38 | a member is credited what `PaidBy` says they fronted: the whole amount for a bare-name payer, their own entries for an array payer |
| BalanceService.DebitAt | src/services/balanceService.js:41-45 | each member is debited one share for every time they are listed among the participants |
| BalanceService.Occurrences | src/services/balanceService.js:41-45 | a member is debited at least once exactly when they are listed among the participants |
| BalanceService.NonParticipantNotDebited | src/services/balanceService.js:14-16 | a member outside the participant list only gains what they fronted |
| BalanceService.LegacyPayerEquivalent | src/services/balanceService.js:32-37 | a bare-name payer acts exactly like a one-entry payment array for the whole amount |
| Ledger.LegacyPayerAsSplit | src/services/balanceService.js:32-37 | a bare-name payer fronts what a one-entry split for the whole amount fronts |
| Ledger.PaidInOthers | src/services/balanceService.js:27-31 | a member who is in no payment entry fronted nothing |
| BalanceService.ExpenseOrderIrrelevant | src/services/balanceService.js:10-46 | applying two expenses in either order gives the same balances |
| BalanceService.CreditSum | src/services/balanceService.js:27-31 | crediting payment entries that are all members raises the balance sum by the payments' total |
| BalanceService.DebitSum | src/services/balanceService.js:41-45 | debiting participants who are all members lowers the balance sum by one share per participant |
| BalanceService.TimesShare | src/services/balanceService.js:21 | the participant count times `amount / count` gives back `amount` |
| BalanceService.ApplyExpenseKeepsSum | src/services/balanceService.js:10-46 | an expense whose payments add up to its amount and whose names are members leaves the sum unchanged |
| BalanceService.ApplyExpensesKeepsSum | src/services/balanceService.js:10-46 | the same holds for every list of such expenses |
| BalanceService.BalancesSumToZero | src/services/balanceService.js:1-49 | zero-sum: when every expense is consistent, the balances add up to 0 |
| BalanceService.CreditPayments | src/services/balanceService.js:27-31 | the payment loop computes `Credit` |
| BalanceService.DebitParticipants | src/services/balanceService.js:41-45 | the participant loop computes `Debit` |
| BalanceService.InitialBalances | src/services/balanceService.js:5-7 | the initial loop sets every member to 0 |
| BalanceService.ApplyOne | src/services/balanceService.js:10-46 | one pass of the expense loop computes `ApplyExpense`: payers credited, participants debited, nothing for an expense without participants |
| BalanceService.CalculateGroupStats | src/services/balanceService.js:1-49 | the method returns `GroupBalances(group)`, whose keys, per-member values and zero sum are the lemmas above |
| BalanceService.RoundCents | src/services/balanceService.js:57 | the rounded value is a whole number of cents, within half a cent of the input |
| BalanceService.SideMembers | src/services/balanceService.js:55-60 | an entry is pushed to a side exactly when it is a rounded entry beyond that side's threshold |
| BalanceService.Debtors | src/services/balanceService.js:55-63 | debtors are whole cents below -0.01, sorted ascending, and a permutation of the pushed entries |
| BalanceService.Creditors | src/services/balanceService.js:55-64 | creditors are whole cents above 0.01, sorted descending, and a permutation of the pushed entries |
| BalanceService.DebtorsAndCreditorsExactly | src/services/balanceService.js:55-64 | an entry is a debtor iff its rounded value is below -0.01, and a creditor iff it is above 0.01 |
| BalanceService.SmallBalancesOweNothing | src/services/balanceService.js:57-58 | a balance of at least -0.015 never rounds below -0.01, so it never becomes a debtor |
| BalanceService.NothingToSettle | src/services/balanceService.js:55-70 | when every balance rounds into [-0.01, 0.01] the plan is empty |
| BalanceService.GreedyTransfers | src/services/balanceService.js:70-86 | every transfer is positive, comes from a debtor not yet settled and goes to a creditor not yet settled |
| BalanceService.GreedyCount | src/services/balanceService.js:70-86 | the loop ends, and emits fewer transfers than the debtors plus creditors it started with |
| BalanceService.SettlementsShape | src/services/balanceService.js:51-89 | the plan's transfers are positive, from a debtor to a creditor, and there are at most \|D\|+\|C\|-1 of them |
| BalanceService.GreedyStep | src/services/balanceService.js:71-85 | one round keeps every debtor left negative and every creditor left positive, and the plan is that round's transfer followed by the rest |
| BalanceService.Partition | src/services/balanceService.js:55-60 | the partition loop builds both sides in entry order |
| BalanceService.Match | src/services/balanceService.js:66-88 | the cursor loop, which updates the entries it matches, returns the greedy plan |
| BalanceService.CalculateSettlements | src/services/balanceService.js:51-89 | the method returns `SettlementPlan(balances)`, the plan the lemmas here describe |
| BalanceService.GreedyWithinBalances | src/services/balanceService.js:70-86 | no debtor sends more than it owes and no creditor receives more than it is owed |
| BalanceService.GreedySettlesExactly | src/services/balanceService.js:70-86 | when debts and credits cancel out, every debtor sends exactly its debt and every creditor receives exactly its credit |
| BalanceService.BalancedStep | src/services/balanceService.js:81-85 | a round keeps debts and credits cancelling out, and a side that advances has reached exactly 0 |
| BalanceService.MemberAmounts | src/services/balanceService.js:55-64 | with distinct names, a member's debt and credit are its rounded balance beyond the thresholds, else 0 |
| BalanceService.PlanWithinBalances | src/services/balanceService.js:51-89 | each member sends at most its rounded debt and receives at most its rounded credit, never a negative amount |
| BalanceService.PlanSettlesEveryone | src/services/balanceService.js:51-89 | when debts and credits cancel out, each member's rounded balance plus what it sends minus what it receives is 0, except for balances within ±0.01 |
| BalanceService.Unique | src/services/balanceService.js:5-7 | the object's keys are the members, each once |
| BalanceService.UniqueInFirstOrder | src/services/balanceService.js:5-7 | the keys are listed in the order in which the members first occur, which is the order `Object.entries` gives |
| BalanceService.BalanceEntries | src/services/balanceService.js:55 | `Object.entries(balances)`: one entry per key, in key order, with that key's balance |
| BalanceService.GroupSettlementsWithinBalances | src/pages/GroupDetail.jsx:29-30 | in a group's plan each member sends at most its rounded debt and receives at most its rounded credit |
| Sorting.SortBy | src/services/balanceService.js:63-64 | the sorted list is ordered by the key and is a permutation of the input |
| Sorting.SortByStable | src/services/balanceService.js:63-64 | the sort is stable: the elements with any one key come out in their input order |
| Sorting.SortByMembers | src/components/StatsDashboard.jsx:80 | sorting neither adds nor drops an element |
| GroupContext.FindGroup | src/context/GroupContext.jsx:38-40 | `find` yields nothing iff no group has the id; otherwise a group of the list with that id |
| GroupContext.FindGroupFirst | src/context/GroupContext.jsx:38-40 | `find` yields the first group with the id |
| GroupContext.FindDeletedGroup | src/context/GroupContext.jsx:34-40 | after deleting an id, no group with it is found |
| GroupContext.WithoutGroupConcat | src/context/GroupContext.jsx:34-36 | filtering a joined list filters each part, so the kept groups stay in order and keep their multiplicity |
| GroupContext.WithoutGroupSingle | src/context/GroupContext.jsx:34-36 | a single group is kept exactly when its id differs; with the concatenation lemma this fixes the result |
| GroupContext.WithoutGroupKeepsOthers | src/context/GroupContext.jsx:34-36 | a group survives deletion iff it was there and has another id |
| GroupContext.WithoutAbsentGroup | src/context/GroupContext.jsx:34-36 | deleting an unused id leaves the list unchanged, in order |
| GroupContext.NewExpense | src/context/GroupContext.jsx:45-49 | a new expense has the fresh id and date, the submitted fields and no category |
| GroupContext.Merge | src/context/GroupContext.jsx:72 | an edit takes the submitted fields and keeps id, date and category |
| GroupContext.WithoutExpenseConcat | src/context/GroupContext.jsx:60 | filtering a joined list filters each part, so the kept expenses stay in order and keep their multiplicity |
| GroupContext.WithoutExpenseSingle | src/context/GroupContext.jsx:60 | a single expense is kept exactly when its id differs; with the concatenation lemma this fixes the result |
| GroupContext.WithoutExpenseKeepsOthers | src/context/GroupContext.jsx:60 | an expense survives deletion iff it was there and has another id |
| GroupContext.DeleteUndoesAdd | src/context/GroupContext.jsx:42-63 | deleting a just-added expense with a fresh id restores the list |
| GroupContext.WithoutAbsentExpense | src/context/GroupContext.jsx:60 | deleting an unused expense id leaves the list unchanged |
| GroupContext.EditedExpenses | src/context/GroupContext.jsx:71-73 | editing keeps the number of expenses |
| GroupContext.EditedExpensesAt | src/context/GroupContext.jsx:71-73 | only matching expenses change; they take the submitted fields and keep id, date and category |
| GroupContext.EditIdempotent | src/context/GroupContext.jsx:66-76 | saving the same edit twice equals saving it once |
| GroupContext.UpdateGroup | src/context/GroupContext.jsx:42-75 | an expense action keeps the number of groups |
| GroupContext.OnlyTargetChanges | src/context/GroupContext.jsx:42-75 | non-matching groups are unchanged; a matching group keeps id, name, members and creation date |
| GroupContext.UpdateAbsentGroup | src/context/GroupContext.jsx:43-44 | an action on an unknown group id changes nothing |
| GroupContext.AddedExpenseEffect | src/context/GroupContext.jsx:42-52 | adding an expense moves each member's balance by exactly that expense's effect |
| GroupContext.GroupStore.constructor | src/context/GroupContext.jsx:12-15 | the store starts from the saved list, or empty |
| GroupContext.GroupStore.AddGroup | src/context/GroupContext.jsx:23-32 | the new group, with no expenses, goes first; the others follow in order |
| GroupContext.GroupStore.DeleteGroup | src/context/GroupContext.jsx:34-36 | the list becomes `WithoutGroup` of the old list: the groups with the id are removed and the others kept in order, by `WithoutGroupKeepsOthers`, `WithoutGroupConcat` and `WithoutGroupSingle` |
| GroupContext.GroupStore.GetGroup | src/context/GroupContext.jsx:38-40 | returns the first group with the id, or nothing; the store is unchanged |
| GroupContext.GroupStore.AddExpense | src/context/GroupContext.jsx:42-52 | the new expense is prepended to the matching group only |
| GroupContext.GroupStore.DeleteExpense | src/context/GroupContext.jsx:55-63 | only the matching group changes, to its expenses without the id, the others kept in order (`OnlyTargetChanges`, `WithoutExpenseConcat`, `WithoutExpenseSingle`) |
| GroupContext.GroupStore.EditExpense | src/context/GroupContext.jsx:66-76 | the matching expense of the matching group is merged with the submitted data |
| StatsDashboard.ValidExpensesConcat | src/components/StatsDashboard.jsx:29 | filtering a joined list filters each part, so the kept expenses stay in order and each counts once per listing |
| StatsDashboard.ValidExpensesSingle | src/components/StatsDashboard.jsx:29 | a single expense is kept exactly when it is not a settlement |
| StatsDashboard.ValidExpensesExactly | src/components/StatsDashboard.jsx:29 | an expense is kept iff it is in the group and is not a settlement |
| StatsDashboard.Divisor | src/components/StatsDashboard.jsx:32 | the divisor is the member count, or 1 for a group without members |
| StatsDashboard.Average | src/components/StatsDashboard.jsx:32 | without members the average is the total |
| StatsDashboard.StatsTotals | src/components/StatsDashboard.jsx:29-32 | count is the number of non-settlement expenses, total their sum, and the average times the divisor is the total |
| StatsDashboard.CategoryFallbacks | src/components/StatsDashboard.jsx:56-66 | a missing, empty or `other` category gives an ad-hoc label from the description; a known key its config; an unknown key the `other` config |
| StatsDashboard.AddEffect | src/components/StatsDashboard.jsx:68-90 | adding to a key creates it at the end if new, raises only its value, and raises the total by the amount |
| StatsDashboard.AddDistinct | src/components/StatsDashboard.jsx:68-71 | adding keeps each key listed once |
| StatsDashboard.ClassifiedMeaning | src/components/StatsDashboard.jsx:52-72 | each label appears once, its value is the spending under that label, and the values add up to the total |
| StatsDashboard.ClassifiedLabels | src/components/StatsDashboard.jsx:52-72 | a label is present iff some expense is counted under it |
| StatsDashboard.Labels | src/components/StatsDashboard.jsx:53-66 | the label each expense is counted under, in order |
| StatsDashboard.CategoryTotals | src/components/StatsDashboard.jsx:50-72 | the category loop builds the tally that `ClassifiedMeaning` describes |
| StatsDashboard.CreditPaymentsEffect | src/components/StatsDashboard.jsx:86-88 | each payment entry adds its amount to its member, and the total by all payments |
| StatsDashboard.SpendingMeaning | src/components/StatsDashboard.jsx:83-92 | each payer appears once with everything they fronted: their own entries, or the whole amount for a bare name |
| StatsDashboard.AddPayments | src/components/StatsDashboard.jsx:86-88 | the inner loop computes `CreditPayments` |
| StatsDashboard.SpenderTotals | src/components/StatsDashboard.jsx:83-92 | the spender loop builds the tally that `SpendingMeaning` describes |
| StatsDashboard.ComputeStats | src/components/StatsDashboard.jsx:28-99 | the method returns `StatsOf(g)`, the figures the lemmas below describe |
| StatsDashboard.StatsCategories | src/components/StatsDashboard.jsx:74-80 | the categories are sorted largest first, each once, add up to the total, and each is its spending |
| StatsDashboard.StatsSpenders | src/components/StatsDashboard.jsx:94-96 | the spenders are sorted largest first, each once, and each is what they fronted |
| StatsDashboard.SortedKeepsMeaning | src/components/StatsDashboard.jsx:74-96 | sorting keeps every key's value and one entry per key |
| StatsDashboard.TallyTotalPermutation | src/components/StatsDashboard.jsx:74-80 | reordering the entries keeps their total |
| Text.Trim | src/components/AddExpenseForm.jsx:43 | trimming gives empty iff the text is all whitespace, else the text without leading and trailing whitespace |
| Text.TrimIdempotent | src/pages/CreateGroup.jsx:54 | trimming twice is trimming once |
| Text.Capitalize | src/components/StatsDashboard.jsx:23 | the first character is upper-cased and the rest kept |
| AddExpenseForm.WithoutConcat | src/components/AddExpenseForm.jsx:33 | filtering a joined selection filters each part, so the other names keep their order and multiplicity |
| AddExpenseForm.WithoutSingle | src/components/AddExpenseForm.jsx:33 | a single name is kept exactly when it is not the toggled one |
| AddExpenseForm.WithoutMembers | src/components/AddExpenseForm.jsx:33 | a name survives the filter iff it was selected and is not the toggled one |
| AddExpenseForm.ToggledMembers | src/components/AddExpenseForm.jsx:29-38 | the toggled member flips unless it is the only entry; everyone else stays |
| AddExpenseForm.ToggleKeepsSomeone | src/components/AddExpenseForm.jsx:31-34 | a selection without repeated names stays non-empty and free of repeats |
| AddExpenseForm.TogglesKeepSomeone | src/components/AddExpenseForm.jsx:29-38 | the same after any number of toggles |
| AddExpenseForm.RepeatedNameEmptiesSelection | src/components/AddExpenseForm.jsx:32-33 | the guard counts entries: `["Mario", "Mario"]` toggled on "Mario" becomes empty |
| AddExpenseForm.ToggleTwice | src/components/AddExpenseForm.jsx:29-38 | toggling a new member in and out restores the selection |
| AddExpenseForm.PrefillSelection | src/components/AddExpenseForm.jsx:25 | an edit starts from the saved participants, or every member when the record has none |
| AddExpenseForm.Validate | src/components/AddExpenseForm.jsx:40-64 | each refusal happens exactly under its condition, in check order; success yields the submitted data |
| AddExpenseForm.SubmittedData | src/components/AddExpenseForm.jsx:59-66 | submitted data has a positive amount, someone involved, and a description that is not blank |
| AddExpenseForm.ExpenseForm.constructor | src/components/AddExpenseForm.jsx:9-16 | a blank form with the first member as payer and everyone involved |
| AddExpenseForm.ExpenseForm.Prefill | src/components/AddExpenseForm.jsx:19-27 | the form takes the record's fields, with the participant fallback |
| AddExpenseForm.ExpenseForm.ToggleMember | src/components/AddExpenseForm.jsx:29-38 | only the selection changes, as `Toggled` says |
| AddExpenseForm.ExpenseForm.HandleSubmit | src/components/AddExpenseForm.jsx:40-67 | the data is handed on when valid, otherwise the first failing check's message is shown |
| CreateGroup.Removed | src/pages/CreateGroup.jsx:39 | removing an index in range drops exactly that field and keeps the rest in order; otherwise nothing changes |
| CreateGroup.RemoveCount | src/pages/CreateGroup.jsx:37-41 | with two fields or fewer nothing is removed; otherwise exactly one field goes and the others shift down in order |
| CreateGroup.Edit | src/pages/CreateGroup.jsx:20-41 | a change replaces only its field and keeps the length; adding appends one empty field |
| CreateGroup.AlwaysTwoFields | src/pages/CreateGroup.jsx:15-41 | from two fields, no run of edits leaves fewer than two |
| CreateGroup.TrimmedAt | src/pages/CreateGroup.jsx:54 | entry k of the trimmed list is field k, trimmed |
| CreateGroup.FilledConcat | src/pages/CreateGroup.jsx:54 | filtering out empty names from a joined list filters each part |
| CreateGroup.FilledMembers | src/pages/CreateGroup.jsx:54 | a name survives the filter iff it is present and not empty |
| CreateGroup.ValidMembersMeaning | src/pages/CreateGroup.jsx:54 | valid members are exactly the trimmed non-blank fields, never more than the fields; the last field adds its trimmed text at the end unless it is blank, so the order and multiplicity of the fields are kept |
| CreateGroup.ValidMembersConcat | src/pages/CreateGroup.jsx:54 | the valid members of joined field lists are those of each part, in order |
| CreateGroup.ValidMembersSingle | src/pages/CreateGroup.jsx:54 | one field gives its trimmed text, or nothing when blank |
| CreateGroup.AllFilledKept | src/pages/CreateGroup.jsx:54 | with no blank field, every field becomes a member, trimmed |
| CreateGroup.SubmitErrorsMeaning | src/pages/CreateGroup.jsx:46-64 | a name error iff the name is blank, a general error iff fewer than two valid members, a field error iff that field is blank, each with its message |
| CreateGroup.NoErrorsMeansAllFilled | src/pages/CreateGroup.jsx:66-76 | without errors the name is not blank, and every field becomes one of at least two members |
| CreateGroup.TooFewMeansBlankField | src/pages/CreateGroup.jsx:55-64 | with two fields or more, too few members means some field is flagged |
| CreateGroup.CollectErrors | src/pages/CreateGroup.jsx:46-64 | the checks and the per-field loop build `SubmitErrors` |
| CreateGroup.Shown | src/pages/CreateGroup.jsx:68 | the shown errors have the same keys, each with its message |
| CreateGroup.GroupForm.constructor | src/pages/CreateGroup.jsx:14-17 | an empty name, two blank fields, no errors, not submitting |
| CreateGroup.GroupForm.HandleNameChange | src/pages/CreateGroup.jsx:103-106 | the name is replaced, and a shown name error is cleared to null |
| CreateGroup.GroupForm.HandleMemberChange | src/pages/CreateGroup.jsx:20-29 | only that field changes, and its shown error is cleared to null |
| CreateGroup.GroupForm.AddMemberField | src/pages/CreateGroup.jsx:32-34 | one empty field is appended |
| CreateGroup.GroupForm.RemoveMemberField | src/pages/CreateGroup.jsx:37-41 | no change at two fields or fewer, else the field at the index is dropped; at least two fields remain |
| CreateGroup.GroupForm.HandleSubmit | src/pages/CreateGroup.jsx:44-80 | without errors, submits the name and valid members and sets the submitting flag; otherwise shows the errors and creates nothing |

## Left out

- Persistence: `localStorage` reads and writes and the JSON round trip are not modelled. The store's constructor takes the saved list as a parameter.
- Fresh ids (`crypto.randomUUID`) and timestamps are parameters. Freshness of an expense id is a precondition of `GroupContext.DeleteUndoesAdd`.
- The `setTimeout` delay before `addGroup` is not modelled. Neither is the navigation that follows. `CreateGroup.GroupForm.HandleSubmit` returns the name and members that would be passed to `addGroup`.
- Floating point: amounts are exact reals, so rounding drift is absent. `Math.round` is modelled exactly on reals, with halves rounding up as in JavaScript.
- `parseFloat` is not modelled. The form receives its result as an optional number, with `None` standing for `NaN`. `amount.toString()` in the edit prefill is also a parameter.
- The statistics timeline is not modelled, because it depends on date parsing and locale formatting.
- Rendering, routing, sharing and the Firebase services are not modelled.
- Quirks of JavaScript objects used as dictionaries are not modelled:
  - inherited prototype keys such as `constructor`, which `CATEGORY_CONFIG[key]` and `balances[name] !== undefined` would find;
  - integer-like keys, which `Object.entries` lists first.
- Non-string member names are not modelled.
- `Text.Capitalize`: upper-cases ASCII letters only. Full Unicode case mapping is not modelled.
- Sorting: `Sorting.SortBy` is a stable insertion sort, and `Sorting.SortByStable` proves the stability. It stands for the engine's `Array.prototype.sort` with a numeric comparator, which is stable since ES2019.
- `GroupContext.Merge`: `updatedData` is the form's four fields. A spread of arbitrary extra keys is not modelled.
- `AddExpenseForm.ToggleKeepsSomeone`: requires a selection without repeated names. With a repeated name the guard lets the selection become empty (`AddExpenseForm.RepeatedNameEmptiesSelection`). The form starts from the member list, which the group form does not de-duplicate.
- `AddExpenseForm.ExpenseForm.constructor`: requires at least one member. With no members the source's initial payer is `undefined`.
- `CreateGroup.GroupForm.HandleMemberChange`: requires an index of an existing field. The form only calls it for rendered fields, so an assignment past the end, which would leave holes in the array, is not modelled. `CreateGroup.Edit` ignores such a change for the same reason.
- `BalanceService.PlanSettlesEveryone`: requires the rounded debts and credits to cancel out. Rounding each balance separately can break that, and then only the bounds of `BalanceService.PlanWithinBalances` hold.
- `BalanceService.PlanWithinBalances`: requires distinct member names among the entries. Object keys are distinct, and `BalanceService.BalanceEntries` provides that.
