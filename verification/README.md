# Splitzy shared-expense bookkeeping, modelled in Dafny

Splitzy is a shared-expense tracker. Members belong to groups. Each expense of a
group has a payer and a split among members. The dashboard shows what each member
of the selected group owes or is owed. This project models the in-memory
bookkeeping behind those screens and proves properties about it:

- **Dashboard** (`dashboard.dfy`, `dashboard_laws.dfy`): the selected group's
  expenses, newest first (a stable date sort); one balance per group member,
  computed as `paid − share`; the group's total; and the append that records a
  new expense.
- **Ledger** (`ledger.dfy`): a reference meaning for balances, built expense by
  expense. It also holds the conservation law: with exact splits, payers and
  participants on the roster, and distinct member ids, the balances sum to zero.
- **Expense form** (`add_expense_dialog.dfy`): the schema's field bounds and its
  split-sum refinement, the equal and custom split constructions, the
  submit-only-if-valid wrapper, the defaults, and the red live total.
- **Settle up** (`settle_up_dialog.dfy`): debtors and creditors, the
  `(name, balance)` request sent to the settlement suggester, and the dialog's
  `loading` / `suggestion` / `error` state.
- **Balance summary** (`balance_summary.dfy`): each card's status label and
  amount colour.
- **Fixtures** (`data.dfy`, `seed_facts.dfy`): the seed members, groups and
  expenses, with concrete lemmas about them.

Amounts are exact `real`s. A date is the millisecond time value that
`new Date(...).getTime()` gives for the stored ISO string. The seed dates are
those values at UTC midnight.

The repository has no settlement algorithm. "Suggest Optimal Settlement" sends
the `(name, balance)` list to a generative text model, which answers in free
text. So the model stops at the request that is sent and the dialog state around
the call. Each call's outcome is a parameter (`CallOutcome`). The dashboard does not check that payers and
participants belong to the group. It does not check that splits add up to the
amount either. Those conditions appear here as hypotheses of the conservation
lemmas, not as errors raised by the dashboard.

## Model

| member | source | states |
|---|---|---|
| Dashboard.FindGroup | src/components/dashboard.tsx:24-26 | the selected group is the first group with the selected id, or none when no group has it |
| Dashboard.GroupExpenses | src/components/dashboard.tsx:28-30 | the view holds exactly the expenses of the selected group (a permutation of that filter), ordered newest first |
| Dashboard.SortByDateDesc | src/components/dashboard.tsx:29 | the sort returns a permutation of its input, ordered by date descending |
| Dashboard.SortIsStable | src/components/dashboard.tsx:29 | expenses that share a date keep their original relative order, as a stable sort requires |
| Dashboard.FlatSplits | src/components/dashboard.tsx:41 | the flattened splits contain exactly the entries of the expenses' splits |
| Dashboard.FlatSplitsKeepOrder | src/components/dashboard.tsx:41 | flattening a concatenation concatenates the flattenings, and one expense contributes exactly its split, so order and repeats are kept |
| Dashboard.AmountsAreNet | src/components/dashboard.tsx:36-43 | `paid − share`, computed by filtering and flattening, equals the per-expense reference net balance |
| Dashboard.MemberBalances | src/components/dashboard.tsx:35-50 | one balance per member, in member order; id, name and avatar are copied; the balance is the member's net over the expenses |
| Dashboard.Balances | src/components/dashboard.tsx:32-52 | empty with no selected group; otherwise one entry per group member, in order, carrying that member's net balance |
| Dashboard.TotalExpenses | src/components/dashboard.tsx:54-56 | the total adds up the listed amounts and is never negative while no amount is |
| Dashboard.AddExpense | src/components/dashboard.tsx:58-65 | exactly one expense is appended at the end, stamped `e<stamp>` with the selected group; earlier expenses are unchanged |
| DashboardLaws.BalancesIgnoreOrder | src/components/dashboard.tsx:29-43 | balances depend only on the multiset of expenses, not on their order |
| DashboardLaws.SortLeavesBalances | src/components/dashboard.tsx:28-56 | the date sort changes neither any balance nor the total |
| DashboardLaws.BalancesSumToShortfall | src/components/dashboard.tsx:32-52 | with payers and participants on the roster and distinct ids, the balances sum to the total by which splits fall short of amounts |
| DashboardLaws.BalancesConserve | src/components/dashboard.tsx:32-52 | with exact splits, on-roster payers and participants and distinct member ids, the displayed balances sum to zero |
| DashboardLaws.TotalIsMembersPaid | src/components/dashboard.tsx:54-56 | with distinct member ids and every payer on the roster, the total of the group's expenses equals the members' paid amounts added over the roster |
| DashboardLaws.AddExpenseShiftsBalances | src/components/dashboard.tsx:58-65 | after an append the view gains exactly the new expense, and each member's balance moves by what they paid of it minus their share of it |
| DashboardLaws.AddExpenseShiftsBalanceSum | src/components/dashboard.tsx:58-65 | with distinct member ids and the new expense's payer and participants on the roster, recording it moves the balance sum by exactly its split shortfall, whatever the earlier expenses are |
| DashboardLaws.AddExpenseRaisesTotal | src/components/dashboard.tsx:54-65 | recording an expense raises the selected group's total by exactly its amount |
| DashboardLaws.AddExpenseLeavesOtherGroups | src/components/dashboard.tsx:58-65 | an append to the selected group leaves every other group's expense view as it was |
| Ledger.NetOfPermutation | src/components/dashboard.tsx:36-43 | a member's net balance is invariant under reordering the expenses |
| Ledger.NetOfAppend | src/components/dashboard.tsx:58-65 | appending an expense adds that expense's paid-minus-owed to a member's net balance |
| Ledger.PaidAcross | src/components/dashboard.tsx:36-38 | when every payer is on a roster with distinct ids, the members' paid totals add up to the expenses' total |
| Ledger.OwedSumAcross | src/components/dashboard.tsx:40-43 | when every participant is on a roster with distinct ids, the members' owed totals add up to the splits' total |
| Ledger.NetAcross | src/components/dashboard.tsx:32-52 | with distinct member ids and every payer and participant on the roster, the roster's net balances add up to the expenses' total split shortfall |
| Ledger.ShiftAcross | src/components/dashboard.tsx:32-65 | over a roster of distinct ids holding an expense's payer and participants, the balance shifts that expense makes add up to its split shortfall |
| Ledger.Conservation | src/components/dashboard.tsx:32-52 | with distinct member ids, every payer and participant on the roster and exact splits, the roster's net balances sum to zero |
| ExpenseForm.NegativeShares | src/components/add-expense-dialog.tsx:28-31 | every issue names an in-range index whose share is negative; none iff every share is at least 0 |
| ExpenseForm.NegativeSharesExact | src/components/add-expense-dialog.tsx:28-31 | the issue for an index is reported iff the share at that index is negative |
| ExpenseForm.NegativeSharesOrdered | src/components/add-expense-dialog.tsx:28-31 | the share issues come in strictly increasing index order, so no share is reported twice |
| ExpenseForm.FormIssues | src/components/add-expense-dialog.tsx:22-41 | no issue iff the description is non-empty, amount ≥ 0.01, the payer is set, no share is negative and (custom ⇒ the shares are within 0.01 of the amount); each issue, including the one per share index, is present iff its check fails |
| ExpenseForm.EqualSplit | src/components/add-expense-dialog.tsx:76-78 | one entry per group member, in member order, each equal to the amount divided by the member count |
| ExpenseForm.EqualSplitSum | src/components/add-expense-dialog.tsx:76-78 | with at least one member, the equal split adds up exactly to the amount |
| ExpenseForm.PositiveShares | src/components/add-expense-dialog.tsx:80 | the custom split keeps exactly the shares above zero, each as many times as it occurs |
| ExpenseForm.PositiveSharesKeepOrder | src/components/add-expense-dialog.tsx:80 | the kept shares are those of each part in turn, a share contributing itself iff above zero, so the original order is kept |
| ExpenseForm.PositiveSharesSum | src/components/add-expense-dialog.tsx:80 | when no share is negative, dropping the zero shares keeps the split's total |
| ExpenseForm.OnSubmit | src/components/add-expense-dialog.tsx:74-87 | the draft carries the form's description, amount, payer and date; its split is the equal split, or exactly `PositiveShares` of the custom shares |
| ExpenseForm.Submit | src/components/add-expense-dialog.tsx:105 | submission succeeds iff the schema accepts the values, then yields `onSubmit`'s draft; otherwise it fails with a non-empty issue list |
| ExpenseForm.DefaultCustomSplits | src/components/add-expense-dialog.tsx:62 | the default custom split has one zero share per member, in member order |
| ExpenseForm.ValidDraftSplit | src/components/add-expense-dialog.tsx:32-81 | on values that pass the schema, the built custom split is within 0.01 of the amount, the equal split over at least one group member adds up exactly, and every share is positive |
| ExpenseForm.AcceptedSplit | src/components/add-expense-dialog.tsx:32-81 | an accepted custom split is within 0.01 of the amount, an accepted equal split over at least one group member adds up exactly, and every share handed on is strictly positive |
| ExpenseForm.DefaultsRejected | src/components/add-expense-dialog.tsx:56-63 | the form as it opens fails on description, amount and payer |
| ExpenseForm.CustomDefaultsRejected | src/components/add-expense-dialog.tsx:24-36 | a custom submission with every share left at 0 is always rejected |
| ExpenseForm.TotalWarning | src/components/add-expense-dialog.tsx:190 | the total is red iff the shares exceed the amount by more than 0.01 or fall short of it by more than 0.01 |
| ExpenseForm.WarningImpliesRejection | src/components/add-expense-dialog.tsx:190 | a red total implies a rejected custom split; at a gap of exactly 0.01 the split is rejected and the total is not red |
| ExpenseForm.BoundaryGapExample | src/components/add-expense-dialog.tsx:190 | a concrete form, a share of 0.01 against an amount of 0.02, rejected only by the refinement and shown without the red total (the gap is exactly 0.01 in binary floating point too) |
| ExpenseForm.OnSubmitStaysOnRoster | src/components/add-expense-dialog.tsx:74-81 | the split built on submit names only group members: always for an equal split, and for a custom split when the custom shares do |
| ExpenseForm.SubmittedExpenseKeepsLedgerBalanced | src/components/add-expense-dialog.tsx:74-89 | with a non-empty group of distinct member ids, the payer on the roster and, for a custom split, every custom-share id on the roster, recording an accepted submission moves the balance sum by less than 0.01 (custom) or not at all (equal), whatever the earlier expenses are |
| SettleUp.Debtors | src/components/settle-up-dialog.tsx:24 | exactly the balances below zero, each as many times as it occurs |
| SettleUp.DebtorsKeepOrder | src/components/settle-up-dialog.tsx:24 | the debtors of a concatenation are those of each part in turn, a balance contributing itself iff below zero, so the original order is kept |
| SettleUp.Creditors | src/components/settle-up-dialog.tsx:25 | exactly the balances above zero, each as many times as it occurs |
| SettleUp.CreditorsKeepOrder | src/components/settle-up-dialog.tsx:25 | the creditors of a concatenation are those of each part in turn, a balance contributing itself iff above zero, so the original order is kept |
| SettleUp.PartitionIsExact | src/components/settle-up-dialog.tsx:24-25 | debtors and creditors are disjoint, settled members are in neither, and the three counts add up to the number of balances |
| SettleUp.PartitionSum | src/components/settle-up-dialog.tsx:24-25 | the balance total is the debtors' total plus the creditors' total |
| SettleUp.DebtEqualsCredit | src/components/settle-up-dialog.tsx:24-25 | on a zero-sum ledger, the debtors' absolute amounts add up to the creditors' amounts |
| SettleUp.SettlementInput | src/components/settle-up-dialog.tsx:32-34 | the request has the same length and order as the balances, each entry carrying name and balance |
| SettleUp.SettlementInputKeepsTotal | src/components/settle-up-dialog.tsx:32-34 | the request's balances add up to the ledger's total |
| SettleUp.StartSuggest | src/components/settle-up-dialog.tsx:28-30 | starting a call sets loading and clears both outputs |
| SettleUp.FinishSuggest | src/components/settle-up-dialog.tsx:31-41 | completion clears loading and sets the instructions on success, or the fixed message on failure, leaving the other output as it was |
| SettleUp.HandleSuggest | src/components/settle-up-dialog.tsx:27-43 | after one whole call loading is off and exactly one of suggestion and error is set, matching the outcome |
| SettleUp.HandleOpenChange | src/components/settle-up-dialog.tsx:45-52 | closing resets the local state, opening leaves it unchanged; the flag is passed on |
| SettleUp.StaleResultShowsBoth | src/components/settle-up-dialog.tsx:27-52 | with the code as written, a stale result after close, reopen and a second press leaves both a suggestion and an error |
| SettleUp.TaggedStep | src/components/settle-up-dialog.tsx:27-52 | with each call tagged, every step keeps the dialog consistent, and a current result sets exactly one output |
| SettleUp.TaggedRunStaysConsistent | src/components/settle-up-dialog.tsx:27-52 | with each call tagged, no sequence of events ever shows both a suggestion and an error |
| SettleUp.TaggedStaleResultDropped | src/components/settle-up-dialog.tsx:27-52 | the stale-result trace on tagged calls drops the late success and shows only the error |
| BalanceSummary.StatusOf | src/components/balance-summary.tsx:41 | "Settled up" iff the balance is 0, "is owed" iff above 0, "owes" iff below 0 |
| BalanceSummary.ToneOf | src/components/balance-summary.tsx:37 | the destructive colour iff the balance is below 0 |
| BalanceSummary.Cards | src/components/balance-summary.tsx:27-28 | one card per balance, in input order, keyed by member id, with the status and colour its balance's sign selects; red exactly when it reads "owes" |
| BalanceSummary.CardTextFollowsBalance | src/components/balance-summary.tsx:27-41 | a card reads "owes" iff its balance is below zero, "is owed" iff above, "Settled up" iff zero |
| BalanceSummary.SettledIsNotDestructive | src/components/balance-summary.tsx:37-41 | a settled balance takes the positive colour |
| BalanceSummary.StatusAgreesWithSettleUp | src/components/balance-summary.tsx:41 | "owes" iff in settle-up's debtors, "is owed" iff in its creditors, "Settled up" iff in neither |
| BalanceSummary.CardKeysUnique | src/components/balance-summary.tsx:28 | card keys are distinct when the balances' member ids are |
| BalanceSummary.DashboardCardKeysUnique | src/components/balance-summary.tsx:28 | the dashboard's cards have distinct keys when the group's member ids are distinct |
| SeedFacts.MemberIdsDistinct | src/app/data.ts:3-89 | member ids 1 to 5 are pairwise distinct, and so are expense ids e1 to e5 |
| SeedFacts.SplitTotals | src/app/data.ts:24-89 | the seed splits add up to 90, 50, 120, 60 and 25, exactly their amounts |
| SeedFacts.GroupExpenseLists | src/app/data.ts:24-89 | the trip lists Dinner, Groceries, Gas (same-date ties in fixture order); the project lists Pizza, Server Hosting |
| SeedFacts.RostersCoverExpenses | src/app/data.ts:11-89 | every payer and participant of a group's seed expenses is a member of that group |
| SeedFacts.InitialSelection | src/components/dashboard.tsx:18-26 | on mount the first seed group is selected; selecting g2 selects the weekend project |
| SeedFacts.TripBalances | src/app/data.ts:24-62 | trip balances: Alice −5, Bob −45, Charlie +50; total 260 |
| SeedFacts.ProjectBalances | src/app/data.ts:63-89 | project balances: Alice −30, Diana +30, Ethan 0; total 85 |
| SeedFacts.TripConserves | src/app/data.ts:24-62 | the trip's balances sum to 0, derived from the conservation lemma |
| SeedFacts.ProjectConserves | src/app/data.ts:63-89 | the project's balances sum to 0, derived from the conservation lemma |
| SeedFacts.EqualSplitsInFixtures | src/app/data.ts:24-75 | Groceries, Dinner and Server Hosting are exactly the equal split over their group |
| SeedFacts.FixturesWithinFormBounds | src/app/data.ts:24-89 | every seed expense has an amount of at least 0.01 and no negative share |
| SeedFacts.StaleRowsEqualSubmission | src/components/add-expense-dialog.tsx:56-63 | with the weekend project selected and the trip's custom rows still in the form, an equal split of 30 paid by Diana is accepted and leaves the balance sum unchanged |
| SeedFacts.EthanSettled | src/app/data.ts:63-89 | in the project Alice is the only debtor and Diana the only creditor; Ethan reads "Settled up" in the positive colour |

## Findings

| source | as written | input that shows it | evidently intended | confidence | as-written member | corrected member |
|---|---|---|---|---|---|---|
| src/components/settle-up-dialog.tsx:27-52 | a suggestion call still in flight when the dialog closes writes its result into the dialog later, whatever request is current | press Suggest; close; reopen; press Suggest again; the first call returns instructions, then the second throws | only the latest call's result is shown, so a finished call leaves exactly one of suggestion and error | not executed; medium | SettleUp.StaleResultShowsBoth | SettleUp.TaggedRunStaysConsistent |

`SettleUp.FinishSuggest` models the completion as written. `SettleUp.TaggedStep`
is the corrected dialog. It numbers each call and drops any result whose number
is no longer current.

## Left out

- The settlement suggestion flow (`suggest-optimal-settlement.ts`) calls an external generative model and returns free text. Only its input is modelled; its outcome is the `CallOutcome` parameter.
- Binary floating point: JavaScript numbers are exact `real`s here. The 0.01 tolerances are literal constants. Rounding effects such as `100 / 3` are not represented.
- React rendering, the form library's runtime, zod's coercion of non-numeric input (NaN), dialogs, tabs, calendar, toasts and `form.reset()`. Only the schema predicate, `onSubmit` and the state transitions are modelled.
- Date parsing and formatting. A date is an integer time value, and invalid dates are not represented. The `Date.now()` digits in a new expense id are the `stamp` parameter.
- `formatCurrency` and the avatar-image lookup. Their files are not part of this model.
- `header.tsx`, `group-selector.tsx` and `expense-list.tsx` only present data or pass props through.
- ExpenseForm.OnSubmit: does not model the extra `splitType` and `customSplits` fields that the object spread copies into the stored expense at runtime. No code reads them.
- ExpenseForm.TotalWarning: assumes the watched share values are numbers. Inputs the form library keeps as strings would be concatenated by the live `reduce`. That is form-library behaviour outside the model.
- The form stays mounted when the selected group changes, and it is reset only after a successful submit, not when it is closed. So a chosen payer survives a group switch. The custom-share rows are built once, from the group selected when the form is created; a reset restores those same rows, and they are labelled with the current group's members. So a custom split submitted after a switch names the first group's member ids, and a stale payer can sit outside the group. Such an expense breaks the roster hypotheses of `AddExpenseShiftsBalanceSum` and `SubmittedExpenseKeepsLedgerBalanced`: the payer, and for a custom split the custom-share ids. Once it is recorded, it also breaks the hypotheses on the whole history of `BalancesConserve`, `BalancesSumToShortfall`, `TotalIsMembersPaid`, `NetAcross` and `Conservation`. An equal split never names a participant outside the group, because it names exactly the current members; only its payer can be stale. The model takes the form's values as given and does not model how they carry over across a switch.
- Issue messages: the schema's error texts are not modelled. Only which check failed is kept.
- The summation `reduce` is modelled as a right fold. Over exact reals the order of additions makes no difference.
