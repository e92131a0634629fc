/** The fixtures, checked against the model: distinct ids, exact splits on
    the group rosters, the newest-first expense lists, and the balances and
    totals the dashboard shows for each group. */
module SeedFacts {
  import opened Types
  import opened Seqs
  import opened Ledger
  import opened Dashboard
  import opened SeedData
  import DashboardLaws
  import ExpenseForm
  import SettleUp
  import BalanceSummary

  lemma MemberIdsDistinct()
    ensures DistinctIds(Members)
    ensures forall i, j :: 0 <= i < j < |Expenses| ==> Expenses[i].id != Expenses[j].id
  {
  }

  lemma SplitTotals()
    ensures SplitSum(Groceries.split) == 90.0 && SplitSum(Gas.split) == 50.0
    ensures SplitSum(Dinner.split) == 120.0 && SplitSum(ServerHosting.split) == 60.0
    ensures SplitSum(Pizza.split) == 25.0
    ensures SplitsExact(Expenses)
  {
    assert SplitSum(Groceries.split) == 90.0;
    assert SplitSum(Gas.split) == 50.0;
    assert SplitSum(Dinner.split) == 120.0;
    assert SplitSum(ServerHosting.split) == 60.0;
    assert SplitSum(Pizza.split) == 25.0;
  }

  // Unfolding helpers for short literal sequences.

  lemma SumOfTwo<T>(a: T, b: T, f: T -> real)
    ensures Sum([a, b], f) == f(a) + f(b)
  {
    assert [a, b][1..] == [b];
    assert [b][1..] == [];
    assert Sum([b], f) == f(b) + Sum([], f);
  }

  lemma SumOfThree<T>(a: T, b: T, c: T, f: T -> real)
    ensures Sum([a, b, c], f) == f(a) + f(b) + f(c)
  {
    assert [a, b, c][1..] == [b, c];
    SumOfTwo(b, c, f);
  }

  lemma OwedOfTwo(a: SplitEntry, b: SplitEntry, id: string)
    ensures Owed([a, b], id) == Owed([a], id) + Owed([b], id)
  {
    assert [a, b][1..] == [b];
  }

  lemma OwedOfThree(a: SplitEntry, b: SplitEntry, c: SplitEntry, id: string)
    ensures Owed([a, b, c], id) == Owed([a], id) + Owed([b], id) + Owed([c], id)
  {
    assert [a, b, c][1..] == [b, c];
    OwedOfTwo(b, c, id);
  }

  lemma TailsOfExpenses()
    ensures Expenses[1..] == [Gas, Dinner, ServerHosting, Pizza]
    ensures [Gas, Dinner, ServerHosting, Pizza][1..] == [Dinner, ServerHosting, Pizza]
    ensures [Dinner, ServerHosting, Pizza][1..] == [ServerHosting, Pizza]
    ensures [ServerHosting, Pizza][1..] == [Pizza]
    ensures [Pizza][1..] == []
  {
  }

  lemma FilterTripTail()
    ensures Filter([Dinner, ServerHosting, Pizza], InGroup("g1")) == [Dinner]
  {
    var g1 := InGroup("g1");
    TailsOfExpenses();
    assert Filter([Pizza], g1) == [];
    assert Filter([ServerHosting, Pizza], g1) == [];
  }

  lemma FilterTrip()
    ensures Filter(Expenses, InGroup("g1")) == [Groceries, Gas, Dinner]
  {
    var g1 := InGroup("g1");
    TailsOfExpenses();
    FilterTripTail();
    assert Filter([Gas, Dinner, ServerHosting, Pizza], g1) == [Gas, Dinner];
  }

  lemma FilterProject()
    ensures Filter(Expenses, InGroup("g2")) == [ServerHosting, Pizza]
  {
    var g2 := InGroup("g2");
    TailsOfExpenses();
    assert Filter([Pizza], g2) == [Pizza];
    assert Filter([ServerHosting, Pizza], g2) == [ServerHosting, Pizza];
    assert Filter([Dinner, ServerHosting, Pizza], g2) == [ServerHosting, Pizza];
    assert Filter([Gas, Dinner, ServerHosting, Pizza], g2) == [ServerHosting, Pizza];
  }

  lemma SortTrip()
    ensures SortByDateDesc([Groceries, Gas, Dinner]) == [Dinner, Groceries, Gas]
  {
    assert [Groceries, Gas, Dinner][1..] == [Gas, Dinner];
    assert [Gas, Dinner][1..] == [Dinner];
    assert [Dinner][1..] == [];
    assert SortByDateDesc([Dinner]) == [Dinner];
    assert SortByDateDesc([Gas, Dinner]) == [Dinner, Gas];
    assert [Dinner, Gas][1..] == [Gas];
    assert InsertByDate(Groceries, [Gas]) == [Groceries, Gas];
    assert SortByDateDesc([Groceries, Gas, Dinner]) == InsertByDate(Groceries, [Dinner, Gas]);
  }

  lemma SortProject()
    ensures SortByDateDesc([ServerHosting, Pizza]) == [Pizza, ServerHosting]
  {
    assert [ServerHosting, Pizza][1..] == [Pizza];
    assert [Pizza][1..] == [];
    assert SortByDateDesc([Pizza]) == [Pizza];
    assert SortByDateDesc([ServerHosting, Pizza]) == InsertByDate(ServerHosting, [Pizza]);
  }

  /** The dashboard lists the trip's Dinner first, then Groceries before Gas
      (same date, fixture order); the project's Pizza before Server Hosting. */
  lemma GroupExpenseLists()
    ensures GroupExpenses(Expenses, "g1") == [Dinner, Groceries, Gas]
    ensures GroupExpenses(Expenses, "g2") == [Pizza, ServerHosting]
  {
    FilterTrip();
    FilterProject();
    SortTrip();
    SortProject();
  }

  lemma RosterIds()
    ensures MemberIds(TripToMountains.members) == ["1", "2", "3"]
    ensures MemberIds(WeekendProject.members) == ["1", "4", "5"]
  {
  }

  lemma TripOnRoster()
    ensures InRoster(TripToMountains.members, [Dinner, Groceries, Gas])
  {
    RosterIds();
    var trip := TripToMountains.members;
    assert OnRoster(trip, Dinner);
    assert OnRoster(trip, Groceries);
    assert OnRoster(trip, Gas);
  }

  lemma ProjectOnRoster()
    ensures InRoster(WeekendProject.members, [Pizza, ServerHosting])
  {
    RosterIds();
    var project := WeekendProject.members;
    assert OnRoster(project, Pizza);
    assert OnRoster(project, ServerHosting);
  }

  /** Every payer and participant of a group's fixture expenses is a member of it. */
  lemma RostersCoverExpenses()
    ensures InRoster(TripToMountains.members, GroupExpenses(Expenses, "g1"))
    ensures InRoster(WeekendProject.members, GroupExpenses(Expenses, "g2"))
  {
    GroupExpenseLists();
    TripOnRoster();
    ProjectOnRoster();
  }

  lemma InitialSelection()
    ensures SelectedGroup(Initial) == Some(TripToMountains)
    ensures SelectedGroup(SelectGroup(Initial, "g2")) == Some(WeekendProject)
  {
    assert Groups[1..] == [WeekendProject];
  }

  lemma TripNets(id: string)
    ensures NetOf([Dinner, Groceries, Gas], id)
      == Paid(Dinner, id) + Paid(Groceries, id) + Paid(Gas, id)
       - Owed([SplitEntry("1", 40.0)], id) - Owed([SplitEntry("2", 40.0)], id) - Owed([SplitEntry("3", 40.0)], id)
       - Owed([SplitEntry("1", 30.0)], id) - Owed([SplitEntry("2", 30.0)], id) - Owed([SplitEntry("3", 30.0)], id)
       - Owed([SplitEntry("1", 25.0)], id) - Owed([SplitEntry("2", 25.0)], id)
  {
    SumOfThree(Dinner, Groceries, Gas, PaidTo(id));
    SumOfThree(Dinner, Groceries, Gas, OwedBy(id));
    OwedOfThree(SplitEntry("1", 40.0), SplitEntry("2", 40.0), SplitEntry("3", 40.0), id);
    OwedOfThree(SplitEntry("1", 30.0), SplitEntry("2", 30.0), SplitEntry("3", 30.0), id);
    OwedOfTwo(SplitEntry("1", 25.0), SplitEntry("2", 25.0), id);
  }

  lemma ProjectNets(id: string)
    ensures NetOf([Pizza, ServerHosting], id)
      == Paid(Pizza, id) + Paid(ServerHosting, id)
       - Owed([SplitEntry("1", 10.0)], id) - Owed([SplitEntry("4", 10.0)], id) - Owed([SplitEntry("5", 5.0)], id)
       - Owed([SplitEntry("1", 20.0)], id) - Owed([SplitEntry("4", 20.0)], id) - Owed([SplitEntry("5", 20.0)], id)
  {
    SumOfTwo(Pizza, ServerHosting, PaidTo(id));
    SumOfTwo(Pizza, ServerHosting, OwedBy(id));
    OwedOfThree(SplitEntry("1", 10.0), SplitEntry("4", 10.0), SplitEntry("5", 5.0), id);
    OwedOfThree(SplitEntry("1", 20.0), SplitEntry("4", 20.0), SplitEntry("5", 20.0), id);
  }

  lemma TripNetValues()
    ensures NetOf([Dinner, Groceries, Gas], "1") == -5.0
    ensures NetOf([Dinner, Groceries, Gas], "2") == -45.0
    ensures NetOf([Dinner, Groceries, Gas], "3") == 50.0
  {
    TripNets("1");
    TripNets("2");
    TripNets("3");
  }

  lemma ProjectNetValues()
    ensures NetOf([Pizza, ServerHosting], "1") == -30.0
    ensures NetOf([Pizza, ServerHosting], "4") == 30.0
    ensures NetOf([Pizza, ServerHosting], "5") == 0.0
  {
    ProjectNets("1");
    ProjectNets("4");
    ProjectNets("5");
  }

  lemma TripBalanceList()
    ensures Balances(Some(TripToMountains), [Dinner, Groceries, Gas]) == [
      Balance("1", "Alice", "avatar-alice", -5.0),
      Balance("2", "Bob", "avatar-bob", -45.0),
      Balance("3", "Charlie", "avatar-charlie", 50.0)]
  {
    TripNetValues();
  }

  lemma ProjectBalanceList()
    ensures Balances(Some(WeekendProject), [Pizza, ServerHosting]) == [
      Balance("1", "Alice", "avatar-alice", -30.0),
      Balance("4", "Diana", "avatar-diana", 30.0),
      Balance("5", "Ethan", "avatar-ethan", 0.0)]
  {
    ProjectNetValues();
  }

  /** The trip, selected on mount: Alice owes 5, Bob owes 45, Charlie is owed 50; 260 spent. */
  lemma TripBalances()
    ensures BalancesView(Initial) == [
      Balance("1", "Alice", "avatar-alice", -5.0),
      Balance("2", "Bob", "avatar-bob", -45.0),
      Balance("3", "Charlie", "avatar-charlie", 50.0)]
    ensures TotalView(Initial) == 260.0
  {
    InitialSelection();
    GroupExpenseLists();
    TripBalanceList();
    SumOfThree(Dinner, Groceries, Gas, ExpenseAmount);
  }

  /** The weekend project: Alice owes 30, Diana is owed 30, Ethan is settled; 85 spent. */
  lemma ProjectBalances()
    ensures BalancesView(SelectGroup(Initial, "g2")) == [
      Balance("1", "Alice", "avatar-alice", -30.0),
      Balance("4", "Diana", "avatar-diana", 30.0),
      Balance("5", "Ethan", "avatar-ethan", 0.0)]
    ensures TotalView(SelectGroup(Initial, "g2")) == 85.0
  {
    InitialSelection();
    GroupExpenseLists();
    ProjectBalanceList();
    SumOfTwo(Pizza, ServerHosting, ExpenseAmount);
  }

  lemma GroupSplitsExact()
    ensures SplitsExact([Dinner, Groceries, Gas])
    ensures SplitsExact([Pizza, ServerHosting])
  {
    SplitTotals();
  }

  lemma RostersDistinct()
    ensures DistinctIds(TripToMountains.members) && DistinctIds(WeekendProject.members)
  {
  }

  /** After a switch to the weekend project the form still holds the trip's
      custom rows. An equal split paid by Diana is accepted all the same and
      leaves the balance sum where it was. */
  lemma StaleRowsEqualSubmission(stamp: string)
    ensures var st := SelectGroup(Initial, "g2");
      var v := ExpenseForm.FormValues("Tools", 30.0, "4", 0, ExpenseForm.Equally,
                                      ExpenseForm.DefaultCustomSplits(TripToMountains.members));
      && ExpenseForm.Submit(v, WeekendProject.members).Success?
      && DashboardLaws.BalanceSum(HandleAddExpense(st, ExpenseForm.Submit(v, WeekendProject.members).value, stamp))
         == DashboardLaws.BalanceSum(st)
  {
    var st := SelectGroup(Initial, "g2");
    var v := ExpenseForm.FormValues("Tools", 30.0, "4", 0, ExpenseForm.Equally,
                                    ExpenseForm.DefaultCustomSplits(TripToMountains.members));
    InitialSelection();
    RostersDistinct();
    RosterIds();
    assert "4" in MemberIds(WeekendProject.members);
    ExpenseForm.SubmittedExpenseKeepsLedgerBalanced(st, v, stamp);
  }

  /** The trip's balances sum to zero, as conservation predicts. */
  lemma TripConserves()
    ensures DashboardLaws.BalanceSum(Initial) == 0.0
  {
    InitialSelection();
    GroupExpenseLists();
    RostersCoverExpenses();
    GroupSplitsExact();
    RostersDistinct();
    DashboardLaws.BalancesConserve(Initial);
  }

  /** The project's balances sum to zero, as conservation predicts. */
  lemma ProjectConserves()
    ensures DashboardLaws.BalanceSum(SelectGroup(Initial, "g2")) == 0.0
  {
    InitialSelection();
    GroupExpenseLists();
    RostersCoverExpenses();
    GroupSplitsExact();
    RostersDistinct();
    DashboardLaws.BalancesConserve(SelectGroup(Initial, "g2"));
  }

  /** Groceries, Dinner and Server Hosting are exactly the form's equal split
      over their group. */
  lemma EqualSplitsInFixtures()
    ensures Groceries.split == ExpenseForm.EqualSplit(TripToMountains.members, 90.0)
    ensures Dinner.split == ExpenseForm.EqualSplit(TripToMountains.members, 120.0)
    ensures ServerHosting.split == ExpenseForm.EqualSplit(WeekendProject.members, 60.0)
  {
  }

  /** Every fixture expense respects the form's amount and share bounds. */
  lemma FixturesWithinFormBounds()
    ensures forall e :: e in Expenses ==>
      e.amount >= ExpenseForm.MinAmount && forall s :: s in e.split ==> s.amount >= 0.0
  {
  }

  lemma ProjectPartition()
    ensures var bs := [
      Balance("1", "Alice", "avatar-alice", -30.0),
      Balance("4", "Diana", "avatar-diana", 30.0),
      Balance("5", "Ethan", "avatar-ethan", 0.0)];
      SettleUp.Debtors(bs) == [bs[0]] && SettleUp.Creditors(bs) == [bs[1]]
  {
    var bs := [
      Balance("1", "Alice", "avatar-alice", -30.0),
      Balance("4", "Diana", "avatar-diana", 30.0),
      Balance("5", "Ethan", "avatar-ethan", 0.0)];
    assert bs[1..] == [bs[1], bs[2]];
    assert bs[1..][1..] == [bs[2]];
    assert [bs[2]][1..] == [];
  }

  /** In the weekend project Alice is the only debtor and Diana the only
      creditor; Ethan's card reads "Settled up" in the positive colour. */
  lemma EthanSettled()
    ensures var bs := BalancesView(SelectGroup(Initial, "g2"));
      && SettleUp.Debtors(bs) == [bs[0]] && SettleUp.Creditors(bs) == [bs[1]]
      && BalanceSummary.Cards(bs)[2].status == BalanceSummary.SettledUp
      && BalanceSummary.Cards(bs)[2].tone == BalanceSummary.Emerald
  {
    ProjectBalances();
    ProjectPartition();
  }
}
