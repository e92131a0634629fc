/** What the dashboard's views promise: the date sort changes no balance, the
    balances of a closed group cancel out, the total is what the members paid,
    and adding an expense shifts each balance by that expense alone. */
module DashboardLaws {
  import opened Types
  import opened Seqs
  import opened Ledger
  import opened Dashboard

  /** What the balance cards add up to. */
  function BalanceSum(st: DashboardState): real { Sum(BalancesView(st), BalanceValue) }

  /** `paid` of one member, as a term over the roster. */
  function MemberPaid(es: seq<Expense>): Member -> real { (m: Member) => AmountPaid(es, m.id) }

  /** Balances do not depend on the order of the expenses, so sorting by date
      cannot change any of them. */
  lemma BalancesIgnoreOrder(selected: Option<Group>, a: seq<Expense>, b: seq<Expense>)
    requires multiset(a) == multiset(b)
    ensures Balances(selected, a) == Balances(selected, b)
  {
    if selected.Some? {
      var ra, rb := Balances(selected, a), Balances(selected, b);
      forall i | 0 <= i < |ra| ensures ra[i] == rb[i] {
        NetOfPermutation(a, b, selected.value.members[i].id);
      }
    }
  }

  lemma SortLeavesBalances(selected: Option<Group>, es: seq<Expense>, gid: string)
    ensures Balances(selected, GroupExpenses(es, gid)) == Balances(selected, Filter(es, InGroup(gid)))
    ensures TotalExpenses(GroupExpenses(es, gid)) == TotalExpenses(Filter(es, InGroup(gid)))
  {
    BalancesIgnoreOrder(selected, GroupExpenses(es, gid), Filter(es, InGroup(gid)));
    SumPermutation(GroupExpenses(es, gid), Filter(es, InGroup(gid)), ExpenseAmount);
  }

  lemma {:induction false} MemberBalancesSum(ms: seq<Member>, es: seq<Expense>)
    ensures Sum(MemberBalances(ms, es), BalanceValue) == Sum(ms, NetFn(es))
  {
    if |ms| > 0 {
      MemberBalancesSum(ms[1..], es);
      var r := MemberBalances(ms, es);
      assert r[1..] == MemberBalances(ms[1..], es);
    }
  }

  /** The balances of a group add up to the total by which its expenses'
      splits fall short of their amounts, when every payer and participant is
      a member and member ids are distinct. */
  lemma BalancesSumToShortfall(g: Group, es: seq<Expense>)
    requires DistinctIds(g.members)
    requires InRoster(g.members, es)
    ensures Sum(Balances(Some(g), es), BalanceValue) == Sum(es, Discrepancy)
  {
    MemberBalancesSum(g.members, es);
    NetAcross(g.members, es);
  }

  /** Conservation on the dashboard: with exact splits, on-roster payers and
      participants and distinct member ids, the displayed balances sum to 0. */
  lemma BalancesConserve(st: DashboardState)
    requires SelectedGroup(st).Some?
    requires DistinctIds(SelectedGroup(st).value.members)
    requires InRoster(SelectedGroup(st).value.members, ExpensesView(st))
    requires SplitsExact(ExpensesView(st))
    ensures Sum(BalancesView(st), BalanceValue) == 0.0
  {
    var g := SelectedGroup(st).value;
    MemberBalancesSum(g.members, ExpensesView(st));
    Conservation(g.members, ExpensesView(st));
  }

  /** `totalExpenses` is what the group's members paid, added up over the roster. */
  lemma TotalIsMembersPaid(ms: seq<Member>, es: seq<Expense>)
    requires DistinctIds(ms)
    requires forall e :: e in es ==> e.paidBy in MemberIds(ms)
    ensures TotalExpenses(es) == Sum(ms, MemberPaid(es))
  {
    forall m | m in ms ensures MemberPaid(es)(m) == PaidSumFn(es)(m) {
      AmountPaidIsPaidSum(es, m.id);
    }
    SumCongruence(ms, MemberPaid(es), PaidSumFn(es));
    PaidAcross(ms, es);
  }

  /** The expense `HandleAddExpense` records. */
  function Recorded(st: DashboardState, draft: ExpenseDraft, stamp: string): Expense
  {
    Expense("e" + stamp, draft.description, draft.amount, draft.paidBy, draft.split, draft.date,
            st.selectedGroupId)
  }

  /** After `handleAddExpense` the selected group's view holds the new expense
      besides the old ones, and every member's balance moves by what they paid
      of it minus their share of its split. */
  lemma AddExpenseShiftsBalances(st: DashboardState, draft: ExpenseDraft, stamp: string)
    ensures var st' := HandleAddExpense(st, draft, stamp);
      && multiset(ExpensesView(st')) == multiset(ExpensesView(st)) + multiset{Recorded(st, draft, stamp)}
      && |BalancesView(st')| == |BalancesView(st)|
      && forall i :: 0 <= i < |BalancesView(st)| ==>
           var id := BalancesView(st)[i].memberId;
           BalancesView(st')[i].balance
             == BalancesView(st)[i].balance + Paid(Recorded(st, draft, stamp), id) - Owed(draft.split, id)
  {
    var st' := HandleAddExpense(st, draft, stamp);
    var x := Recorded(st, draft, stamp);
    var gid := st.selectedGroupId;
    var before := ExpensesView(st);
    var after := ExpensesView(st');
    assert st'.expenses == st.expenses + [x];
    FilterAppend(st.expenses, [x], InGroup(gid));
    assert Filter([x], InGroup(gid)) == [x];
    assert multiset(after) == multiset(before + [x]);
    assert SelectedGroup(st') == SelectedGroup(st);
    if SelectedGroup(st).Some? {
      var ms := SelectedGroup(st).value.members;
      forall i | 0 <= i < |ms|
        ensures BalancesView(st')[i].balance
             == BalancesView(st)[i].balance + Paid(x, ms[i].id) - Owed(draft.split, ms[i].id)
      {
        NetOfPermutation(after, before + [x], ms[i].id);
        NetOfAppend(before, x, ms[i].id);
      }
    }
  }

  /** Recording an expense raises the selected group's total by its amount. */
  lemma AddExpenseRaisesTotal(st: DashboardState, draft: ExpenseDraft, stamp: string)
    ensures TotalView(HandleAddExpense(st, draft, stamp)) == TotalView(st) + draft.amount
  {
    var st' := HandleAddExpense(st, draft, stamp);
    var x := Recorded(st, draft, stamp);
    var gid := st.selectedGroupId;
    var before, after := ExpensesView(st), ExpensesView(st');
    assert st'.expenses == st.expenses + [x];
    FilterAppend(st.expenses, [x], InGroup(gid));
    assert Filter([x], InGroup(gid)) == [x];
    assert multiset(after) == multiset(before + [x]);
    SumPermutation(after, before + [x], ExpenseAmount);
    SumAppend(before, [x], ExpenseAmount);
    assert Sum([x], ExpenseAmount) == x.amount + Sum([x][1..], ExpenseAmount);
    assert [x][1..] == [];
  }

  /** Adding to the selected group leaves every other group's expenses as they were. */
  lemma AddExpenseLeavesOtherGroups(st: DashboardState, draft: ExpenseDraft, stamp: string, other: string)
    requires other != st.selectedGroupId
    ensures GroupExpenses(HandleAddExpense(st, draft, stamp).expenses, other) == GroupExpenses(st.expenses, other)
  {
    var x := Recorded(st, draft, stamp);
    FilterAppend(st.expenses, [x], InGroup(other));
    assert Filter([x], InGroup(other)) == [];
    assert Filter(st.expenses + [x], InGroup(other)) == Filter(st.expenses, InGroup(other));
  }

  /** With the new expense's payer and participants on a roster of distinct
      ids, recording it moves the sum of the balances by exactly its
      shortfall, whatever the earlier expenses are. */
  lemma AddExpenseShiftsBalanceSum(st: DashboardState, draft: ExpenseDraft, stamp: string)
    requires SelectedGroup(st).Some? && DistinctIds(SelectedGroup(st).value.members)
    requires OnRoster(SelectedGroup(st).value.members, Recorded(st, draft, stamp))
    ensures BalanceSum(HandleAddExpense(st, draft, stamp)) == BalanceSum(st) + Discrepancy(Recorded(st, draft, stamp))
  {
    var g := SelectedGroup(st).value;
    var ms := g.members;
    var st' := HandleAddExpense(st, draft, stamp);
    var x := Recorded(st, draft, stamp);
    var gid := st.selectedGroupId;
    var before, after := ExpensesView(st), ExpensesView(st');
    assert st'.expenses == st.expenses + [x];
    FilterAppend(st.expenses, [x], InGroup(gid));
    assert Filter([x], InGroup(gid)) == [x];
    assert multiset(after) == multiset(before + [x]);
    assert SelectedGroup(st') == Some(g);
    forall m | m in ms ensures NetFn(after)(m) == NetFn(before)(m) + ShiftFn(x)(m) {
      NetOfPermutation(after, before + [x], m.id);
      NetOfAppend(before, x, m.id);
    }
    SumLinear(ms, NetFn(before), ShiftFn(x), NetFn(after));
    MemberBalancesSum(ms, before);
    MemberBalancesSum(ms, after);
    ShiftAcross(ms, x);
  }
}
