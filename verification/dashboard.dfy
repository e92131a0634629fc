/** The dashboard's derived views over its state: the selected group's
    expenses newest first, one balance per group member, the group's total,
    and the append that records a new expense. */
module Dashboard {
  import opened Types
  import opened Seqs
  import opened Ledger
  import SeedData

  // ---------------------------------------------------------------------------
  // Selecting the group and its expenses

  /** The first group with that id, if any. */
  function FindGroup(groups: seq<Group>, id: string): (r: Option<Group>)
    ensures r.None? <==> forall g :: g in groups ==> g.id != id
    ensures r.Some? ==> r.value in groups && r.value.id == id
    ensures r.Some? ==> exists k :: 0 <= k < |groups| && groups[k] == r.value
                                 && forall j :: 0 <= j < k ==> groups[j].id != id
  {
    if |groups| == 0 then None
    else if groups[0].id == id then Some(groups[0])
    else
      var r := FindGroup(groups[1..], id);
      assert r.Some? ==> exists k :: 0 <= k < |groups| - 1 && groups[1..][k] == r.value
                                   && forall j :: 0 <= j < k ==> groups[1..][j].id != id;
      r
  }

  function InGroup(gid: string): Expense -> bool { (e: Expense) => e.groupId == gid }

  function OnDate(d: Date): Expense -> bool { (e: Expense) => e.date == d }

  ghost predicate SortedByDateDesc(s: seq<Expense>)
  {
    forall i, j :: 0 <= i < j < |s| ==> s[i].date >= s[j].date
  }

  /** Places `x` ahead of the first element that is not newer than it. */
  function InsertByDate(x: Expense, s: seq<Expense>): (r: seq<Expense>)
    ensures multiset(r) == multiset(s) + multiset{x}
    ensures |r| == |s| + 1
    ensures r[0] == x || (|s| > 0 && r[0] == s[0])
  {
    if |s| == 0 || x.date >= s[0].date then
      [x] + s
    else
      assert s == [s[0]] + s[1..];
      [s[0]] + InsertByDate(x, s[1..])
  }

  lemma {:induction false} InsertSorted(x: Expense, s: seq<Expense>)
    requires SortedByDateDesc(s)
    ensures SortedByDateDesc(InsertByDate(x, s))
  {
    if |s| > 0 && x.date < s[0].date {
      var rest := InsertByDate(x, s[1..]);
      InsertSorted(x, s[1..]);
      var r := [s[0]] + rest;
      assert r == InsertByDate(x, s);
      forall i, j | 0 <= i < j < |r| ensures r[i].date >= r[j].date {
        if i == 0 {
          assert r[j] == rest[j - 1];
          assert rest[0].date >= rest[j - 1].date;
        } else {
          assert r[i] == rest[i - 1] && r[j] == rest[j - 1];
        }
      }
    }
  }

  /** The expense list's order: newest first, expenses of the same date kept in
      their original order (the JavaScript array sort is stable). */
  function SortByDateDesc(s: seq<Expense>): (r: seq<Expense>)
    ensures multiset(r) == multiset(s)
    ensures SortedByDateDesc(r)
  {
    if |s| == 0 then []
    else
      assert s == [s[0]] + s[1..];
      var sorted := SortByDateDesc(s[1..]);
      InsertSorted(s[0], sorted);
      InsertByDate(s[0], sorted)
  }

  lemma {:induction false} InsertKeepsSameDateOrder(x: Expense, s: seq<Expense>, d: Date)
    requires SortedByDateDesc(s)
    ensures Filter(InsertByDate(x, s), OnDate(d))
         == if x.date == d then [x] + Filter(s, OnDate(d)) else Filter(s, OnDate(d))
  {
    if |s| == 0 || x.date >= s[0].date {
      assert ([x] + s)[1..] == s;
    } else {
      var rest := InsertByDate(x, s[1..]);
      assert SortedByDateDesc(s[1..]);
      InsertKeepsSameDateOrder(x, s[1..], d);
      assert ([s[0]] + rest)[1..] == rest;
      if x.date == d {
        assert s[0].date != d;
      }
    }
  }

  /** The date sort is stable: expenses that share a date keep their relative order. */
  lemma {:induction false} SortIsStable(s: seq<Expense>, d: Date)
    ensures Filter(SortByDateDesc(s), OnDate(d)) == Filter(s, OnDate(d))
  {
    if |s| > 0 {
      SortIsStable(s[1..], d);
      InsertKeepsSameDateOrder(s[0], SortByDateDesc(s[1..]), d);
    }
  }

  /** `groupExpenses`: the expenses of group `gid`, newest first. */
  function GroupExpenses(es: seq<Expense>, gid: string): (r: seq<Expense>)
    ensures forall e :: e in r <==> e in es && e.groupId == gid
    ensures multiset(r) == multiset(Filter(es, InGroup(gid)))
    ensures SortedByDateDesc(r)
  {
    var r := SortByDateDesc(Filter(es, InGroup(gid)));
    assert forall e :: e in r <==> e in multiset(r);
    r
  }

  // ---------------------------------------------------------------------------
  // Balances

  function PaidBy(id: string): Expense -> bool { (e: Expense) => e.paidBy == id }

  function ForMember(id: string): SplitEntry -> bool { (s: SplitEntry) => s.memberId == id }

  /** Every split entry of the expenses, expense after expense, in order. */
  function FlatSplits(es: seq<Expense>): (r: seq<SplitEntry>)
    ensures forall s :: s in r <==> exists e :: e in es && s in e.split
  {
    if |es| == 0 then []
    else
      var r := es[0].split + FlatSplits(es[1..]);
      assert forall e :: e in es <==> e == es[0] || e in es[1..];
      r
  }

  /** Flattening works expense by expense: the entries of a concatenation are
      the entries of each part in turn, and one expense contributes exactly its
      split, in order and with repeats. */
  lemma {:induction false} FlatSplitsKeepOrder(a: seq<Expense>, b: seq<Expense>, e: Expense)
    ensures FlatSplits(a + b) == FlatSplits(a) + FlatSplits(b)
    ensures FlatSplits([e]) == e.split
  {
    assert [e][1..] == [];
    if |a| == 0 {
      assert a + b == b;
    } else {
      assert (a + b)[1..] == a[1..] + b;
      FlatSplitsKeepOrder(a[1..], b, e);
    }
  }

  /** `paid`: the amounts of the expenses `id` paid for. */
  function AmountPaid(es: seq<Expense>, id: string): real
  {
    Sum(Filter(es, PaidBy(id)), ExpenseAmount)
  }

  /** `share`: the split amounts that name `id`, over all expenses. */
  function AmountShared(es: seq<Expense>, id: string): real
  {
    Sum(Filter(FlatSplits(es), ForMember(id)), EntryAmount)
  }

  lemma {:induction false} AmountPaidIsPaidSum(es: seq<Expense>, id: string)
    ensures AmountPaid(es, id) == PaidSum(es, id)
  {
    if |es| > 0 {
      AmountPaidIsPaidSum(es[1..], id);
      if es[0].paidBy == id {
        assert ([es[0]] + Filter(es[1..], PaidBy(id)))[1..] == Filter(es[1..], PaidBy(id));
      }
    }
  }

  lemma {:induction false} FilteredShareIsOwed(split: seq<SplitEntry>, id: string)
    ensures Sum(Filter(split, ForMember(id)), EntryAmount) == Owed(split, id)
  {
    if |split| > 0 {
      FilteredShareIsOwed(split[1..], id);
      if split[0].memberId == id {
        assert ([split[0]] + Filter(split[1..], ForMember(id)))[1..] == Filter(split[1..], ForMember(id));
      }
    }
  }

  lemma {:induction false} AmountSharedIsOwedSum(es: seq<Expense>, id: string)
    ensures AmountShared(es, id) == OwedSum(es, id)
  {
    if |es| > 0 {
      AmountSharedIsOwedSum(es[1..], id);
      FilterAppend(es[0].split, FlatSplits(es[1..]), ForMember(id));
      SumAppend(Filter(es[0].split, ForMember(id)), Filter(FlatSplits(es[1..]), ForMember(id)), EntryAmount);
      FilteredShareIsOwed(es[0].split, id);
    }
  }

  /** What a member paid minus their share is the reference net balance. */
  lemma AmountsAreNet(es: seq<Expense>, id: string)
    ensures AmountPaid(es, id) - AmountShared(es, id) == NetOf(es, id)
  {
    AmountPaidIsPaidSum(es, id);
    AmountSharedIsOwedSum(es, id);
  }

  function BalanceOf(m: Member, es: seq<Expense>): Balance
  {
    Balance(m.id, m.name, m.avatarId, AmountPaid(es, m.id) - AmountShared(es, m.id))
  }

  /** One balance per member, in member order. */
  function MemberBalances(ms: seq<Member>, es: seq<Expense>): (r: seq<Balance>)
    ensures |r| == |ms|
    ensures forall i :: 0 <= i < |ms| ==>
      && r[i].memberId == ms[i].id && r[i].name == ms[i].name && r[i].avatarId == ms[i].avatarId
      && r[i].balance == NetOf(es, ms[i].id)
  {
    if |ms| == 0 then []
    else
      AmountsAreNet(es, ms[0].id);
      [BalanceOf(ms[0], es)] + MemberBalances(ms[1..], es)
  }

  /** `balances`: empty without a selected group, else one entry per member. */
  function Balances(selected: Option<Group>, es: seq<Expense>): (r: seq<Balance>)
    ensures selected.None? ==> r == []
    ensures selected.Some? ==> |r| == |selected.value.members|
    ensures selected.Some? ==> forall i :: 0 <= i < |r| ==>
      var m := selected.value.members[i];
      && r[i].memberId == m.id && r[i].name == m.name && r[i].avatarId == m.avatarId
      && r[i].balance == NetOf(es, m.id)
  {
    match selected
    case None => []
    case Some(g) => MemberBalances(g.members, es)
  }

  /** `totalExpenses`: the amounts of the listed expenses added up; never
      negative while no amount is. */
  function TotalExpenses(es: seq<Expense>): (r: real)
    ensures (forall i :: 0 <= i < |es| ==> es[i].amount >= 0.0) ==> r >= 0.0
  {
    SumNonNegative(es, ExpenseAmount);
    Sum(es, ExpenseAmount)
  }

  // ---------------------------------------------------------------------------
  // Recording an expense

  /** The form's output: an expense without its id and group. */
  datatype ExpenseDraft = ExpenseDraft(
    description: string, amount: real, paidBy: string, split: seq<SplitEntry>, date: Date)

  /** `handleAddExpense`: the draft gets id `e<stamp>` and the selected group,
      and goes at the end. `stamp` stands for the digits of the current time. */
  function AddExpense(es: seq<Expense>, draft: ExpenseDraft, gid: string, stamp: string): (r: seq<Expense>)
    ensures |r| == |es| + 1
    ensures r[..|es|] == es
    ensures r[|es|] == Expense("e" + stamp, draft.description, draft.amount, draft.paidBy,
                               draft.split, draft.date, gid)
  {
    es + [Expense("e" + stamp, draft.description, draft.amount, draft.paidBy, draft.split, draft.date, gid)]
  }

  // ---------------------------------------------------------------------------
  // The dashboard state and its views

  datatype DashboardState = DashboardState(groups: seq<Group>, expenses: seq<Expense>, selectedGroupId: string)

  /** The state the dashboard mounts with: the fixtures, first group selected. */
  const Initial := DashboardState(SeedData.Groups, SeedData.Expenses, SeedData.Groups[0].id)

  function SelectedGroup(st: DashboardState): Option<Group>
  {
    FindGroup(st.groups, st.selectedGroupId)
  }

  function ExpensesView(st: DashboardState): seq<Expense>
  {
    GroupExpenses(st.expenses, st.selectedGroupId)
  }

  function BalancesView(st: DashboardState): seq<Balance>
  {
    Balances(SelectedGroup(st), ExpensesView(st))
  }

  function TotalView(st: DashboardState): real
  {
    TotalExpenses(ExpensesView(st))
  }

  function SelectGroup(st: DashboardState, gid: string): DashboardState
  {
    st.(selectedGroupId := gid)
  }

  function HandleAddExpense(st: DashboardState, draft: ExpenseDraft, stamp: string): DashboardState
  {
    st.(expenses := AddExpense(st.expenses, draft, st.selectedGroupId, stamp))
  }
}
