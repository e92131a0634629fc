/** The meaning of a group's balances, stated per expense rather than through
    the flattened lists the dashboard filters: what each member paid, what
    each member owes, and the conservation law that ties the two together. */
module Ledger {
  import opened Types
  import opened Seqs

  /** What the payer of `e` is credited with, for member `id`. */
  function Paid(e: Expense, id: string): real
  {
    if e.paidBy == id then e.amount else 0.0
  }

  /** A member's share of one split: the total of the entries that carry their id. */
  function Owed(split: seq<SplitEntry>, id: string): real
  {
    if |split| == 0 then 0.0
    else (if split[0].memberId == id then split[0].amount else 0.0) + Owed(split[1..], id)
  }

  function PaidTo(id: string): Expense -> real { (e: Expense) => Paid(e, id) }

  function OwedBy(id: string): Expense -> real { (e: Expense) => Owed(e.split, id) }

  function PaidSum(es: seq<Expense>, id: string): real { Sum(es, PaidTo(id)) }

  function OwedSum(es: seq<Expense>, id: string): real { Sum(es, OwedBy(id)) }

  /** Reference net balance: paid in total minus owed in total, expense by expense. */
  function NetOf(es: seq<Expense>, id: string): real
  {
    PaidSum(es, id) - OwedSum(es, id)
  }

  function SplitSum(split: seq<SplitEntry>): real { Sum(split, EntryAmount) }

  function SplitTotal(e: Expense): real { SplitSum(e.split) }

  /** How far an expense's split falls short of its amount. */
  function Discrepancy(e: Expense): real { e.amount - SplitSum(e.split) }

  /** The payer and every split participant of `e` is one of `ms`. */
  predicate OnRoster(ms: seq<Member>, e: Expense)
  {
    e.paidBy in MemberIds(ms) && forall s :: s in e.split ==> s.memberId in MemberIds(ms)
  }

  /** Every expense of `es` is on the roster `ms`. */
  predicate InRoster(ms: seq<Member>, es: seq<Expense>)
  {
    forall e :: e in es ==> OnRoster(ms, e)
  }

  /** Every split adds up exactly to its expense's amount. */
  predicate SplitsExact(es: seq<Expense>)
  {
    forall e :: e in es ==> SplitSum(e.split) == e.amount
  }

  // Member-indexed terms, for sums over a roster.

  function Pick(x: string, a: real): Member -> real { (m: Member) => if m.id == x then a else 0.0 }

  function PaidSumFn(es: seq<Expense>): Member -> real { (m: Member) => PaidSum(es, m.id) }

  function OwedSumFn(es: seq<Expense>): Member -> real { (m: Member) => OwedSum(es, m.id) }

  function OwedFn(split: seq<SplitEntry>): Member -> real { (m: Member) => Owed(split, m.id) }

  function NetFn(es: seq<Expense>): Member -> real { (m: Member) => NetOf(es, m.id) }

  /** What one expense adds to a member's net balance. */
  function ShiftFn(x: Expense): Member -> real { (m: Member) => Paid(x, m.id) - Owed(x.split, m.id) }

  /** Reordering the expenses changes no net balance. */
  lemma NetOfPermutation(a: seq<Expense>, b: seq<Expense>, id: string)
    requires multiset(a) == multiset(b)
    ensures NetOf(a, id) == NetOf(b, id)
  {
    SumPermutation(a, b, PaidTo(id));
    SumPermutation(a, b, OwedBy(id));
  }

  /** Appending one expense moves a member's net balance by exactly that expense's contribution. */
  lemma NetOfAppend(es: seq<Expense>, x: Expense, id: string)
    ensures NetOf(es + [x], id) == NetOf(es, id) + Paid(x, id) - Owed(x.split, id)
  {
    SumAppend(es, [x], PaidTo(id));
    SumAppend(es, [x], OwedBy(id));
  }

  lemma {:induction false} PickAbsent(ms: seq<Member>, x: string, a: real)
    requires x !in MemberIds(ms)
    ensures Sum(ms, Pick(x, a)) == 0.0
  {
    if |ms| > 0 {
      assert MemberIds(ms) == [ms[0].id] + MemberIds(ms[1..]);
      PickAbsent(ms[1..], x, a);
    }
  }

  /** Over a roster with distinct ids, an amount credited to one member of it sums to that amount. */
  lemma {:induction false} PickSum(ms: seq<Member>, x: string, a: real)
    requires DistinctIds(ms)
    requires x in MemberIds(ms)
    ensures Sum(ms, Pick(x, a)) == a
  {
    assert MemberIds(ms) == [ms[0].id] + MemberIds(ms[1..]);
    assert DistinctIds(ms[1..]) by {
      forall i, j | 0 <= i < j < |ms[1..]| ensures ms[1..][i].id != ms[1..][j].id {
        assert ms[1..][i] == ms[i + 1] && ms[1..][j] == ms[j + 1];
      }
    }
    if ms[0].id == x {
      PickAbsent(ms[1..], x, a);
    } else {
      PickSum(ms[1..], x, a);
    }
  }

  /** Summed over the roster, one split's shares add up to the split's total. */
  lemma {:induction false} OwedAcross(ms: seq<Member>, split: seq<SplitEntry>)
    requires DistinctIds(ms)
    requires forall s :: s in split ==> s.memberId in MemberIds(ms)
    ensures Sum(ms, OwedFn(split)) == SplitSum(split)
  {
    if |split| == 0 {
      SumZero(ms, OwedFn(split));
    } else {
      var s := split[0];
      assert s in split;
      OwedAcross(ms, split[1..]);
      SumLinear(ms, Pick(s.memberId, s.amount), OwedFn(split[1..]), OwedFn(split));
      PickSum(ms, s.memberId, s.amount);
    }
  }

  /** Summed over the roster, the members' paid totals are the expenses' total. */
  lemma {:induction false} PaidAcross(ms: seq<Member>, es: seq<Expense>)
    requires DistinctIds(ms)
    requires forall e :: e in es ==> e.paidBy in MemberIds(ms)
    ensures Sum(ms, PaidSumFn(es)) == Sum(es, ExpenseAmount)
  {
    if |es| == 0 {
      SumZero(ms, PaidSumFn(es));
    } else {
      var e := es[0];
      assert e in es;
      PaidAcross(ms, es[1..]);
      SumLinear(ms, Pick(e.paidBy, e.amount), PaidSumFn(es[1..]), PaidSumFn(es));
      PickSum(ms, e.paidBy, e.amount);
    }
  }

  /** Summed over the roster, the members' owed totals are the splits' total. */
  lemma {:induction false} OwedSumAcross(ms: seq<Member>, es: seq<Expense>)
    requires DistinctIds(ms)
    requires InRoster(ms, es)
    ensures Sum(ms, OwedSumFn(es)) == Sum(es, SplitTotal)
  {
    if |es| == 0 {
      SumZero(ms, OwedSumFn(es));
    } else {
      var e := es[0];
      assert e in es;
      assert InRoster(ms, es[1..]) by {
        forall x | x in es[1..] ensures x in es { }
      }
      OwedSumAcross(ms, es[1..]);
      SumLinear(ms, OwedFn(e.split), OwedSumFn(es[1..]), OwedSumFn(es));
      OwedAcross(ms, e.split);
    }
  }

  /** The net balances of a roster add up to the expenses' total shortfall of
      their splits, whenever every payer and participant is on the roster
      and the roster's ids are distinct. */
  lemma NetAcross(ms: seq<Member>, es: seq<Expense>)
    requires DistinctIds(ms)
    requires InRoster(ms, es)
    ensures Sum(ms, NetFn(es)) == Sum(es, Discrepancy)
  {
    PaidAcross(ms, es);
    OwedSumAcross(ms, es);
    SumLinear(ms, NetFn(es), OwedSumFn(es), PaidSumFn(es));
    SumLinear(es, Discrepancy, SplitTotal, ExpenseAmount);
  }

  /** Over a roster holding the expense's payer and participants, with
      distinct ids, the shifts one expense makes add up to its shortfall. */
  lemma ShiftAcross(ms: seq<Member>, x: Expense)
    requires DistinctIds(ms)
    requires OnRoster(ms, x)
    ensures Sum(ms, ShiftFn(x)) == Discrepancy(x)
  {
    SumLinear(ms, ShiftFn(x), OwedFn(x.split), Pick(x.paidBy, x.amount));
    PickSum(ms, x.paidBy, x.amount);
    OwedAcross(ms, x.split);
  }

  /** Conservation: with exact splits the net balances of a roster sum to zero. */
  lemma Conservation(ms: seq<Member>, es: seq<Expense>)
    requires DistinctIds(ms)
    requires InRoster(ms, es)
    requires SplitsExact(es)
    ensures Sum(ms, NetFn(es)) == 0.0
  {
    NetAcross(ms, es);
    SumZero(es, Discrepancy);
  }
}
