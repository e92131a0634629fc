/** The add-expense form: the schema's field bounds, the refinement that a
    custom split add up to the amount, the split `onSubmit` builds, and the
    live total the custom tab colours as a warning. */
module ExpenseForm {
  import opened Types
  import opened Seqs
  import opened Ledger
  import opened Dashboard
  import DashboardLaws

  /** The smallest amount the schema accepts. */
  const MinAmount: real := 0.01

  /** The gap the refinement and the warning both compare against. */
  const SplitTolerance: real := 0.01

  function Abs(x: real): real { if x < 0.0 then -x else x }

  datatype SplitType = Equally | Custom

  /** The parsed form values, after the schema has coerced the numeric inputs to numbers. */
  datatype FormValues = FormValues(
    description: string,
    amount: real,
    paidBy: string,
    date: Date,
    splitType: SplitType,
    customSplits: seq<SplitEntry>)

  /** One failed check of the schema, in the order the schema reports them. */
  datatype FormIssue =
    | DescriptionRequired
    | AmountTooSmall
    | PaidByRequired
    | NegativeShare(index: nat)
    | SplitsDoNotAddUp

  // ---------------------------------------------------------------------------
  // Validation

  /** The field bounds of the schema, all at once. */
  predicate FieldsValid(v: FormValues)
  {
    && |v.description| >= 1
    && v.amount >= MinAmount
    && |v.paidBy| >= 1
    && forall i :: 0 <= i < |v.customSplits| ==> v.customSplits[i].amount >= 0.0
  }

  /** The schema's refinement: always true for an equal split; for a custom one, the
      shares must add up to the amount to within the tolerance. */
  predicate SplitsAddUp(v: FormValues)
  {
    v.splitType == Custom ==> Abs(SplitSum(v.customSplits) - v.amount) < SplitTolerance
  }

  /** The per-share lower bound of 0, for the entries from index `from` on:
      an issue naming the index of a negative share, and no other issue. */
  function NegativeShares(splits: seq<SplitEntry>, from: nat): (r: seq<FormIssue>)
    ensures r == [] <==> forall i :: 0 <= i < |splits| ==> splits[i].amount >= 0.0
    ensures forall k :: 0 <= k < |r| ==>
      r[k].NegativeShare? && from <= r[k].index < from + |splits| && splits[r[k].index - from].amount < 0.0
  {
    if |splits| == 0 then []
    else
      var rest := NegativeShares(splits[1..], from + 1);
      assert forall i :: 1 <= i < |splits| ==> splits[i] == splits[1..][i - 1];
      if splits[0].amount < 0.0 then [NegativeShare(from)] + rest else rest
  }

  /** Every negative share gets its issue: the issue for index `j` is reported
      exactly when the share at `j` is negative. */
  lemma {:induction false} NegativeSharesExact(splits: seq<SplitEntry>, from: nat)
    ensures forall j :: from <= j < from + |splits| ==>
      (NegativeShare(j) in NegativeShares(splits, from) <==> splits[j - from].amount < 0.0)
  {
    if |splits| > 0 {
      var r := NegativeShares(splits, from);
      var rest := NegativeShares(splits[1..], from + 1);
      var head := if splits[0].amount < 0.0 then [NegativeShare(from)] else [];
      assert r == head + rest;
      NegativeSharesExact(splits[1..], from + 1);
      assert NegativeShare(from) !in rest;
      forall j | from + 1 <= j < from + |splits|
        ensures NegativeShare(j) in r <==> splits[j - from].amount < 0.0
      {
        assert splits[j - from] == splits[1..][j - (from + 1)];
        assert NegativeShare(j) !in head;
      }
    }
  }

  /** Share issues listed in strictly increasing index order. */
  predicate IndexOrdered(r: seq<FormIssue>)
  {
    forall k1, k2 :: 0 <= k1 < k2 < |r| ==> r[k1].NegativeShare? && r[k2].NegativeShare? && r[k1].index < r[k2].index
  }

  lemma PrependOrdered(x: FormIssue, rest: seq<FormIssue>)
    requires x.NegativeShare? && IndexOrdered(rest)
    requires forall k :: 0 <= k < |rest| ==> rest[k].NegativeShare? && x.index < rest[k].index
    ensures IndexOrdered([x] + rest)
  {
    var r := [x] + rest;
    forall k1, k2 | 0 <= k1 < k2 < |r|
      ensures r[k1].NegativeShare? && r[k2].NegativeShare? && r[k1].index < r[k2].index
    {
      assert r[k2] == rest[k2 - 1];
      if k1 > 0 {
        assert r[k1] == rest[k1 - 1];
      }
    }
  }

  /** The issues come in strictly increasing index order, so no share is
      reported twice. */
  lemma {:induction false} NegativeSharesOrdered(splits: seq<SplitEntry>, from: nat)
    ensures IndexOrdered(NegativeShares(splits, from))
  {
    if |splits| > 0 {
      var rest := NegativeShares(splits[1..], from + 1);
      NegativeSharesOrdered(splits[1..], from + 1);
      if splits[0].amount < 0.0 {
        PrependOrdered(NegativeShare(from), rest);
        assert NegativeShares(splits, from) == [NegativeShare(from)] + rest;
      } else {
        assert NegativeShares(splits, from) == rest;
      }
    }
  }

  /** The share issues of a whole form, indexed from 0. */
  function ShareIssues(splits: seq<SplitEntry>): (r: seq<FormIssue>)
    ensures r == [] <==> forall i :: 0 <= i < |splits| ==> splits[i].amount >= 0.0
    ensures forall k :: 0 <= k < |r| ==> r[k].NegativeShare?
    ensures forall i: nat :: NegativeShare(i) in r <==> i < |splits| && splits[i].amount < 0.0
  {
    var r := NegativeShares(splits, 0);
    NegativeSharesExact(splits, 0);
    assert forall i: nat :: NegativeShare(i) in r ==> i < |splits| by {
      forall i: nat | NegativeShare(i) in r ensures i < |splits| {
        var k :| 0 <= k < |r| && r[k] == NegativeShare(i);
      }
    }
    assert forall i :: 0 <= i < |splits| ==> splits[i - 0] == splits[i];
    r
  }

  /** Everything the schema reports for `v`. The refinement runs even when a
      field check failed, because a failed bound leaves the parse dirty rather
      than aborted. */
  function FormIssues(v: FormValues): (r: seq<FormIssue>)
    ensures r == [] <==> FieldsValid(v) && SplitsAddUp(v)
    ensures DescriptionRequired in r <==> |v.description| == 0
    ensures AmountTooSmall in r <==> v.amount < MinAmount
    ensures PaidByRequired in r <==> |v.paidBy| == 0
    ensures SplitsDoNotAddUp in r <==> !SplitsAddUp(v)
    ensures forall i: nat :: NegativeShare(i) in r <==> i < |v.customSplits| && v.customSplits[i].amount < 0.0
  {
    var shares := ShareIssues(v.customSplits);
    var description := if |v.description| < 1 then [DescriptionRequired] else [];
    var amount := if v.amount < MinAmount then [AmountTooSmall] else [];
    var paidBy := if |v.paidBy| < 1 then [PaidByRequired] else [];
    var refine := if SplitsAddUp(v) then [] else [SplitsDoNotAddUp];
    assert DescriptionRequired !in shares && AmountTooSmall !in shares;
    assert PaidByRequired !in shares && SplitsDoNotAddUp !in shares;
    description + amount + paidBy + shares + refine
  }

  // ---------------------------------------------------------------------------
  // Building the split

  function EqualShares(ms: seq<Member>, share: real): (r: seq<SplitEntry>)
    ensures |r| == |ms|
    ensures forall i :: 0 <= i < |ms| ==> r[i].memberId == ms[i].id && r[i].amount == share
  {
    if |ms| == 0 then [] else [SplitEntry(ms[0].id, share)] + EqualShares(ms[1..], share)
  }

  /** The equal split: every group member, in order, with the amount divided by
      the member count; with no members there is nothing to divide among. */
  function EqualSplit(ms: seq<Member>, amount: real): (r: seq<SplitEntry>)
    ensures |r| == |ms|
    ensures forall i :: 0 <= i < |ms| ==>
      r[i].memberId == ms[i].id && r[i].amount * (|ms| as real) == amount
  {
    if |ms| == 0 then [] else EqualShares(ms, amount / (|ms| as real))
  }

  function Positive(s: SplitEntry): bool { s.amount > 0.0 }

  /** The custom split handed on: the shares above zero, in their original order. */
  function PositiveShares(splits: seq<SplitEntry>): (r: seq<SplitEntry>)
    ensures forall s :: s in r <==> s in splits && s.amount > 0.0
    ensures forall i :: 0 <= i < |r| ==> r[i].amount > 0.0
    ensures forall s :: multiset(r)[s] == if s.amount > 0.0 then multiset(splits)[s] else 0
  {
    FilterCount(splits, Positive);
    Filter(splits, Positive)
  }

  /** The kept shares stay in order: the split is built share by share, each
      contributing itself exactly when it is above zero. */
  lemma PositiveSharesKeepOrder(a: seq<SplitEntry>, b: seq<SplitEntry>, x: SplitEntry)
    ensures PositiveShares(a + b) == PositiveShares(a) + PositiveShares(b)
    ensures PositiveShares([x]) == if x.amount > 0.0 then [x] else []
  {
    FilterAppend(a, b, Positive);
  }

  /** `onSubmit`: the draft handed to the dashboard. */
  function OnSubmit(v: FormValues, ms: seq<Member>): (r: ExpenseDraft)
    ensures r.description == v.description && r.amount == v.amount
    ensures r.paidBy == v.paidBy && r.date == v.date
    ensures v.splitType == Equally ==>
      |r.split| == |ms| && forall i :: 0 <= i < |ms| ==>
        r.split[i].memberId == ms[i].id && r.split[i].amount * (|ms| as real) == v.amount
    ensures v.splitType == Custom ==> r.split == PositiveShares(v.customSplits)
    ensures v.splitType == Custom ==>
      forall s :: s in r.split <==> s in v.customSplits && s.amount > 0.0
  {
    var split := if v.splitType == Equally then EqualSplit(ms, v.amount) else PositiveShares(v.customSplits);
    ExpenseDraft(v.description, v.amount, v.paidBy, split, v.date)
  }

  /** Submitting the form: the draft is built only from values the schema accepts. */
  function Submit(v: FormValues, ms: seq<Member>): (r: Result<ExpenseDraft, seq<FormIssue>>)
    ensures r.Success? <==> FieldsValid(v) && SplitsAddUp(v)
    ensures r.Success? ==> r.value == OnSubmit(v, ms)
    ensures r.Failure? ==> r.error != [] && (SplitsDoNotAddUp in r.error <==> !SplitsAddUp(v))
  {
    var issues := FormIssues(v);
    if issues == [] then Success(OnSubmit(v, ms)) else Failure(issues)
  }

  // ---------------------------------------------------------------------------
  // Defaults and the live total

  /** The custom shares the form starts with: every member at 0. */
  function DefaultCustomSplits(ms: seq<Member>): (r: seq<SplitEntry>)
    ensures |r| == |ms|
    ensures forall i :: 0 <= i < |ms| ==> r[i] == SplitEntry(ms[i].id, 0.0)
  {
    EqualShares(ms, 0.0)
  }

  /** The values the form opens with; `today` is the current date. */
  function DefaultValues(ms: seq<Member>, today: Date): FormValues
  {
    FormValues("", 0.0, "", today, Equally, DefaultCustomSplits(ms))
  }

  /** The custom tab paints its total red when it is more than the tolerance off. */
  function TotalWarning(splits: seq<SplitEntry>, amount: real): (red: bool)
    ensures red <==> SplitSum(splits) > amount + SplitTolerance || SplitSum(splits) < amount - SplitTolerance
  {
    Abs(SplitSum(splits) - amount) > SplitTolerance
  }

  // ---------------------------------------------------------------------------
  // Properties of the form

  lemma {:induction false} EqualSharesSum(ms: seq<Member>, share: real)
    ensures SplitSum(EqualShares(ms, share)) == (|ms| as real) * share
  {
    if |ms| > 0 {
      EqualSharesSum(ms[1..], share);
      assert EqualShares(ms, share)[1..] == EqualShares(ms[1..], share);
    }
  }

  /** With exact arithmetic the equal split adds up to the amount. */
  lemma EqualSplitSum(ms: seq<Member>, amount: real)
    requires |ms| > 0
    ensures SplitSum(EqualSplit(ms, amount)) == amount
  {
    EqualSharesSum(ms, amount / (|ms| as real));
  }

  /** Dropping the zero shares keeps the split's total when no share is negative. */
  lemma {:induction false} PositiveSharesSum(splits: seq<SplitEntry>)
    requires forall i :: 0 <= i < |splits| ==> splits[i].amount >= 0.0
    ensures SplitSum(PositiveShares(splits)) == SplitSum(splits)
  {
    if |splits| > 0 {
      PositiveSharesSum(splits[1..]);
      if splits[0].amount > 0.0 {
        assert ([splits[0]] + Filter(splits[1..], Positive))[1..] == Filter(splits[1..], Positive);
      }
    }
  }

  /** A positive amount divided among at least one member gives positive shares. */
  lemma EqualSplitPositive(ms: seq<Member>, amount: real)
    requires |ms| > 0 && amount > 0.0
    ensures forall i :: 0 <= i < |EqualSplit(ms, amount)| ==> EqualSplit(ms, amount)[i].amount > 0.0
  {
    var q := amount / (|ms| as real);
    assert q > 0.0;
    assert EqualSplit(ms, amount) == EqualShares(ms, q);
  }

  lemma ValidCustomSplit(v: FormValues, ms: seq<Member>)
    requires SplitsAddUp(v) && v.splitType == Custom
    requires forall i :: 0 <= i < |v.customSplits| ==> v.customSplits[i].amount >= 0.0
    ensures var d := OnSubmit(v, ms);
      && Abs(SplitSum(d.split) - d.amount) < SplitTolerance
      && forall i :: 0 <= i < |d.split| ==> d.split[i].amount > 0.0
  {
    assert OnSubmit(v, ms).split == PositiveShares(v.customSplits);
    PositiveSharesSum(v.customSplits);
  }

  /** The split `onSubmit` builds from values that pass the schema. */
  lemma ValidDraftSplit(v: FormValues, ms: seq<Member>)
    requires FieldsValid(v) && SplitsAddUp(v)
    requires v.splitType == Equally ==> |ms| > 0
    ensures var d := OnSubmit(v, ms);
      && (v.splitType == Custom ==> Abs(SplitSum(d.split) - d.amount) < SplitTolerance)
      && (v.splitType == Equally ==> SplitSum(d.split) == d.amount)
      && forall i :: 0 <= i < |d.split| ==> d.split[i].amount > 0.0
  {
    if v.splitType == Custom {
      ValidCustomSplit(v, ms);
    } else {
      assert OnSubmit(v, ms).split == EqualSplit(ms, v.amount);
      EqualSplitSum(ms, v.amount);
      EqualSplitPositive(ms, v.amount);
    }
  }

  /** What an accepted submission hands on: a custom split within the tolerance
      of the amount, an equal split adding up to it exactly, and only strictly
      positive shares either way. */
  lemma AcceptedSplit(v: FormValues, ms: seq<Member>)
    requires Submit(v, ms).Success?
    requires v.splitType == Equally ==> |ms| > 0
    ensures var d := Submit(v, ms).value;
      && (v.splitType == Custom ==> Abs(SplitSum(d.split) - d.amount) < SplitTolerance)
      && (v.splitType == Equally ==> SplitSum(d.split) == d.amount)
      && forall i :: 0 <= i < |d.split| ==> d.split[i].amount > 0.0
  {
    ValidDraftSplit(v, ms);
  }

  /** The form as it opens is rejected: no description, no amount, no payer. */
  lemma DefaultsRejected(ms: seq<Member>, today: Date)
    ensures var issues := FormIssues(DefaultValues(ms, today));
      DescriptionRequired in issues && AmountTooSmall in issues && PaidByRequired in issues
  {
  }

  lemma {:induction false} DefaultCustomSplitsSum(ms: seq<Member>)
    ensures SplitSum(DefaultCustomSplits(ms)) == 0.0
  {
    EqualSharesSum(ms, 0.0);
  }

  /** A custom split left at its zero defaults is always rejected: the
      refinement would need an amount below 0.01, which the amount bound forbids. */
  lemma CustomDefaultsRejected(v: FormValues, ms: seq<Member>)
    requires v.splitType == Custom
    requires v.customSplits == DefaultCustomSplits(ms)
    ensures Submit(v, ms).Failure?
    ensures AmountTooSmall in Submit(v, ms).error || SplitsDoNotAddUp in Submit(v, ms).error
  {
    DefaultCustomSplitsSum(ms);
  }

  /** A red total always comes with a rejected custom split, but not the other
      way round: at a gap of exactly the tolerance the split is rejected while
      the total stays uncoloured. */
  lemma WarningImpliesRejection(v: FormValues)
    requires v.splitType == Custom
    ensures TotalWarning(v.customSplits, v.amount) ==> SplitsDoNotAddUp in FormIssues(v)
    ensures Abs(SplitSum(v.customSplits) - v.amount) == SplitTolerance ==>
      SplitsDoNotAddUp in FormIssues(v) && !TotalWarning(v.customSplits, v.amount)
  {
  }

  /** A concrete form at that boundary: a share of 0.01 against an amount of
      0.02 (a gap that is exactly 0.01 in binary floating point as well). */
  lemma BoundaryGapExample()
    ensures var v := FormValues("Coffee", 0.02, "1", 0, Custom, [SplitEntry("1", 0.01)]);
      FormIssues(v) == [SplitsDoNotAddUp] && !TotalWarning(v.customSplits, v.amount)
  {
    var v := FormValues("Coffee", 0.02, "1", 0, Custom, [SplitEntry("1", 0.01)]);
    assert SplitSum(v.customSplits) == 0.01;
  }

  /** The split `onSubmit` builds names only members: always for an equal
      split, and for a custom one whenever the custom shares do. */
  lemma OnSubmitStaysOnRoster(v: FormValues, ms: seq<Member>)
    requires v.splitType == Custom ==> forall s :: s in v.customSplits ==> s.memberId in MemberIds(ms)
    ensures forall s :: s in OnSubmit(v, ms).split ==> s.memberId in MemberIds(ms)
  {
    var split := OnSubmit(v, ms).split;
    if v.splitType == Equally {
      forall s | s in split ensures s.memberId in MemberIds(ms) {
        var i :| 0 <= i < |split| && split[i] == s;
        assert MemberIds(ms)[i] == ms[i].id;
      }
    }
  }

  /** Recording an accepted submission moves the sum of the group's balances by
      less than the tolerance, and not at all for an equal split, whenever the
      payer is a member of the group and, for a custom split, so is every
      custom share's member. Earlier expenses may be anything. */
  lemma SubmittedExpenseKeepsLedgerBalanced(st: DashboardState, v: FormValues, stamp: string)
    requires SelectedGroup(st).Some?
    requires DistinctIds(SelectedGroup(st).value.members) && |SelectedGroup(st).value.members| > 0
    requires v.paidBy in MemberIds(SelectedGroup(st).value.members)
    requires v.splitType == Custom ==>
      forall s :: s in v.customSplits ==> s.memberId in MemberIds(SelectedGroup(st).value.members)
    requires Submit(v, SelectedGroup(st).value.members).Success?
    ensures var st' := HandleAddExpense(st, Submit(v, SelectedGroup(st).value.members).value, stamp);
      && (v.splitType == Custom ==> Abs(DashboardLaws.BalanceSum(st') - DashboardLaws.BalanceSum(st)) < SplitTolerance)
      && (v.splitType == Equally ==> DashboardLaws.BalanceSum(st') == DashboardLaws.BalanceSum(st))
  {
    var ms := SelectedGroup(st).value.members;
    var d := Submit(v, ms).value;
    assert d == OnSubmit(v, ms);
    var x := DashboardLaws.Recorded(st, d, stamp);
    assert x.paidBy == v.paidBy && x.split == d.split && x.amount == v.amount;
    OnSubmitStaysOnRoster(v, ms);
    assert OnRoster(ms, x);
    DashboardLaws.AddExpenseShiftsBalanceSum(st, d, stamp);
    assert Discrepancy(x) == v.amount - SplitSum(d.split);
    ValidDraftSplit(v, ms);
  }
}
