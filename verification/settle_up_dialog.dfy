/** The settle-up dialog: who owes and who is owed, the request handed to the
    settlement suggester, and the dialog's `loading` / `suggestion` / `error`
    state around that single external call. The suggester itself is outside
    the model: each call's outcome is a parameter. */
module SettleUp {
  import opened Types
  import opened Seqs

  // ---------------------------------------------------------------------------
  // Debtors and creditors

  function IsDebtor(b: Balance): bool { b.balance < 0.0 }

  function IsCreditor(b: Balance): bool { b.balance > 0.0 }

  function IsSettled(b: Balance): bool { b.balance == 0.0 }

  /** The members who owe: the balances below zero, in their original order. */
  function Debtors(bs: seq<Balance>): (r: seq<Balance>)
    ensures forall b :: b in r <==> b in bs && b.balance < 0.0
    ensures forall i :: 0 <= i < |r| ==> r[i].balance < 0.0
    ensures forall b :: multiset(r)[b] == if b.balance < 0.0 then multiset(bs)[b] else 0
  {
    FilterCount(bs, IsDebtor);
    Filter(bs, IsDebtor)
  }

  /** The members who are owed: the balances above zero, in their original order. */
  function Creditors(bs: seq<Balance>): (r: seq<Balance>)
    ensures forall b :: b in r <==> b in bs && b.balance > 0.0
    ensures forall i :: 0 <= i < |r| ==> r[i].balance > 0.0
    ensures forall b :: multiset(r)[b] == if b.balance > 0.0 then multiset(bs)[b] else 0
  {
    FilterCount(bs, IsCreditor);
    Filter(bs, IsCreditor)
  }

  /** Both lists keep the original order: each is built piece by piece, a
      balance contributing itself exactly when its sign qualifies. */
  lemma DebtorsKeepOrder(a: seq<Balance>, b: seq<Balance>, x: Balance)
    ensures Debtors(a + b) == Debtors(a) + Debtors(b)
    ensures Debtors([x]) == if x.balance < 0.0 then [x] else []
  {
    FilterAppend(a, b, IsDebtor);
  }

  lemma CreditorsKeepOrder(a: seq<Balance>, b: seq<Balance>, x: Balance)
    ensures Creditors(a + b) == Creditors(a) + Creditors(b)
    ensures Creditors([x]) == if x.balance > 0.0 then [x] else []
  {
    FilterAppend(a, b, IsCreditor);
  }

  /** The amount shown for a debtor: its balance without the sign. */
  function Owing(b: Balance): real { if b.balance < 0.0 then -b.balance else b.balance }

  /** Debtors, creditors and the settled split the balances exactly: no entry
      is in both lists, a settled entry is in neither, and the three counts
      add up to the number of balances. */
  lemma {:induction false} PartitionIsExact(bs: seq<Balance>)
    ensures forall b :: b in bs ==>
      (b in Debtors(bs) <==> !(b in Creditors(bs)) && !IsSettled(b))
    ensures |Debtors(bs)| + |Creditors(bs)| + |Filter(bs, IsSettled)| == |bs|
  {
    if |bs| > 0 {
      PartitionIsExact(bs[1..]);
    }
  }

  /** The balances' total is the creditors' total plus the debtors' (negative) total. */
  lemma {:induction false} PartitionSum(bs: seq<Balance>)
    ensures Sum(bs, BalanceValue) == Sum(Debtors(bs), BalanceValue) + Sum(Creditors(bs), BalanceValue)
  {
    if |bs| > 0 {
      PartitionSum(bs[1..]);
      var b := bs[0];
      if b.balance < 0.0 {
        assert Debtors(bs)[1..] == Debtors(bs[1..]);
      } else if b.balance > 0.0 {
        assert Creditors(bs)[1..] == Creditors(bs[1..]);
      }
    }
  }

  /** On a closed ledger what the debtors owe is exactly what the creditors are owed. */
  lemma DebtEqualsCredit(bs: seq<Balance>)
    requires Sum(bs, BalanceValue) == 0.0
    ensures Sum(Debtors(bs), Owing) == Sum(Creditors(bs), BalanceValue)
  {
    PartitionSum(bs);
    var ds := Debtors(bs);
    forall b | b in ds ensures Owing(b) + BalanceValue(b) == 0.0 { }
    SumLinear(ds, Owing, BalanceValue, (b: Balance) => 0.0);
    SumZero(ds, (b: Balance) => 0.0);
  }

  // ---------------------------------------------------------------------------
  // The settlement request

  /** One entry of the suggester's input: a member's name and balance. */
  datatype MemberBalance = MemberBalance(name: string, balance: real)

  function MemberBalanceValue(m: MemberBalance): real { m.balance }

  /** The suggester's input: each balance's name and amount, in order, without
      the id and avatar. */
  function SettlementInput(bs: seq<Balance>): (r: seq<MemberBalance>)
    ensures |r| == |bs|
    ensures forall i :: 0 <= i < |bs| ==> r[i].name == bs[i].name && r[i].balance == bs[i].balance
  {
    if |bs| == 0 then [] else [MemberBalance(bs[0].name, bs[0].balance)] + SettlementInput(bs[1..])
  }

  /** The request carries the ledger's total: a closed ledger yields a zero-sum request. */
  lemma {:induction false} SettlementInputKeepsTotal(bs: seq<Balance>)
    ensures Sum(SettlementInput(bs), MemberBalanceValue) == Sum(bs, BalanceValue)
  {
    if |bs| > 0 {
      SettlementInputKeepsTotal(bs[1..]);
      assert SettlementInput(bs)[1..] == SettlementInput(bs[1..]);
    }
  }

  // ---------------------------------------------------------------------------
  // The dialog's state, as written

  datatype DialogState = DialogState(loading: bool, suggestion: Option<seq<string>>, error: Option<string>)

  /** The result of one call to the suggester: its instructions, or a thrown error. */
  datatype CallOutcome = Returned(instructions: seq<string>) | Threw

  const FailureMessage: string := "Failed to get suggestion from AI. Please try again later."

  /** The `useState` initial values. */
  const Idle := DialogState(false, None, None)

  /** Never both a suggestion and an error, and neither while loading. */
  predicate Consistent(s: DialogState)
  {
    && (s.loading ==> s.suggestion.None? && s.error.None?)
    && !(s.suggestion.Some? && s.error.Some?)
  }

  /** `handleSuggest` up to the `await`: loading, with both outputs cleared. */
  function StartSuggest(s: DialogState): (r: DialogState)
    ensures Consistent(r) && r.loading
  {
    DialogState(true, None, None)
  }

  /** `handleSuggest` after the `await`: the instructions on success, the fixed
      message on failure, and `loading` off either way. A failure leaves
      `suggestion` as it was. */
  function FinishSuggest(s: DialogState, outcome: CallOutcome): (r: DialogState)
    ensures !r.loading
    ensures outcome.Returned? ==> r.suggestion == Some(outcome.instructions) && r.error == s.error
    ensures outcome.Threw? ==> r.error == Some(FailureMessage) && r.suggestion == s.suggestion
  {
    match outcome
    case Returned(instructions) => s.(loading := false, suggestion := Some(instructions))
    case Threw => s.(loading := false, error := Some(FailureMessage))
  }

  /** One whole call: afterwards exactly one of `suggestion` and `error` is set. */
  function HandleSuggest(s: DialogState, outcome: CallOutcome): (r: DialogState)
    ensures !r.loading && Consistent(r)
    ensures r.suggestion.Some? <==> outcome.Returned?
    ensures r.error.Some? <==> outcome.Threw?
  {
    FinishSuggest(StartSuggest(s), outcome)
  }

  /** `handleOpenChange`: closing clears the local state, opening keeps it;
      the flag is passed on to the dashboard either way. */
  function HandleOpenChange(s: DialogState, open: bool): (r: (DialogState, bool))
    ensures r.1 == open
    ensures !open ==> r.0 == Idle
    ensures open ==> r.0 == s
  {
    if open then (s, open) else (Idle, open)
  }

  /** A call that is still out when the dialog is closed, reopened and asked
      again lands on the new request: a success of the first call followed by
      a failure of the second leaves a suggestion and an error side by side. */
  lemma StaleResultShowsBoth()
    ensures var s1 := StartSuggest(Idle);
      var s2 := HandleOpenChange(s1, false).0;
      var s3 := HandleOpenChange(s2, true).0;
      var s4 := StartSuggest(s3);
      var s5 := FinishSuggest(s4, Returned(["Bob pays Charlie $45"]));
      var s6 := FinishSuggest(s5, Threw);
      !s3.loading && !Consistent(s6)
  {
  }

  // ---------------------------------------------------------------------------
  // The dialog's state with each call tagged

  /** The dialog state plus the number of the request whose result is awaited. */
  datatype TaggedState = TaggedState(dialog: DialogState, current: nat)

  datatype DialogEvent =
    | Press                                        // the button, enabled only when not loading
    | SetOpen(open: bool)
    | Resolve(request: nat, outcome: CallOutcome)  // some call's result arrives

  /** Starting a call or closing the dialog retires every earlier request; a
      result is applied only for the request still awaited. */
  function TaggedStep(t: TaggedState, ev: DialogEvent): (r: TaggedState)
    ensures Consistent(t.dialog) ==> Consistent(r.dialog)
    ensures Consistent(t.dialog) && ev.Resolve? && t.dialog.loading && ev.request == t.current ==>
      !r.dialog.loading && (r.dialog.suggestion.Some? <==> ev.outcome.Returned?)
                        && (r.dialog.error.Some? <==> ev.outcome.Threw?)
  {
    match ev
    case Press =>
      if t.dialog.loading then t else TaggedState(StartSuggest(t.dialog), t.current + 1)
    case SetOpen(open) =>
      if open then t else TaggedState(HandleOpenChange(t.dialog, false).0, t.current + 1)
    case Resolve(request, outcome) =>
      if request == t.current && t.dialog.loading then t.(dialog := FinishSuggest(t.dialog, outcome)) else t
  }

  function TaggedRun(t: TaggedState, evs: seq<DialogEvent>): TaggedState
    decreases |evs|
  {
    if |evs| == 0 then t else TaggedRun(TaggedStep(t, evs[0]), evs[1..])
  }

  /** With tagged requests no sequence of presses, closes, reopens and late
      results ever shows a suggestion and an error together. */
  lemma {:induction false} TaggedRunStaysConsistent(t: TaggedState, evs: seq<DialogEvent>)
    requires Consistent(t.dialog)
    ensures Consistent(TaggedRun(t, evs).dialog)
    decreases |evs|
  {
    if |evs| > 0 {
      TaggedRunStaysConsistent(TaggedStep(t, evs[0]), evs[1..]);
    }
  }

  /** The trace of `StaleResultShowsBoth`, replayed on tagged requests: the
      first call's late result is dropped and only the error is shown. */
  lemma TaggedStaleResultDropped()
    ensures var evs := [Press, SetOpen(false), SetOpen(true), Press,
                        Resolve(1, Returned(["Bob pays Charlie $45"])), Resolve(3, Threw)];
      var t := TaggedRun(TaggedState(Idle, 0), evs);
      t.dialog.suggestion.None? && t.dialog.error == Some(FailureMessage)
  {
  }
}
