/** The records of the expense tracker: members, groups, expenses with their
    split, and the per-member balances the dashboard derives from them.
    Amounts are exact reals; a date is the millisecond time value of the
    stored ISO date string. */
module Types {

  /** Milliseconds since the epoch; only its order matters to the ledger. */
  type Date = int

  datatype Option<T> = None | Some(value: T)

  datatype Result<T, E> = Success(value: T) | Failure(error: E)

  datatype Member = Member(id: string, name: string, avatarId: string)

  /** One element of an expense's split: a member and their share. */
  datatype SplitEntry = SplitEntry(memberId: string, amount: real)

  datatype Expense = Expense(
    id: string,
    description: string,
    amount: real,
    paidBy: string,
    split: seq<SplitEntry>,
    date: Date,
    groupId: string)

  datatype Group = Group(id: string, name: string, members: seq<Member>)

  datatype Balance = Balance(memberId: string, name: string, avatarId: string, balance: real)

  /** The ids of a member list, in order. */
  function MemberIds(ms: seq<Member>): (ids: seq<string>)
    ensures |ids| == |ms|
    ensures forall i :: 0 <= i < |ms| ==> ids[i] == ms[i].id
  {
    if |ms| == 0 then [] else [ms[0].id] + MemberIds(ms[1..])
  }

  /** No two members of the list share an id. */
  predicate DistinctIds(ms: seq<Member>)
  {
    forall i, j :: 0 <= i < j < |ms| ==> ms[i].id != ms[j].id
  }

  function ExpenseAmount(e: Expense): real { e.amount }

  function EntryAmount(s: SplitEntry): real { s.amount }

  function BalanceValue(b: Balance): real { b.balance }
}
