/** The balance cards: one per balance, keyed by member id, with a status line
    and an amount colour chosen from the sign of the balance. */
module BalanceSummary {
  import opened Types
  import opened SettleUp
  import Dashboard

  datatype Status = SettledUp | IsOwed | Owes

  /** The status line of a card. */
  function StatusText(s: Status): string
  {
    match s
    case SettledUp => "Settled up"
    case IsOwed => "is owed"
    case Owes => "owes"
  }

  /** The status line chosen from the sign of the balance: settled at zero,
      owed above it, owing below it. */
  function StatusOf(balance: real): (s: Status)
    ensures s == SettledUp <==> balance == 0.0
    ensures s == IsOwed <==> balance > 0.0
    ensures s == Owes <==> balance < 0.0
  {
    if balance == 0.0 then SettledUp else if balance > 0.0 then IsOwed else Owes
  }

  /** The amount's colour: the destructive red or the positive green. */
  datatype Tone = Destructive | Emerald

  function ToneOf(balance: real): (t: Tone)
    ensures t == Destructive <==> balance < 0.0
  {
    if balance < 0.0 then Destructive else Emerald
  }

  datatype Card = Card(key: string, name: string, avatarId: string, balance: real, tone: Tone, status: Status)

  function CardOf(b: Balance): Card
  {
    Card(b.memberId, b.name, b.avatarId, b.balance, ToneOf(b.balance), StatusOf(b.balance))
  }

  /** One card per balance, in order. */
  function Cards(bs: seq<Balance>): (r: seq<Card>)
    ensures |r| == |bs|
    ensures forall i :: 0 <= i < |bs| ==>
      && r[i].key == bs[i].memberId && r[i].name == bs[i].name && r[i].avatarId == bs[i].avatarId
      && r[i].balance == bs[i].balance
      && r[i].status == StatusOf(bs[i].balance) && r[i].tone == ToneOf(bs[i].balance)
      && (r[i].tone == Destructive <==> r[i].status == Owes)
  {
    if |bs| == 0 then [] else [CardOf(bs[0])] + Cards(bs[1..])
  }

  /** A card's text tells the sign of its balance: it reads "owes" exactly
      below zero, "is owed" exactly above it and "Settled up" exactly at it. */
  lemma CardTextFollowsBalance(bs: seq<Balance>, i: nat)
    requires i < |bs|
    ensures StatusText(Cards(bs)[i].status) == "owes" <==> bs[i].balance < 0.0
    ensures StatusText(Cards(bs)[i].status) == "is owed" <==> bs[i].balance > 0.0
    ensures StatusText(Cards(bs)[i].status) == "Settled up" <==> bs[i].balance == 0.0
  {
    var t := StatusText(Cards(bs)[i].status);
    assert "owes"[0] != "is owed"[0] && "owes"[0] != "Settled up"[0] && "is owed"[0] != "Settled up"[0];
    assert t == "owes" ==> t[0] == 'o';
    assert t == "is owed" ==> t[0] == 'i';
    assert t == "Settled up" ==> t[0] == 'S';
  }

  /** A zero balance reads "Settled up" yet takes the positive colour. */
  lemma SettledIsNotDestructive(balance: real)
    requires StatusOf(balance) == SettledUp
    ensures ToneOf(balance) == Emerald
  {
  }

  /** The cards agree with the settle-up dialog: "owes" exactly for its
      debtors, "is owed" exactly for its creditors, "Settled up" for neither. */
  lemma StatusAgreesWithSettleUp(bs: seq<Balance>, b: Balance)
    requires b in bs
    ensures StatusOf(b.balance) == Owes <==> b in Debtors(bs)
    ensures StatusOf(b.balance) == IsOwed <==> b in Creditors(bs)
    ensures StatusOf(b.balance) == SettledUp <==> b !in Debtors(bs) && b !in Creditors(bs)
  {
  }

  /** Card keys are unique whenever the balances' member ids are. */
  lemma CardKeysUnique(bs: seq<Balance>)
    requires forall i, j :: 0 <= i < j < |bs| ==> bs[i].memberId != bs[j].memberId
    ensures forall i, j :: 0 <= i < j < |Cards(bs)| ==> Cards(bs)[i].key != Cards(bs)[j].key
  {
  }

  /** On the dashboard every card key is distinct when the group's member ids are. */
  lemma DashboardCardKeysUnique(g: Group, es: seq<Expense>)
    requires DistinctIds(g.members)
    ensures var cards := Cards(Dashboard.Balances(Some(g), es));
      forall i, j :: 0 <= i < j < |cards| ==> cards[i].key != cards[j].key
  {
    CardKeysUnique(Dashboard.Balances(Some(g), es));
  }
}
