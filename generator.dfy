/** How `create_fake_expenses` builds one record from its random draws, the
    draws themselves being parameters. As written, whether a record gets a
    card type depends on a second, independent draw of a payment method
    rather than on the record's own payment method. */
module Generator {
  import opened Common
  import opened Grouping
  import opened Leaderboards

  /** The values one iteration of the generator draws. `cardDraw` is the
      second `random.choice(payment_methods)` of the card-type line. */
  datatype Draw = Draw(
    name: string,
    amount: nat,
    date: Day,
    category: string,
    paymentMethod: PaymentMethod,
    cardDraw: PaymentMethod,
    card: string)

  /** The record as the generator builds it. */
  function MakeExpenseAsWritten(d: Draw): (e: Expense)
    ensures e.paymentMethod == d.paymentMethod
    ensures e.cardType.Some? <==> d.cardDraw == Card
  {
    Expense(d.name, d.amount, d.date, d.category, d.paymentMethod,
      if d.cardDraw == Card then Some(d.card) else None)
  }

  /** The record as evidently intended: a card type exactly for Card payments. */
  function MakeExpense(d: Draw): (e: Expense)
    ensures e.paymentMethod == d.paymentMethod
    ensures e.cardType.Some? <==> e.paymentMethod == Card
  {
    Expense(d.name, d.amount, d.date, d.category, d.paymentMethod,
      if d.paymentMethod == Card then Some(d.card) else None)
  }

  /** Every record has a card type exactly when it is a Card payment. */
  predicate CardTypesConsistent(es: seq<Expense>)
  {
    forall j :: 0 <= j < |es| ==> (es[j].cardType.Some? <==> es[j].paymentMethod == Card)
  }

  /** Records built the intended way are consistent. */
  lemma MadeConsistent(ds: seq<Draw>)
    ensures CardTypesConsistent(seq(|ds|, i requires 0 <= i < |ds| => MakeExpense(ds[i])))
  {
  }

  /** As written, one draw gives a Card payment with no card type: the card
      board then has no row for it although the payment board counts its
      amount under "Card"; another gives a Cash payment with a card type. */
  lemma AsWrittenLosesCardPayment()
    ensures var e := MakeExpenseAsWritten(Draw("John", 500, 0, "Food", Card, Cash, "Chase"));
      && e.paymentMethod == Card && e.cardType == None
      && CardTypeLeaderboard([e]) == Some([])
      && SumFor([e], ByPaymentMethod, "Card") == 500
    ensures var e := MakeExpenseAsWritten(Draw("Sarah", 700, 0, "Bills", Cash, Card, "Bilt"));
      && e.paymentMethod == Cash && e.cardType == Some("Bilt")
  {
    var e := MakeExpenseAsWritten(Draw("John", 500, 0, "Food", Card, Cash, "Chase"));
    assert CardExpenses([e]) == [e];
    assert GroupBy([e], ByCardType) == [];
    assert WithAverages([]) == [];
  }

  /** Sum of the amounts of the Card payments. */
  function CardTotal(es: seq<Expense>): nat
  {
    if es == [] then 0
    else (if es[0].paymentMethod == Card then es[0].amount else 0) + CardTotal(es[1..])
  }

  /** Number of the Card payments. */
  function CardCount(es: seq<Expense>): nat
  {
    if es == [] then 0
    else (if es[0].paymentMethod == Card then 1 else 0) + CardCount(es[1..])
  }

  lemma {:induction false} CardFiguresAgree(es: seq<Expense>)
    requires CardTypesConsistent(es)
    ensures KeyedSum(CardExpenses(es), ByCardType) == CardTotal(es) == SumFor(es, ByPaymentMethod, "Card")
    ensures KeyedCount(CardExpenses(es), ByCardType) == CardCount(es) == CountFor(es, ByPaymentMethod, "Card")
  {
    if es != [] {
      assert CardTypesConsistent(es[1..]) by {
        forall j | 0 <= j < |es[1..]|
          ensures es[1..][j].cardType.Some? <==> es[1..][j].paymentMethod == Card
        {
          assert es[1..][j] == es[j + 1];
        }
      }
      CardFiguresAgree(es[1..]);
    }
  }

  /** With consistent records, the card-type board accounts for every Card
      payment: its totals and counts add up to the "Card" row of the
      payment-method board. */
  lemma CardBoardCoversCardPayments(es: seq<Expense>)
    requires CardTypesConsistent(es)
    requires CardTypeLeaderboard(es).Some?
    ensures Totals(Groups(CardTypeLeaderboard(es).value)) == SumFor(es, ByPaymentMethod, "Card")
    ensures Counts(Groups(CardTypeLeaderboard(es).value)) == CountFor(es, ByPaymentMethod, "Card")
  {
    CardFiguresAgree(es);
  }
}
