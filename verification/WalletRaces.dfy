/** The wallet's idempotency guards under overlap: every operation looks for its own row
    first, and only then, in a transaction that locks the balance, appends it. Any number of
    calls interleave between the two. */
module WalletRaces {
  import opened Money
  import opened DriverWallet
  import Runs

  /** What the guard looks for. Top-ups and admin adjustments have none. */
  predicate Found(rows: seq<Row>, op: DriverWallet.Event) {
    match op
    case TripEarnings(_, booking) => HasTripRow(rows, TripEarningsCredit, booking)
    case CashCommission(_, _, booking) => HasTripRow(rows, CashCommissionDeduction, booking)
    case Debit(_, id) => HasDebit(rows, id)
    case Refund(_, id) => HasRefund(rows, id)
    case _ => false
  }

  /** Whether the transaction goes through: the balance is read again under its lock. */
  predicate GoesThrough(balance: int, op: DriverWallet.Event) {
    (op.Debit? ==> op.amount <= balance) && (op.TopUp? ==> op.amount > 0)
  }

  function Delta(op: DriverWallet.Event): int {
    match op
    case TripEarnings(amount, _) => amount
    case CashCommission(commission, shield, _) => -RoundToRupee(commission + shield)
    case TopUp(amount, _) => amount
    case Debit(amount, _) => -amount
    case Refund(amount, _) => amount
    case Admin(delta) => delta
  }

  function NewRow(balance: int, op: DriverWallet.Event): Row {
    var (txn, booking, ref) :=
      match op
      case TripEarnings(_, booking) => (TripEarningsCredit, ForBooking(booking), NoRef)
      case CashCommission(_, _, booking) => (CashCommissionDeduction, ForBooking(booking), NoRef)
      case TopUp(_, order) => (Topup, NoBooking, OrderRef(order))
      case Debit(_, id) => (Withdrawal, NoBooking, WithdrawalRef(id))
      case Refund(_, id) => (AdminCredit, NoBooking, RefundRef(id))
      case Admin(delta) => (if delta < 0 then AdminDebit else AdminCredit, NoBooking, NoRef);
    Row(txn, Abs(Delta(op)), balance + Delta(op), booking, ref)
  }

  function Appended(w: Wallet, op: DriverWallet.Event): Wallet {
    if GoesThrough(w.balance, op)
    then Wallet(w.balance + Delta(op), w.rows + [NewRow(w.balance, op)]) else w
  }

  /** With nothing in between, guard and transaction are the operations of the service. */
  lemma GuardThenAppend(w: Wallet, op: DriverWallet.Event)
    ensures DriverWallet.Step(w, op) == if Found(w.rows, op) then w else Appended(w, op)
  {
  }

  /** `calls` have passed their guard and not yet appended; `late` counts the rows appended
      although by then the guard would have found one. */
  datatype World = World(wallet: Wallet, calls: map<nat, DriverWallet.Event>, late: nat)

  datatype Event = Guard(call: nat, op: DriverWallet.Event) | Append(call: nat)

  predicate Late(w: Wallet, op: DriverWallet.Event) {
    Found(w.rows, op) && GoesThrough(w.balance, op)
  }

  function Step(w: World, e: Event): World {
    match e
    case Guard(call, op) =>
      if call in w.calls || Found(w.wallet.rows, op) then w else w.(calls := w.calls[call := op])
    case Append(call) =>
      if call !in w.calls then w
      else
        var op := w.calls[call];
        World(Appended(w.wallet, op), w.calls - {call}, if Late(w.wallet, op) then w.late + 1 else w.late)
  }

  function Init(opening: int): World {
    World(Wallet(opening, []), map[], 0)
  }

  ghost predicate Holds(opening: int, w: World) {
    && LedgerAgrees(opening, w.wallet)
    && WellTyped(w.wallet.rows)
    && (NoDoubles(w.wallet.rows) <==> w.late == 0)
  }

  /** The guard finds a row exactly when the new one would double it. */
  lemma FoundExactly(rows: seq<Row>, balance: int, op: DriverWallet.Event)
    requires WellTyped(rows)
    ensures Found(rows, op) <==> exists i :: 0 <= i < |rows| && Doubles(rows[i], NewRow(balance, op))
  {
    assert forall i :: 0 <= i < |rows| ==> RowWellTyped(rows[i]);
    if i :| 0 <= i < |rows| && Doubles(rows[i], NewRow(balance, op)) {
      assert RowWellTyped(rows[i]);
    }
    if Found(rows, op) {
      var i :| 0 <= i < |rows| && Doubles(rows[i], NewRow(balance, op));
    }
  }

  lemma AppendDoubles(rows: seq<Row>, r: Row)
    ensures NoDoubles(rows + [r]) <==> NoDoubles(rows) && !exists i :: 0 <= i < |rows| && Doubles(rows[i], r)
  {
    var all := rows + [r];
    assert forall i :: 0 <= i < |rows| ==> all[i] == rows[i];
    assert all[|rows|] == r;
  }

  lemma AppendHolds(opening: int, w: Wallet, op: DriverWallet.Event)
    requires LedgerAgrees(opening, w) && WellTyped(w.rows)
    ensures var v := Appended(w, op);
      && LedgerAgrees(opening, v) && WellTyped(v.rows)
      && (NoDoubles(v.rows) <==> NoDoubles(w.rows) && !Late(w, op))
  {
    if GoesThrough(w.balance, op) {
      AppendTyped(w, op);
      AppendAgrees(opening, w, op);
      hide LedgerAgrees, NoDoubles, WellTyped, Found, Doubles, NewRow, Delta;
      FoundExactly(w.rows, w.balance, op);
      AppendDoubles(w.rows, NewRow(w.balance, op));
    }
  }

  lemma AppendAgrees(opening: int, w: Wallet, op: DriverWallet.Event)
    requires LedgerAgrees(opening, w)
    ensures LedgerAgrees(opening, Appended(w, op))
  {
    hide LedgerAgrees, RoundToRupee, Abs;
    var r := NewRow(w.balance, op);
    AdjustedAgrees(opening, w, Delta(op), r.txn, r.booking, r.ref);
  }

  lemma AppendTyped(w: Wallet, op: DriverWallet.Event)
    requires WellTyped(w.rows)
    ensures WellTyped(Appended(w, op).rows)
  {
  }

  lemma RunHolds(opening: int, es: seq<Event>)
    ensures Holds(opening, Runs.Run(Step, Init(opening), es))
  {
    forall w, e | Holds(opening, w) ensures Holds(opening, Step(w, e)) {
      if e.Append? && e.call in w.calls {
        AppendHolds(opening, w.wallet, w.calls[e.call]);
      }
    }
    Runs.RunKeeps(Step, w => Holds(opening, w), Init(opening), es);
  }

  /** However calls overlap, the ledger tells the whole story and no withdrawal debit leaves
      the balance below zero. */
  lemma LedgerAgreesUnderOverlap(opening: int, es: seq<Event>)
    ensures var w := Runs.Run(Step, Init(opening), es).wallet;
      LedgerAgrees(opening, w) && WellTyped(w.rows)
  {
    RunHolds(opening, es);
  }

  /** But nothing is credited, deducted, debited or refunded twice if and only if no call
      appends a row that has appeared since its guard looked for it. */
  lemma NoDoublesExactly(opening: int, es: seq<Event>)
    ensures var w := Runs.Run(Step, Init(opening), es);
      NoDoubles(w.wallet.rows) <==> w.late == 0
  {
    RunHolds(opening, es);
  }

  /** After any run without doubles: the next event makes one if and only if it appends for a
      call whose guard, asked again, would find the row. */
  lemma NextDoubleExactly(opening: int, es: seq<Event>, e: Event)
    ensures var w := Runs.Run(Step, Init(opening), es);
      NoDoubles(w.wallet.rows) ==>
        (NoDoubles(Step(w, e).wallet.rows) <==> !(e.Append? && e.call in w.calls && Late(w.wallet, w.calls[e.call])))
  {
    RunHolds(opening, es);
    var w := Runs.Run(Step, Init(opening), es);
    if e.Append? && e.call in w.calls {
      AppendHolds(opening, w.wallet, w.calls[e.call]);
    }
  }

  /** A failure webhook and an admin's rejection of the same withdrawal both find no refund. */
  lemma OverlappingRefundsPayTwice(opening: int)
    ensures var w := Runs.Run(Step, Init(opening),
        [Guard(1, Refund(50000, 7)), Guard(2, Refund(50000, 7)), Append(1), Append(2)]);
      w.wallet.balance == opening + 100000 && !NoDoubles(w.wallet.rows) && w.late == 1
  {
    var es := [Guard(1, Refund(50000, 7)), Guard(2, Refund(50000, 7)), Append(1), Append(2)];
    var w0 := Init(opening);
    var w1 := Step(w0, es[0]);
    var w2 := Step(w1, es[1]);
    var w3 := Step(w2, es[2]);
    assert w3.wallet.rows[0] == Row(AdminCredit, 50000, opening + 50000, NoBooking, RefundRef(7));
    var w4 := Step(w3, es[3]);
    assert Doubles(w4.wallet.rows[0], w4.wallet.rows[1]);
    Runs.RunTrace(Step, es, [w0, w1, w2, w3, w4]);
  }
}
