/** A driver's wallet and its ledger. Amounts are paise. */
module DriverWallet {
  import opened Money
  import Runs

  datatype TxnType =
    | TripEarningsCredit
    | CashCommissionDeduction
    | Topup
    | Withdrawal
    | AdminCredit
    | AdminDebit

  /** The reference column: a withdrawal's id, its "refund_" form, or a gateway order. */
  datatype Ref = NoRef | WithdrawalRef(id: nat) | RefundRef(id: nat) | OrderRef(order: nat)

  datatype Row = Row(txn: TxnType, amount: nat, balanceAfter: int, booking: Booking, ref: Ref)

  datatype Booking = NoBooking | ForBooking(id: nat)

  datatype Wallet = Wallet(balance: int, rows: seq<Row>)

  /** Whole rupees, halves upward, of an amount in paise. */
  function RoundToRupee(paise: int): (r: int)
    ensures r % 100 == 0 && -50 < r - paise <= 50
  {
    (paise + 50) / 100 * 100
  }

  /** Every change of the balance appends one row holding the absolute amount. */
  function Adjusted(w: Wallet, delta: int, txn: TxnType, booking: Booking, ref: Ref): Wallet {
    Wallet(w.balance + delta, w.rows + [Row(txn, Abs(delta), w.balance + delta, booking, ref)])
  }

  predicate HasTripRow(rows: seq<Row>, txn: TxnType, booking: nat) {
    exists i :: 0 <= i < |rows| && rows[i].txn == txn && rows[i].booking == ForBooking(booking)
  }

  predicate HasDebit(rows: seq<Row>, id: nat) {
    exists i :: 0 <= i < |rows| && rows[i].txn == Withdrawal && rows[i].ref == WithdrawalRef(id)
  }

  predicate HasRefund(rows: seq<Row>, id: nat) {
    exists i :: 0 <= i < |rows| && rows[i].ref == RefundRef(id)
  }

  function AfterTripEarnings(w: Wallet, amount: int, booking: nat): Wallet {
    if HasTripRow(w.rows, TripEarningsCredit, booking) then w
    else Adjusted(w, amount, TripEarningsCredit, ForBooking(booking), NoRef)
  }

  function AfterCashCommission(w: Wallet, commission: int, shield: int, booking: nat): Wallet {
    if HasTripRow(w.rows, CashCommissionDeduction, booking) then w
    else Adjusted(w, -RoundToRupee(commission + shield), CashCommissionDeduction, ForBooking(booking), NoRef)
  }

  /** A top-up that is not positive is refused. */
  function AfterTopUp(w: Wallet, amount: int, order: nat): Wallet {
    if amount <= 0 then w else Adjusted(w, amount, Topup, NoBooking, OrderRef(order))
  }

  /** Fails, changing nothing, when the balance does not cover the amount. */
  function AfterWithdrawalDebit(w: Wallet, amount: int, id: nat): (Wallet, bool) {
    if HasDebit(w.rows, id) then (w, true)
    else if amount > w.balance then (w, false)
    else (Adjusted(w, -amount, Withdrawal, NoBooking, WithdrawalRef(id)), true)
  }

  function AfterWithdrawalRefund(w: Wallet, amount: int, id: nat): Wallet {
    if HasRefund(w.rows, id) then w else Adjusted(w, amount, AdminCredit, NoBooking, RefundRef(id))
  }

  // ---------------------------------------------------------------------------------------
  // Runs
  // ---------------------------------------------------------------------------------------

  datatype Event =
    | TripEarnings(amount: int, booking: nat)
    | CashCommission(commission: int, shield: int, booking: nat)
    | TopUp(amount: int, order: nat)
    | Debit(amount: int, id: nat)
    | Refund(amount: int, id: nat)
    | Admin(delta: int)

  function Step(w: Wallet, e: Event): Wallet {
    match e
    case TripEarnings(amount, booking) => AfterTripEarnings(w, amount, booking)
    case CashCommission(commission, shield, booking) => AfterCashCommission(w, commission, shield, booking)
    case TopUp(amount, order) => AfterTopUp(w, amount, order)
    case Debit(amount, id) => AfterWithdrawalDebit(w, amount, id).0
    case Refund(amount, id) => AfterWithdrawalRefund(w, amount, id)
    case Admin(delta) => Adjusted(w, delta, if delta < 0 then AdminDebit else AdminCredit, NoBooking, NoRef)
  }

  /** The balance before row `i`. */
  function Before(opening: int, rows: seq<Row>, i: nat): int
    requires i <= |rows|
  {
    if i == 0 then opening else rows[i - 1].balanceAfter
  }

  /** The ledger tells the whole story: row after row, from the opening balance to the
      present one, each amount is the distance between consecutive balances. */
  ghost predicate LedgerAgrees(opening: int, w: Wallet) {
    && w.balance == Before(opening, w.rows, |w.rows|)
    && forall i :: 0 <= i < |w.rows| ==>
         w.rows[i].amount == Abs(w.rows[i].balanceAfter - Before(opening, w.rows, i))
  }

  /** No trip is credited twice, none is charged its cash commission twice, no withdrawal is
      debited twice or refunded twice. */
  ghost predicate NoDoubles(rows: seq<Row>) {
    forall i, j :: 0 <= i < j < |rows| ==> !Doubles(rows[i], rows[j])
  }

  predicate Doubles(r: Row, q: Row) {
    || (r.txn == q.txn && r.booking == q.booking && r.booking.ForBooking?)
    || (r.ref == q.ref && (r.ref.WithdrawalRef? || r.ref.RefundRef?))
  }

  /** Only withdrawal debits carry a withdrawal's reference, and none of them leaves the
      balance below zero. */
  ghost predicate WellTyped(rows: seq<Row>) {
    forall i :: 0 <= i < |rows| ==> RowWellTyped(rows[i])
  }

  predicate RowWellTyped(r: Row) {
    && (r.ref.WithdrawalRef? <==> r.txn == Withdrawal)
    && (r.txn == Withdrawal ==> r.balanceAfter >= 0)
  }

  ghost predicate Sound(opening: int, w: Wallet) {
    LedgerAgrees(opening, w) && NoDoubles(w.rows) && WellTyped(w.rows)
  }

  lemma AdjustedAgrees(opening: int, w: Wallet, delta: int, txn: TxnType, booking: Booking, ref: Ref)
    requires LedgerAgrees(opening, w)
    ensures LedgerAgrees(opening, Adjusted(w, delta, txn, booking, ref))
  {
    var v := Adjusted(w, delta, txn, booking, ref);
    forall i | 0 <= i < |v.rows|
      ensures v.rows[i].amount == Abs(v.rows[i].balanceAfter - Before(opening, v.rows, i))
    {
      assert Before(opening, v.rows, i) == Before(opening, w.rows, i);
      if i < |w.rows| {
        assert v.rows[i] == w.rows[i];
      }
    }
  }

  lemma AppendNoDoubles(rows: seq<Row>, r: Row)
    requires NoDoubles(rows)
    requires forall i :: 0 <= i < |rows| ==> !Doubles(rows[i], r)
    ensures NoDoubles(rows + [r])
  {
  }

  /** What each guard of the service establishes before it appends its row. */
  lemma GuardsPreventDoubles(rows: seq<Row>, r: Row)
    requires WellTyped(rows) && RowWellTyped(r)
    requires r.booking.ForBooking? ==> !HasTripRow(rows, r.txn, r.booking.id)
    requires r.ref.WithdrawalRef? ==> !HasDebit(rows, r.ref.id)
    requires r.ref.RefundRef? ==> !HasRefund(rows, r.ref.id)
    ensures forall i :: 0 <= i < |rows| ==> !Doubles(rows[i], r)
  {
  }

  lemma AdjustedSound(opening: int, w: Wallet, delta: int, txn: TxnType, booking: Booking, ref: Ref)
    requires Sound(opening, w)
    requires booking.ForBooking? ==> !HasTripRow(w.rows, txn, booking.id)
    requires ref.WithdrawalRef? ==> !HasDebit(w.rows, ref.id)
    requires ref.RefundRef? ==> !HasRefund(w.rows, ref.id)
    requires ref.WithdrawalRef? <==> txn == Withdrawal
    requires txn == Withdrawal ==> w.balance + delta >= 0
    ensures Sound(opening, Adjusted(w, delta, txn, booking, ref))
  {
    var r := Row(txn, Abs(delta), w.balance + delta, booking, ref);
    AdjustedAgrees(opening, w, delta, txn, booking, ref);
    GuardsPreventDoubles(w.rows, r);
    AppendNoDoubles(w.rows, r);
  }

  lemma TripSound(opening: int, w: Wallet, delta: int, txn: TxnType, booking: nat)
    requires Sound(opening, w) && txn != Withdrawal && !HasTripRow(w.rows, txn, booking)
    ensures Sound(opening, Adjusted(w, delta, txn, ForBooking(booking), NoRef))
  {
    AdjustedSound(opening, w, delta, txn, ForBooking(booking), NoRef);
  }

  lemma DebitSound(opening: int, w: Wallet, amount: int, id: nat)
    requires Sound(opening, w)
    ensures Sound(opening, AfterWithdrawalDebit(w, amount, id).0)
  {
    if !HasDebit(w.rows, id) && amount <= w.balance {
      AdjustedSound(opening, w, -amount, Withdrawal, NoBooking, WithdrawalRef(id));
    }
  }

  lemma RefundSound(opening: int, w: Wallet, amount: int, id: nat)
    requires Sound(opening, w)
    ensures Sound(opening, AfterWithdrawalRefund(w, amount, id))
  {
    if !HasRefund(w.rows, id) {
      AdjustedSound(opening, w, amount, AdminCredit, NoBooking, RefundRef(id));
    }
  }

  lemma StepSound(opening: int, w: Wallet, e: Event)
    requires Sound(opening, w)
    ensures Sound(opening, Step(w, e))
  {
    hide Sound;
    match e
    case TripEarnings(amount, booking) =>
      if !HasTripRow(w.rows, TripEarningsCredit, booking) {
        TripSound(opening, w, amount, TripEarningsCredit, booking);
      }
    case CashCommission(commission, shield, booking) =>
      if !HasTripRow(w.rows, CashCommissionDeduction, booking) {
        TripSound(opening, w, -RoundToRupee(commission + shield), CashCommissionDeduction, booking);
      }
    case TopUp(amount, order) =>
      AdjustedSound(opening, w, amount, Topup, NoBooking, OrderRef(order));
    case Debit(amount, id) => DebitSound(opening, w, amount, id);
    case Refund(amount, id) => RefundSound(opening, w, amount, id);
    case Admin(delta) =>
      AdjustedSound(opening, w, delta, if delta < 0 then AdminDebit else AdminCredit, NoBooking, NoRef);
  }

  /** Over any run of wallet operations, repeated and in any order. */
  lemma LedgerAlwaysSound(opening: int, es: seq<Event>)
    ensures var w := Runs.Run(Step, Wallet(opening, []), es);
      LedgerAgrees(opening, w) && NoDoubles(w.rows) && WellTyped(w.rows)
  {
    forall w, e | Sound(opening, w) ensures Sound(opening, Step(w, e)) {
      StepSound(opening, w, e);
    }
    Runs.RunKeeps(Step, w => Sound(opening, w), Wallet(opening, []), es);
  }

  /** The sum of the changes the ledger records for some of its rows, recovered from
      consecutive balances. */
  function Movement(opening: int, rows: seq<Row>, mine: Row -> bool): int {
    if rows == [] then 0
    else
      var n := |rows| - 1;
      var rest := Movement(opening, rows[..n], mine);
      if mine(rows[n]) then rest + rows[n].balanceAfter - Before(opening, rows, n) else rest
  }

  /** Nothing is lost or made: the balance is the opening plus what the ledger moved. */
  lemma {:induction false} LedgerConserves(opening: int, rows: seq<Row>)
    ensures opening + Movement(opening, rows, r => true) == Before(opening, rows, |rows|)
  {
    if rows != [] {
      var n := |rows| - 1;
      LedgerConserves(opening, rows[..n]);
      assert Before(opening, rows[..n], n) == Before(opening, rows, n);
    }
  }

  // ---------------------------------------------------------------------------------------
  // The service
  // ---------------------------------------------------------------------------------------

  class DriverWalletService {
    var balance: int
    var rows: seq<Row>

    ghost function State(): Wallet
      reads this
    {
      Wallet(balance, rows)
    }

    constructor (opening: int)
      ensures State() == Wallet(opening, [])
    {
      balance, rows := opening, [];
    }

    method AdjustWallet(delta: int, txn: TxnType, booking: Booking, ref: Ref) returns (newBalance: int)
      modifies this
      ensures State() == Adjusted(old(State()), delta, txn, booking, ref)
      ensures newBalance == balance
    {
      newBalance := balance + delta;
      balance := newBalance;
      rows := rows + [Row(txn, Abs(delta), newBalance, booking, ref)];
    }

    method CreditTripEarnings(amount: int, booking: nat) returns (newBalance: int)
      modifies this
      ensures State() == AfterTripEarnings(old(State()), amount, booking)
      ensures newBalance == balance
    {
      if HasTripRow(rows, TripEarningsCredit, booking) {
        return balance;
      }
      newBalance := AdjustWallet(amount, TripEarningsCredit, ForBooking(booking), NoRef);
    }

    method DeductCashCommission(commission: int, shield: int, booking: nat) returns (newBalance: int)
      modifies this
      ensures State() == AfterCashCommission(old(State()), commission, shield, booking)
      ensures newBalance == balance
    {
      if HasTripRow(rows, CashCommissionDeduction, booking) {
        return balance;
      }
      var total := RoundToRupee(commission + shield);
      newBalance := AdjustWallet(-total, CashCommissionDeduction, ForBooking(booking), NoRef);
    }

    method TopUp(amount: int, order: nat) returns (ok: bool)
      modifies this
      ensures State() == AfterTopUp(old(State()), amount, order)
      ensures ok <==> amount > 0
    {
      if amount <= 0 {
        return false;
      }
      var newBalance := AdjustWallet(amount, Topup, NoBooking, OrderRef(order));
      return true;
    }

    method WithdrawalDebit(amount: int, id: nat) returns (ok: bool)
      modifies this
      ensures (State(), ok) == AfterWithdrawalDebit(old(State()), amount, id)
    {
      if HasDebit(rows, id) {
        return true;
      }
      var current := balance;
      if amount > current {
        return false;
      }
      balance := current - amount;
      rows := rows + [Row(Withdrawal, Abs(amount), balance, NoBooking, WithdrawalRef(id))];
      return true;
    }

    method WithdrawalRefund(amount: int, id: nat) returns (newBalance: int)
      modifies this
      ensures State() == AfterWithdrawalRefund(old(State()), amount, id)
      ensures newBalance == balance
    {
      if HasRefund(rows, id) {
        return balance;
      }
      newBalance := AdjustWallet(amount, AdminCredit, NoBooking, RefundRef(id));
    }
  }
}
