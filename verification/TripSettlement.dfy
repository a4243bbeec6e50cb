/** What completing a trip leaves with the driver: the fare arithmetic of FareQuote paid
    through the ledger of DriverWallet. */
module TripSettlement {
  import opened Money
  import opened FareQuote
  import opened DriverWallet

  datatype Method = Cash | Online

  function Paise(rupees: real): int {
    Round(rupees * 100.0)
  }

  /** The wallet side of completing a trip. `alreadyPaid` says that a completed payment of
      the booking exists. */
  function AfterSettlement(w: Wallet, s: Settlement, how: Method, alreadyPaid: bool, booking: nat): Wallet {
    if how.Cash? && !alreadyPaid then AfterCashCommission(w, Paise(CashRecovery(s)), 0, booking)
    else if how.Online? then AfterTripEarnings(w, Paise(s.driverEarnings), booking)
    else w
  }

  /** Cash in hand, in paise: collected only when nothing was paid before. */
  function CashInHand(s: Settlement, how: Method, alreadyPaid: bool): int {
    if how.Cash? && !alreadyPaid then 100 * s.cashCollected else 0
  }

  function DriverNet(w: Wallet, s: Settlement, how: Method, alreadyPaid: bool, booking: nat): int {
    CashInHand(s, how, alreadyPaid) + AfterSettlement(w, s, how, alreadyPaid, booking).balance - w.balance
  }

  lemma WholePaiseInPaise(x: real)
    requires WholePaise(x)
    ensures Paise(x) as real == x * 100.0
  {
    RoundOfWhole((x * 100.0).Floor);
  }

  lemma RecoveryInPaise(t: Trip)
    ensures var s := CompleteTrip(t);
      Paise(CashRecovery(s)) == 100 * s.cashCollected - Paise(s.driverEarnings)
  {
    var s := CompleteTrip(t);
    RecoveryExact(t);
    WholePaiseInPaise(s.driverEarnings);
    var n := 100 * s.cashCollected - Paise(s.driverEarnings);
    assert n as real == CashRecovery(s) * 100.0;
    RoundOfWhole(n);
  }

  /** The debit in paise is the one of the fare arithmetic, in whole rupees. */
  lemma DebitAgrees(recovery: real)
    requires WholePaise(recovery)
    ensures RoundToRupee(Paise(recovery)) == 100 * CashDebit(recovery, 0.0)
  {
    WholePaiseInPaise(recovery);
    var p, r := Paise(recovery), CashDebit(recovery, 0.0);
    assert r as real - 0.5 <= recovery + 0.0 < r as real + 0.5;
    assert 100.0 * (r as real) - 50.0 <= p as real < 100.0 * (r as real) + 50.0;
    assert 100 * r - 50 <= p < 100 * r + 50;
    var q := RoundToRupee(p);
    assert q % 100 == 0 && -50 < q - p <= 50;
  }

  /** The first settlement of a booking. Online pays the earnings to the paisa; cash pays them
      to half a rupee, and exactly if and only if they are whole rupees; a trip closed as cash
      although it was already paid leaves the driver with nothing at all. */
  lemma DriverNetSettled(w: Wallet, t: Trip, how: Method, alreadyPaid: bool, booking: nat)
    requires !HasTripRow(w.rows, TripEarningsCredit, booking)
    requires !HasTripRow(w.rows, CashCommissionDeduction, booking)
    ensures var s := CompleteTrip(t);
      var earned := Paise(s.driverEarnings);
      var net := DriverNet(w, s, how, alreadyPaid, booking);
      && (how.Online? ==> net == earned)
      && (how.Cash? && !alreadyPaid ==> -50 <= net - earned <= 50 && (net == earned <==> earned % 100 == 0))
      && (how.Cash? && alreadyPaid ==> net == 0)
  {
    var s := CompleteTrip(t);
    RecoveryInPaise(t);
    RupeeRounding(s.cashCollected, Paise(s.driverEarnings));
  }

  lemma RupeeRounding(collected: int, earned: int)
    ensures var net := 100 * collected - RoundToRupee(100 * collected - earned);
      -50 <= net - earned <= 50 && (net == earned <==> earned % 100 == 0)
  {
  }

  /** Settling the same booking again, in the same way, changes nothing. */
  lemma SettlementIdempotent(w: Wallet, s: Settlement, how: Method, alreadyPaid: bool, booking: nat)
    ensures var v := AfterSettlement(w, s, how, alreadyPaid, booking);
      AfterSettlement(v, s, how, alreadyPaid, booking) == v
  {
    var v := AfterSettlement(w, s, how, alreadyPaid, booking);
    if v != w {
      assert v.rows[|w.rows|] == v.rows[|v.rows| - 1];
    }
  }

  /** Completions that overlap may settle one trip in two ways, or under the booking's id and
      the offer's. A second settlement after a first one changes nothing if and only if it is
      cash on a trip it finds paid, or repeats the first one, in its way and under its id, and
      the first one did write. */
  lemma SecondSettlementExactly(w: Wallet, s: Settlement, how: Method, paid: bool, booking: nat,
                                how': Method, paid': bool, booking': nat)
    requires !HasTripRow(w.rows, TripEarningsCredit, booking) && !HasTripRow(w.rows, CashCommissionDeduction, booking)
    requires !HasTripRow(w.rows, TripEarningsCredit, booking') && !HasTripRow(w.rows, CashCommissionDeduction, booking')
    ensures var v := AfterSettlement(w, s, how, paid, booking);
      AfterSettlement(v, s, how', paid', booking') == v <==>
        || (how'.Cash? && paid')
        || (how' == how && booking' == booking && !(how.Cash? && paid))
  {
    var v := AfterSettlement(w, s, how, paid, booking);
    if v != w {
      TripRowAppended(w.rows, v.rows, TripEarningsCredit, booking');
      TripRowAppended(w.rows, v.rows, CashCommissionDeduction, booking');
    }
  }

  lemma TripRowAppended(rows: seq<Row>, more: seq<Row>, txn: TxnType, booking: nat)
    requires |more| == |rows| + 1 && more[..|rows|] == rows && !HasTripRow(rows, txn, booking)
    ensures HasTripRow(more, txn, booking) <==> more[|rows|].txn == txn && more[|rows|].booking == ForBooking(booking)
  {
    assert forall i :: 0 <= i < |rows| ==> more[i] == rows[i];
  }

  /** Two online completions, under two ids, pay the trip twice. */
  lemma TwoIdsPayTwice(w: Wallet, s: Settlement, booking: nat, offer: nat)
    requires !HasTripRow(w.rows, TripEarningsCredit, booking) && !HasTripRow(w.rows, TripEarningsCredit, offer)
    requires booking != offer
    ensures var v := AfterSettlement(w, s, Online, false, booking);
      AfterSettlement(v, s, Online, false, offer).balance == w.balance + 2 * Paise(s.driverEarnings)
  {
    var v := AfterSettlement(w, s, Online, false, booking);
    TripRowAppended(w.rows, v.rows, TripEarningsCredit, offer);
  }

  /** The settlement of a completed trip through the wallet service. */
  method Settle(wallet: DriverWalletService, s: Settlement, how: Method, alreadyPaid: bool, booking: nat)
    modifies wallet
    ensures wallet.State() == AfterSettlement(old(wallet.State()), s, how, alreadyPaid, booking)
  {
    if how.Cash? && !alreadyPaid {
      var balance := wallet.DeductCashCommission(Paise(CashRecovery(s)), 0, booking);
    } else if how != Cash {
      var balance := wallet.CreditTripEarnings(Paise(s.driverEarnings), booking);
    }
  }
}
